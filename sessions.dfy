/**
  The read side of the sessions router: the project filter on session ids, the mapping of
  stored rows to response objects, and the 404 cases. The database queries themselves are
  not modelled; each endpoint receives the rows its query returned, in query order.
 */
module Sessions {
  import opened Wrappers

  // ----- str.split with an explicit separator -------------------------------

  function Count(s: string, c: char): nat
    decreases |s|
  {
    if |s| == 0 then 0 else (if s[0] == c then 1 else 0) + Count(s[1..], c)
  }

  /** Python `s.split(sep)`: every separator cuts, so empty parts are kept and there is one more part than separators. */
  function Split(s: string, sep: char): (parts: seq<string>)
    ensures |parts| == Count(s, sep) + 1
    decreases |s|
  {
    if |s| == 0 then [""]
    else
      var rest := Split(s[1..], sep);
      if s[0] == sep then [""] + rest
      else [[s[0]] + rest[0]] + rest[1..]
  }

  /** `sep.join(parts)` */
  function Join(parts: seq<string>, sep: char): string
    requires |parts| >= 1
    decreases |parts|
  {
    if |parts| == 1 then parts[0] else parts[0] + [sep] + Join(parts[1..], sep)
  }

  lemma {:induction false} SplitPartsHaveNoSeparator(s: string, sep: char)
    ensures forall i :: 0 <= i < |Split(s, sep)| ==> sep !in Split(s, sep)[i]
    decreases |s|
  {
    if |s| > 0 {
      SplitPartsHaveNoSeparator(s[1..], sep);
      var rest := Split(s[1..], sep);
      if s[0] != sep {
        assert sep !in rest[0];
        assert sep !in [s[0]] + rest[0];
      }
    }
  }

  /** Joining the parts gives the original string back. */
  lemma {:induction false} JoinSplit(s: string, sep: char)
    ensures Join(Split(s, sep), sep) == s
    decreases |s|
  {
    if |s| > 0 {
      JoinSplit(s[1..], sep);
      var rest := Split(s[1..], sep);
      if s[0] == sep {
        assert ([""] + rest)[1..] == rest;
        assert s == [sep] + s[1..];
      } else if |rest| == 1 {
        assert s == [s[0]] + s[1..];
      } else {
        var parts := [[s[0]] + rest[0]] + rest[1..];
        assert parts[1..] == rest[1..];
        assert Join(rest, sep) == rest[0] + [sep] + Join(rest[1..], sep);
        assert s == [s[0]] + s[1..];
      }
    }
  }

  lemma {:induction false} SplitOfPlain(p: string, sep: char)
    requires sep !in p
    ensures Split(p, sep) == [p]
    decreases |p|
  {
    if |p| > 0 {
      SplitOfPlain(p[1..], sep);
      assert p == [p[0]] + p[1..];
    }
  }

  lemma {:induction false} SplitOfCut(p: string, rest: string, sep: char)
    requires sep !in p
    ensures Split(p + [sep] + rest, sep) == [p] + Split(rest, sep)
    decreases |p|
  {
    var s := p + [sep] + rest;
    if |p| == 0 {
      assert s[1..] == rest;
    } else {
      SplitOfCut(p[1..], rest, sep);
      assert s[1..] == p[1..] + [sep] + rest;
      assert p == [p[0]] + p[1..];
    }
  }

  /** Splitting undoes joining, when no part contains the separator. */
  lemma {:induction false} SplitJoin(parts: seq<string>, sep: char)
    requires |parts| >= 1
    requires forall i :: 0 <= i < |parts| ==> sep !in parts[i]
    ensures Split(Join(parts, sep), sep) == parts
    decreases |parts|
  {
    if |parts| == 1 {
      SplitOfPlain(parts[0], sep);
    } else {
      SplitJoin(parts[1..], sep);
      SplitOfCut(parts[0], Join(parts[1..], sep), sep);
      assert parts == [parts[0]] + parts[1..];
    }
  }

  // ----- stored rows and response objects -----------------------------------

  datatype User = User(name: string, avatarUrl: Option<string>, firebaseId: string)

  /** Nullable numeric columns are `Option<real>`; timestamps are opaque integers. */
  datatype StoredBaseline = StoredBaseline(thetaBeta: Option<real>, lfHf: Option<real>, hr: Option<real>)

  datatype StoredTask = StoredTask(
    taskId: string, taskName: string, normalizedStress: real, emotionLabel: string,
    heartRate: Option<real>, createdAt: int)

  datatype StoredSession = StoredSession(
    sessionId: string, contextType: string, createdAt: int,
    avgStress: Option<real>, emotion: Option<string>, arousal: Option<real>, valence: Option<real>,
    user: User, baselines: seq<StoredBaseline>, tasks: seq<StoredTask>)

  datatype BaselineResponse = BaselineResponse(thetaBeta: Option<real>, lfHf: Option<real>, hr: Option<real>)

  datatype TaskResponse = TaskResponse(
    taskId: string, taskName: string, normalizedStress: real, emotionLabel: string,
    heartRate: Option<real>, createdAt: int)

  datatype SessionResponse = SessionResponse(
    sessionId: string, contextType: string, createdAt: int,
    avgStress: Option<real>, emotion: Option<string>, arousal: Option<real>, valence: Option<real>,
    userName: string, userAvatarUrl: Option<string>, userFirebaseId: string,
    baseline: Option<BaselineResponse>, tasks: seq<TaskResponse>)

  datatype SessionGroupResponse = SessionGroupResponse(
    relation: string, totalParticipants: nat, sessions: seq<SessionResponse>)

  datatype HttpError = HttpError(status: int, detail: string)

  /** `float(x) if x else None`: a stored 0 reads back as no value. */
  function FloatIfTruthy(x: Option<real>): (r: Option<real>)
    ensures r.Some? <==> x.Some? && x.value != 0.0
    ensures r.Some? ==> r == x
  {
    if x.Some? && x.value != 0.0 then x else None
  }

  lemma FloatIfTruthyIdempotent(x: Option<real>)
    ensures FloatIfTruthy(FloatIfTruthy(x)) == FloatIfTruthy(x)
  {
  }

  function BaselineResponseOf(b: StoredBaseline): BaselineResponse {
    BaselineResponse(FloatIfTruthy(b.thetaBeta), FloatIfTruthy(b.lfHf), FloatIfTruthy(b.hr))
  }

  /** Only the first stored baseline is reported. */
  function FirstBaseline(bs: seq<StoredBaseline>): (r: Option<BaselineResponse>)
    ensures r.Some? <==> |bs| > 0
    ensures |bs| > 0 ==>
      && r.value.hr == FloatIfTruthy(bs[0].hr)
      && r.value.thetaBeta == FloatIfTruthy(bs[0].thetaBeta)
      && r.value.lfHf == FloatIfTruthy(bs[0].lfHf)
  {
    if |bs| > 0 then Some(BaselineResponseOf(bs[0])) else None
  }

  function TaskResponseOf(t: StoredTask): TaskResponse {
    TaskResponse(t.taskId, t.taskName, t.normalizedStress, t.emotionLabel, FloatIfTruthy(t.heartRate), t.createdAt)
  }

  function SessionResponseOf(s: StoredSession): (r: SessionResponse)
    ensures r.sessionId == s.sessionId && r.userFirebaseId == s.user.firebaseId
    ensures |r.tasks| == |s.tasks|
    ensures forall i :: 0 <= i < |s.tasks| ==>
      && r.tasks[i].taskId == s.tasks[i].taskId
      && r.tasks[i].normalizedStress == s.tasks[i].normalizedStress
      && r.tasks[i].heartRate == FloatIfTruthy(s.tasks[i].heartRate)
    ensures r.avgStress == FloatIfTruthy(s.avgStress) && r.emotion == s.emotion
    ensures r.arousal == FloatIfTruthy(s.arousal) && r.valence == FloatIfTruthy(s.valence)
    ensures r.baseline == FirstBaseline(s.baselines)
  {
    SessionResponse(
      s.sessionId, s.contextType, s.createdAt,
      FloatIfTruthy(s.avgStress), s.emotion, FloatIfTruthy(s.arousal), FloatIfTruthy(s.valence),
      s.user.name, s.user.avatarUrl, s.user.firebaseId,
      FirstBaseline(s.baselines),
      seq(|s.tasks|, i requires 0 <= i < |s.tasks| => TaskResponseOf(s.tasks[i])))
  }

  /** The response loop: one response per session, in order. */
  method BuildResponses(sessions: seq<StoredSession>) returns (rs: seq<SessionResponse>)
    ensures |rs| == |sessions|
    ensures forall i :: 0 <= i < |sessions| ==> rs[i] == SessionResponseOf(sessions[i])
  {
    rs := [];
    for i := 0 to |sessions|
      invariant |rs| == i
      invariant forall k :: 0 <= k < i ==> rs[k] == SessionResponseOf(sessions[k])
    {
      rs := rs + [SessionResponseOf(sessions[i])];
    }
  }

  // ----- the project filter --------------------------------------------------

  /** The filter's test on one session id (`session_timestamp_projectId_userId`). */
  predicate Keeps(sessionId: string, projectId: Option<string>) {
    var parts := Split(sessionId, '_');
    if |parts| >= 4 then projectId.None? || parts[2] == projectId.value
    else projectId.None?
  }

  /** With a project id, a session is kept exactly when its id has at least three underscores and the third part is that id. */
  lemma KeepsExactly(sessionId: string, projectId: Option<string>)
    ensures Keeps(sessionId, projectId) <==>
      projectId.None? || (Count(sessionId, '_') >= 3 && Split(sessionId, '_')[2] == projectId.value)
  {
  }

  /** The elements satisfying `keep`, in their original order. */
  function Select<T>(xs: seq<T>, keep: T -> bool): (r: seq<T>)
    ensures |r| <= |xs|
    decreases |xs|
  {
    if |xs| == 0 then []
    else Select(xs[..|xs| - 1], keep) + (if keep(xs[|xs| - 1]) then [xs[|xs| - 1]] else [])
  }

  /** The sessions the filter keeps, in their original order. */
  function Kept(sessions: seq<StoredSession>, projectId: Option<string>): (r: seq<StoredSession>)
    ensures |r| <= |sessions|
  {
    Select(sessions, (s: StoredSession) => Keeps(s.sessionId, projectId))
  }

  /** The filter loop of `get_user_sessions`. */
  method FilterByProject(sessions: seq<StoredSession>, projectId: Option<string>) returns (filtered: seq<StoredSession>)
    ensures filtered == Kept(sessions, projectId)
  {
    filtered := [];
    for i := 0 to |sessions|
      invariant filtered == Kept(sessions[..i], projectId)
    {
      var session := sessions[i];
      var parts := Split(session.sessionId, '_');
      if |parts| >= 4 {
        var sessionProject := parts[2];
        if projectId.None? || sessionProject == projectId.value {
          filtered := filtered + [session];
        }
      } else {
        if projectId.None? {
          filtered := filtered + [session];
        }
      }
      assert sessions[..i + 1][..i] == sessions[..i];
    }
    assert sessions[..|sessions|] == sessions;
  }

  lemma {:induction false} SelectAll<T>(xs: seq<T>, keep: T -> bool)
    requires forall i :: 0 <= i < |xs| ==> keep(xs[i])
    ensures Select(xs, keep) == xs
    decreases |xs|
  {
    if |xs| > 0 {
      SelectAll(xs[..|xs| - 1], keep);
      assert xs == xs[..|xs| - 1] + [xs[|xs| - 1]];
    }
  }

  lemma {:induction false} SelectMembership<T>(xs: seq<T>, keep: T -> bool, x: T)
    ensures x in Select(xs, keep) <==> x in xs && keep(x)
    decreases |xs|
  {
    if |xs| > 0 {
      SelectMembership(xs[..|xs| - 1], keep, x);
      assert xs == xs[..|xs| - 1] + [xs[|xs| - 1]];
    }
  }

  lemma {:induction false} SelectAppend<T>(xs: seq<T>, ys: seq<T>, keep: T -> bool)
    ensures Select(xs + ys, keep) == Select(xs, keep) + Select(ys, keep)
    decreases |ys|
  {
    if |ys| == 0 {
      assert xs + ys == xs;
    } else {
      var init := ys[..|ys| - 1];
      SelectAppend(xs, init, keep);
      assert (xs + ys)[..|xs + ys| - 1] == xs + init;
    }
  }

  /** Without a project id the filter keeps every session. */
  lemma KeptWithoutProject(sessions: seq<StoredSession>)
    ensures Kept(sessions, None) == sessions
  {
    SelectAll(sessions, (s: StoredSession) => Keeps(s.sessionId, None));
  }

  /** A session survives the filter exactly when it was returned by the query and passes the project test. */
  lemma KeptMembership(sessions: seq<StoredSession>, projectId: Option<string>, s: StoredSession)
    ensures s in Kept(sessions, projectId) <==> s in sessions && Keeps(s.sessionId, projectId)
  {
    SelectMembership(sessions, (s: StoredSession) => Keeps(s.sessionId, projectId), s);
  }

  /** Filtering distributes over concatenation: the kept sessions keep their relative order. */
  lemma KeptAppend(xs: seq<StoredSession>, ys: seq<StoredSession>, projectId: Option<string>)
    ensures Kept(xs + ys, projectId) == Kept(xs, projectId) + Kept(ys, projectId)
  {
    SelectAppend(xs, ys, (s: StoredSession) => Keeps(s.sessionId, projectId));
  }

  function ProjectSuffix(projectId: Option<string>): string {
    if projectId.Some? && |projectId.value| > 0 then " for project: " + projectId.value else ""
  }

  /** `get_user_sessions` on the rows its query returned. */
  method GetUserSessions(all: seq<StoredSession>, firebaseId: string, projectId: Option<string>)
    returns (r: Result<seq<SessionResponse>, HttpError>)
    ensures |all| == 0 ==> r == Failure(HttpError(404, "No sessions found for user: " + firebaseId))
    ensures |all| > 0 && |Kept(all, projectId)| == 0 ==>
      r == Failure(HttpError(404, "No sessions found for user: " + firebaseId + ProjectSuffix(projectId)))
    ensures r.Success? <==> |Kept(all, projectId)| > 0
    ensures r.Success? ==>
      && |r.value| == |Kept(all, projectId)|
      && forall i :: 0 <= i < |r.value| ==> r.value[i] == SessionResponseOf(Kept(all, projectId)[i])
  {
    if |all| == 0 {
      return Failure(HttpError(404, "No sessions found for user: " + firebaseId));
    }
    var filtered := FilterByProject(all, projectId);
    if |filtered| == 0 {
      return Failure(HttpError(404, "No sessions found for user: " + firebaseId + ProjectSuffix(projectId)));
    }
    var responses := BuildResponses(filtered);
    return Success(responses);
  }

  /** `get_sessions_by_relation` on the rows its query returned. */
  method GetSessionsByRelation(sessions: seq<StoredSession>, relation: string)
    returns (r: Result<SessionGroupResponse, HttpError>)
    ensures |sessions| == 0 ==> r == Failure(HttpError(404, "No sessions found for relation: " + relation))
    ensures |sessions| > 0 ==>
      && r.Success? && r.value.relation == relation
      && r.value.totalParticipants == |r.value.sessions| == |sessions|
      && forall i :: 0 <= i < |sessions| ==> r.value.sessions[i] == SessionResponseOf(sessions[i])
  {
    if |sessions| == 0 {
      return Failure(HttpError(404, "No sessions found for relation: " + relation));
    }
    var responses := BuildResponses(sessions);
    return Success(SessionGroupResponse(relation, |responses|, responses));
  }
}
