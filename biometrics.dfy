/**
  The request payload of a recording session: channel and context literals, and the
  validator that turns a null PPG/HR field into an empty list and drops `None` entries (an
  omitted field skips the validator and stays `None`, which the pipeline treats like `[]`).
 */
module Biometrics {
  import opened Wrappers
  import opened Floats

  /** The four EEG channel labels of the headset. */
  datatype Channel = TP9 | AF7 | AF8 | TP10

  function ChannelName(c: Channel): string {
    match c
    case TP9 => "TP9"
    case AF7 => "AF7"
    case AF8 => "AF8"
    case TP10 => "TP10"
  }

  /** The `Literal` check: only the four labels are accepted. */
  function ParseChannel(s: string): (r: Option<Channel>)
    ensures r.Some? <==> s in {"TP9", "AF7", "AF8", "TP10"}
  {
    if s == "TP9" then Some(TP9)
    else if s == "AF7" then Some(AF7)
    else if s == "AF8" then Some(AF8)
    else if s == "TP10" then Some(TP10)
    else None
  }

  lemma ChannelRoundTrip(c: Channel, s: string)
    ensures ParseChannel(ChannelName(c)) == Some(c)
    ensures ParseChannel(s) == Some(c) ==> ChannelName(c) == s
  {
  }

  datatype ContextType = TaskEvaluation | Meeting | Calibration

  function ContextName(c: ContextType): string {
    match c
    case TaskEvaluation => "task_evaluation"
    case Meeting => "meeting"
    case Calibration => "calibration"
  }

  function ParseContext(s: string): (r: Option<ContextType>)
    ensures r.Some? <==> s in {"task_evaluation", "meeting", "calibration"}
  {
    if s == "task_evaluation" then Some(TaskEvaluation)
    else if s == "meeting" then Some(Meeting)
    else if s == "calibration" then Some(Calibration)
    else None
  }

  lemma ContextRoundTrip(c: ContextType, s: string)
    ensures ParseContext(ContextName(c)) == Some(c)
    ensures ParseContext(s) == Some(c) ==> ContextName(c) == s
  {
  }

  /** What a `ppg` or `hr` field can hold before validation. */
  datatype RawField = Null | ListValue(items: seq<Option<Float>>) | OtherValue

  /** `[x for x in v if x is not None]` */
  function DropNone(xs: seq<Option<Float>>): (r: seq<Option<Float>>)
    ensures |r| <= |xs|
    ensures forall i :: 0 <= i < |r| ==> r[i].Some?
    decreases |xs|
  {
    if |xs| == 0 then []
    else (if xs[0].Some? then [xs[0]] else []) + DropNone(xs[1..])
  }

  const TypeErrorMessage := "ppg/hr must be list or null"

  /** A `ppg` or `hr` list after validation: no entry is `None`. */
  type Samples = s: seq<Option<Float>> | forall i :: 0 <= i < |s| ==> s[i].Some?

  /** `clean_numeric_list`: null gives an empty list, a list loses its `None` entries, anything else is a TypeError. */
  function CleanNumericList(v: RawField): (r: Result<Samples, string>)
    ensures r.Success? <==> !v.OtherValue?
    ensures r.Failure? ==> r.error == TypeErrorMessage
    ensures r.Success? ==> forall i :: 0 <= i < |r.value| ==> r.value[i].Some?
    ensures v.Null? ==> r == Success([])
    ensures v.ListValue? ==> r == Success(DropNone(v.items))
  {
    match v
    case Null => Success([])
    case ListValue(items) => Success(DropNone(items))
    case OtherValue => Failure(TypeErrorMessage)
  }

  lemma {:induction false} DropNoneIdempotent(xs: seq<Option<Float>>)
    ensures DropNone(DropNone(xs)) == DropNone(xs)
    decreases |xs|
  {
    if |xs| > 0 {
      DropNoneIdempotent(xs[1..]);
      var tail := DropNone(xs[1..]);
      if xs[0].Some? {
        assert ([xs[0]] + tail)[1..] == tail;
        assert DropNone([xs[0]] + tail) == [xs[0]] + DropNone(tail);
      } else {
        assert DropNone(xs) == tail;
      }
    }
  }

  /** Nothing is lost exactly when there was no `None`. */
  lemma {:induction false} DropNoneLength(xs: seq<Option<Float>>)
    ensures |DropNone(xs)| == |xs| <==> forall i :: 0 <= i < |xs| ==> xs[i].Some?
    decreases |xs|
  {
    if |xs| > 0 {
      DropNoneLength(xs[1..]);
      if forall i :: 0 <= i < |xs| ==> xs[i].Some? {
        assert forall i :: 0 <= i < |xs[1..]| ==> xs[1..][i].Some?;
      } else if forall i :: 0 <= i < |xs[1..]| ==> xs[1..][i].Some? {
        assert !xs[0].Some? by {
          forall i | 1 <= i < |xs| ensures xs[i].Some? {
            assert xs[i] == xs[1..][i - 1];
          }
        }
      }
    }
  }

  /** Cleaning distributes over concatenation, so the kept entries stay in their original order. */
  lemma {:induction false} DropNoneAppend(xs: seq<Option<Float>>, ys: seq<Option<Float>>)
    ensures DropNone(xs + ys) == DropNone(xs) + DropNone(ys)
    decreases |xs|
  {
    if |xs| > 0 {
      DropNoneAppend(xs[1..], ys);
      assert (xs + ys)[1..] == xs[1..] + ys;
    } else {
      assert xs + ys == ys;
    }
  }

  /** The present entries are kept, each of them, and nothing else. */
  lemma {:induction false} DropNoneMembership(xs: seq<Option<Float>>, x: Option<Float>)
    ensures x in DropNone(xs) <==> x in xs && x.Some?
    decreases |xs|
  {
    if |xs| > 0 {
      DropNoneMembership(xs[1..], x);
      assert xs == [xs[0]] + xs[1..];
    }
  }

  datatype ChannelPacket = ChannelPacket(channel: Channel, values: seq<Float>)

  /** The calibration block, after validation (`ppg` and `hr` hold no `None`). */
  datatype RestData = RestData(eeg: seq<ChannelPacket>, ppg: Samples, hr: Samples)

  datatype TaskPacket = TaskPacket(
    taskId: string, taskName: string, userRating: int, explanation: Option<string>,
    eeg: seq<ChannelPacket>, ppg: Samples, hr: Samples)

  datatype SessionPayload = SessionPayload(
    sessionId: string, userFirebaseId: string, participantId: string,
    contextType: ContextType, sessionRelation: Option<string>,
    restData: RestData, tasks: seq<TaskPacket>)
}
