/**
  The gating and fallback logic of the three estimators (EEG theta/beta ratio, PPG heart
  rate, PPG LF/HF ratio) and the two small numeric helpers. The spectral and peak-finding
  routines are foreign: they are fields of `Oracles`, and only the decisions made on their
  results are modelled. An oracle answering None stands for the routine raising.
 */
module SignalProcessing {
  import opened Wrappers
  import opened Floats

  const SamplingEeg: nat := 256
  const SamplingPpg: nat := 64

  /** Power integrated over a lower and an upper band (theta/beta, or LF/HF). */
  datatype BandPowers = BandPowers(lower: real, upper: real)

  datatype Oracles = Oracles(
    /** linear detrend, Welch PSD with the given nfft (overlap nfft/2), trapezoid over 4-8 Hz and 15-30 Hz */
    eegBands: (seq<Float>, nat) -> Option<BandPowers>,
    /** `nk.ppg_process(...)` and `info["PPG_Peaks"]`: sample indices of the beats */
    ppgPeaks: seq<real> -> Option<seq<int>>,
    /** z-normalisation and `find_peaks` with height 0.5*std and distance 25 samples */
    simplePeaks: seq<real> -> Option<seq<int>>,
    /** `nk.hrv(peaks)` and its `HRV_LFHF` cell; None for an empty table, a missing column or a raise */
    hrvLfHf: seq<int> -> Option<Float>,
    /** cumulative time axis, 4 Hz linear interpolation, Welch PSD, trapezoid over LF and HF */
    rrBands: seq<real> -> Option<BandPowers>,
    /** `np.std` (population standard deviation) */
    stdDev: seq<real> -> real)

  // ----- helpers ---------------------------------------------------------------

  /** Division that answers 0 for a zero divisor or a NaN operand. */
  function SafeDiv(num: Float, den: Float): (r: Float)
    ensures den == Finite(0.0) || num.NaN? || den.NaN? ==> r == Finite(0.0)
    ensures num.Finite? && den.Finite? && den.v != 0.0 ==> r == Finite(num.v / den.v)
    ensures r.NaN? <==> IsInf(num) && IsInf(den)
  {
    if den == Finite(0.0) || num.NaN? || den.NaN? then Finite(0.0) else Div(num, den)
  }

  /** None and NaN become 0; every other value is kept. */
  function Nz(x: Option<Float>): (r: Float)
    ensures !r.NaN?
    ensures x == None || x == Some(NaN) ==> r == Finite(0.0)
    ensures x.Some? && !x.value.NaN? ==> r == x.value
  {
    match x
    case None => Finite(0.0)
    case Some(NaN) => Finite(0.0)
    case Some(f) => f
  }

  lemma NzIdempotent(x: Option<Float>)
    ensures Nz(Some(Nz(x))) == Nz(x)
  {
  }

  // ----- cleaning ----------------------------------------------------------------

  /** `data[~np.isnan(data)]` */
  function DropNaN(xs: seq<Float>): (r: seq<Float>)
    ensures |r| <= |xs|
    ensures forall i :: 0 <= i < |r| ==> !r[i].NaN? && r[i] in xs
    decreases |xs|
  {
    if |xs| == 0 then []
    else (if xs[0].NaN? then [] else [xs[0]]) + DropNaN(xs[1..])
  }

  /** `data[~np.isinf(data)]` */
  function DropInf(xs: seq<Float>): (r: seq<Float>)
    ensures |r| <= |xs|
    ensures forall i :: 0 <= i < |r| ==> !IsInf(r[i]) && r[i] in xs
    decreases |xs|
  {
    if |xs| == 0 then []
    else (if IsInf(xs[0]) then [] else [xs[0]]) + DropInf(xs[1..])
  }

  /** The EEG cleaning: both masks in turn leave only finite samples. */
  function CleanEeg(xs: seq<Float>): (r: seq<Float>)
    ensures |r| <= |xs| && AllFinite(r)
  {
    DropInf(DropNaN(xs))
  }

  /** `[x for x in ppg if x is not None and not isnan(x) and not isinf(x)]` */
  function CleanPpg(ppg: seq<Option<Float>>): (r: seq<real>)
    ensures |r| <= |ppg|
    decreases |ppg|
  {
    if |ppg| == 0 then []
    else (if ppg[0].Some? && ppg[0].value.Finite? then [ppg[0].value.v] else []) + CleanPpg(ppg[1..])
  }

  predicate AllPresentFinite(ppg: seq<Option<Float>>) {
    forall i :: 0 <= i < |ppg| ==> ppg[i].Some? && ppg[i].value.Finite?
  }

  /** Cleaning keeps every sample exactly when every sample is a present finite number. */
  lemma {:induction false} CleanPpgKeepsAll(ppg: seq<Option<Float>>)
    ensures |CleanPpg(ppg)| == |ppg| <==> AllPresentFinite(ppg)
    decreases |ppg|
  {
    if |ppg| > 0 {
      CleanPpgKeepsAll(ppg[1..]);
      if AllPresentFinite(ppg) {
        assert AllPresentFinite(ppg[1..]);
      } else if AllPresentFinite(ppg[1..]) {
        assert !(ppg[0].Some? && ppg[0].value.Finite?) by {
          forall i | 1 <= i < |ppg| ensures ppg[i].Some? && ppg[i].value.Finite? {
            assert ppg[i] == ppg[1..][i - 1];
          }
        }
      }
    }
  }

  /** The non-NaN samples are kept, each of them, and nothing else. */
  lemma {:induction false} DropNaNMembership(xs: seq<Float>, x: Float)
    ensures x in DropNaN(xs) <==> x in xs && !x.NaN?
    decreases |xs|
  {
    if |xs| > 0 {
      DropNaNMembership(xs[1..], x);
      assert xs == [xs[0]] + xs[1..];
    }
  }

  /** The mask works sample by sample, so it keeps the order of the samples it keeps. */
  lemma {:induction false} DropNaNAppend(xs: seq<Float>, ys: seq<Float>)
    ensures DropNaN(xs + ys) == DropNaN(xs) + DropNaN(ys)
    decreases |xs|
  {
    if |xs| > 0 {
      DropNaNAppend(xs[1..], ys);
      assert (xs + ys)[0] == xs[0] && (xs + ys)[1..] == xs[1..] + ys;
      assert DropNaN(xs + ys) == (if xs[0].NaN? then [] else [xs[0]]) + DropNaN(xs[1..] + ys);
    } else {
      assert xs + ys == ys;
    }
  }

  /** The non-infinite samples are kept, each of them, and nothing else. */
  lemma {:induction false} DropInfMembership(xs: seq<Float>, x: Float)
    ensures x in DropInf(xs) <==> x in xs && !IsInf(x)
    decreases |xs|
  {
    if |xs| > 0 {
      DropInfMembership(xs[1..], x);
      assert xs == [xs[0]] + xs[1..];
    }
  }

  lemma {:induction false} DropInfAppend(xs: seq<Float>, ys: seq<Float>)
    ensures DropInf(xs + ys) == DropInf(xs) + DropInf(ys)
    decreases |xs|
  {
    if |xs| > 0 {
      DropInfAppend(xs[1..], ys);
      assert (xs + ys)[0] == xs[0] && (xs + ys)[1..] == xs[1..] + ys;
      assert DropInf(xs + ys) == (if IsInf(xs[0]) then [] else [xs[0]]) + DropInf(xs[1..] + ys);
    } else {
      assert xs + ys == ys;
    }
  }

  /** EEG cleaning keeps exactly the finite samples, in their order. */
  lemma CleanEegMembership(xs: seq<Float>, x: Float)
    ensures x in CleanEeg(xs) <==> x in xs && x.Finite?
  {
    DropNaNMembership(xs, x);
    DropInfMembership(DropNaN(xs), x);
  }

  lemma CleanEegAppend(xs: seq<Float>, ys: seq<Float>)
    ensures CleanEeg(xs + ys) == CleanEeg(xs) + CleanEeg(ys)
  {
    DropNaNAppend(xs, ys);
    DropInfAppend(DropNaN(xs), DropNaN(ys));
  }

  /** PPG cleaning keeps the value of every present finite sample, and nothing else. */
  lemma {:induction false} CleanPpgMembership(ppg: seq<Option<Float>>, x: real)
    ensures x in CleanPpg(ppg) <==> Some(Finite(x)) in ppg
    decreases |ppg|
  {
    if |ppg| > 0 {
      CleanPpgMembership(ppg[1..], x);
      assert ppg == [ppg[0]] + ppg[1..];
    }
  }

  lemma {:induction false} CleanPpgAppend(xs: seq<Option<Float>>, ys: seq<Option<Float>>)
    ensures CleanPpg(xs + ys) == CleanPpg(xs) + CleanPpg(ys)
    decreases |xs|
  {
    if |xs| > 0 {
      CleanPpgAppend(xs[1..], ys);
      assert (xs + ys)[0] == xs[0] && (xs + ys)[1..] == xs[1..] + ys;
    } else {
      assert xs + ys == ys;
    }
  }

  lemma {:induction false} DropNaNOfNone(xs: seq<Float>)
    requires forall i :: 0 <= i < |xs| ==> !xs[i].NaN?
    ensures DropNaN(xs) == xs
    decreases |xs|
  {
    if |xs| > 0 {
      DropNaNOfNone(xs[1..]);
      assert xs == [xs[0]] + xs[1..];
    }
  }

  lemma {:induction false} DropInfOfNone(xs: seq<Float>)
    requires forall i :: 0 <= i < |xs| ==> !IsInf(xs[i])
    ensures DropInf(xs) == xs
    decreases |xs|
  {
    if |xs| > 0 {
      DropInfOfNone(xs[1..]);
      assert xs == [xs[0]] + xs[1..];
    }
  }

  /** Without NaN or infinite samples the EEG cleaning keeps everything. */
  lemma CleanEegOfFinite(xs: seq<Float>)
    requires AllFinite(xs)
    ensures CleanEeg(xs) == xs
  {
    DropNaNOfNone(xs);
    DropInfOfNone(xs);
  }

  // ----- intervals ----------------------------------------------------------------

  /** `np.diff(peaks) / SAMPLING_PPG * scale` */
  function Intervals(peaks: seq<int>, scale: real): (r: seq<real>)
    ensures |r| == if |peaks| < 2 then 0 else |peaks| - 1
  {
    if |peaks| < 2 then []
    else seq(|peaks| - 1, i requires 0 <= i < |peaks| - 1 => (peaks[i + 1] - peaks[i]) as real / SamplingPpg as real * scale)
  }

  /** `xs[(xs > lo) & (xs < hi)]`: the values strictly inside (lo, hi), in order. */
  function Between(xs: seq<real>, lo: real, hi: real): (r: seq<real>)
    ensures |r| <= |xs|
    ensures forall i :: 0 <= i < |r| ==> lo < r[i] < hi
    decreases |xs|
  {
    if |xs| == 0 then []
    else (if lo < xs[0] < hi then [xs[0]] else []) + Between(xs[1..], lo, hi)
  }

  lemma {:induction false} BetweenMembership(xs: seq<real>, lo: real, hi: real, x: real)
    ensures x in Between(xs, lo, hi) <==> x in xs && lo < x < hi
    decreases |xs|
  {
    if |xs| > 0 {
      BetweenMembership(xs[1..], lo, hi, x);
      assert xs == [xs[0]] + xs[1..];
    }
  }

  lemma {:induction false} BetweenAllInside(xs: seq<real>, lo: real, hi: real)
    requires forall i :: 0 <= i < |xs| ==> lo < xs[i] < hi
    ensures Between(xs, lo, hi) == xs
    decreases |xs|
  {
    if |xs| > 0 {
      assert forall i :: 0 <= i < |xs[1..]| ==> lo < xs[1..][i] < hi;
      BetweenAllInside(xs[1..], lo, hi);
      assert lo < xs[0] < hi;
      assert Between(xs, lo, hi) == [xs[0]] + Between(xs[1..], lo, hi);
      assert xs == [xs[0]] + xs[1..];
    }
  }

  /** 60 over a mean interval strictly inside (lo, hi) seconds is strictly inside (60/hi, 60/lo). */
  lemma RateBounds(valid: seq<real>, lo: real, hi: real)
    requires |valid| > 0 && 0.0 < lo < hi
    requires forall i :: 0 <= i < |valid| ==> lo < valid[i] < hi
    ensures Mean(valid) > 0.0 && 60.0 / hi < 60.0 / Mean(valid) < 60.0 / lo
  {
    MeanBounds(valid, lo, hi);
    DivAntitone(60.0, Mean(valid), hi);
    DivAntitone(60.0, lo, Mean(valid));
  }

  // ----- theta/beta ratio ---------------------------------------------------------

  function MinEegSamples(isTask: bool): nat {
    if isTask then 256 else 512
  }

  /** The Welch window: 256 for a task shorter than 512 samples, 512 otherwise. */
  function Nfft(isTask: bool, n: nat): nat {
    if isTask && n < 512 then 256 else 512
  }

  /** Whenever the cleaned signal passes the length check it is at least one window long. */
  lemma NfftGuardUnreachable(isTask: bool, n: nat)
    requires n >= MinEegSamples(isTask)
    ensures n >= Nfft(isTask, n)
    ensures Nfft(isTask, n) == 256 <==> isTask && n < 512
  {
  }

  /** `theta_beta_ratio`: zero unless long enough before and after cleaning and beta power is positive. */
  function ThetaBetaRatio(eeg: seq<Float>, isTask: bool, o: Oracles): (r: real)
    ensures |eeg| < MinEegSamples(isTask) ==> r == 0.0
    ensures |CleanEeg(eeg)| < MinEegSamples(isTask) ==> r == 0.0
    ensures r != 0.0 ==>
      var data := CleanEeg(eeg);
      && o.eegBands(data, Nfft(isTask, |data|)).Some?
      && o.eegBands(data, Nfft(isTask, |data|)).value.upper > 0.0
      && r == o.eegBands(data, Nfft(isTask, |data|)).value.lower / o.eegBands(data, Nfft(isTask, |data|)).value.upper
  {
    if |eeg| == 0 then 0.0
    else
      var minSamples := MinEegSamples(isTask);
      if |eeg| < minSamples then 0.0
      else
        var data := CleanEeg(eeg);
        if |data| < minSamples then 0.0
        else
          var nfft := Nfft(isTask, |data|);
          if |data| < nfft then 0.0
          else
            match o.eegBands(data, nfft)
            case None => 0.0
            case Some(p) => if p.upper > 0.0 then p.lower / p.upper else 0.0
  }

  /** With non-negative band powers from the spectrum the ratio is never negative. */
  lemma ThetaBetaNonNegative(eeg: seq<Float>, isTask: bool, o: Oracles)
    requires forall d, n :: o.eegBands(d, n).Some? ==> o.eegBands(d, n).value.lower >= 0.0
    ensures ThetaBetaRatio(eeg, isTask, o) >= 0.0
  {
    var r := ThetaBetaRatio(eeg, isTask, o);
    if r != 0.0 {
      var data := CleanEeg(eeg);
      var p := o.eegBands(data, Nfft(isTask, |data|)).value;
      assert r == p.lower / p.upper;
    }
  }

  // ----- heart rate ---------------------------------------------------------------

  function MinHrSamples(isTask: bool): nat {
    if isTask then 64 else 128
  }

  /** The beat intervals (seconds) that `simple_hr_estimation` keeps. */
  function SimpleRrSeconds(peaks: seq<int>): seq<real> {
    Between(Intervals(peaks, 1.0), 0.4, 2.0)
  }

  /** `simple_hr_estimation`: peaks from `find_peaks`, intervals kept strictly inside (0.4, 2.0) s. */
  function SimpleHrEstimation(data: seq<real>, o: Oracles): (hr: real)
    ensures |data| < 64 ==> hr == 0.0
    ensures hr == 0.0 || 30.0 < hr < 150.0
    ensures hr != 0.0 ==>
      && o.simplePeaks(data).Some?
      && |o.simplePeaks(data).value| >= 2
      && |SimpleRrSeconds(o.simplePeaks(data).value)| > 0
    ensures |data| >= 64 && o.simplePeaks(data).Some? && |SimpleRrSeconds(o.simplePeaks(data).value)| > 0 ==>
      Mean(SimpleRrSeconds(o.simplePeaks(data).value)) > 0.0 && hr == 60.0 / Mean(SimpleRrSeconds(o.simplePeaks(data).value))
  {
    if |data| < 64 then 0.0
    else
      match o.simplePeaks(data)
      case None => 0.0
      case Some(peaks) =>
        var valid := SimpleRrSeconds(peaks);
        if |peaks| < 2 then 0.0
        else if |valid| == 0 then 0.0
        else SimpleRate(valid)
  }

  /** 60 over the mean of intervals strictly inside (0.4, 2.0) s, which lies strictly inside (30, 150) bpm. */
  function SimpleRate(valid: seq<real>): (hr: real)
    requires |valid| > 0
    requires forall i :: 0 <= i < |valid| ==> 0.4 < valid[i] < 2.0
    ensures Mean(valid) > 0.0 && hr == 60.0 / Mean(valid) && 30.0 < hr < 150.0
  {
    RateBounds(valid, 0.4, 2.0);
    60.0 / Mean(valid)
  }

  /**
    `hr_from_ppg`: the full peak path for 200 cleaned samples or more, the simple estimator
    below that or when the full path fails. A rate is 0 (undetermined) or strictly inside
    (30, 200) bpm.
   */
  function HrFromPpg(ppg: seq<Option<Float>>, isTask: bool, o: Oracles): (hr: real)
    ensures |CleanPpg(ppg)| < MinHrSamples(isTask) ==> hr == 0.0
    ensures MinHrSamples(isTask) <= |CleanPpg(ppg)| < 200 ==> hr == SimpleHrEstimation(CleanPpg(ppg), o)
    ensures hr == 0.0 || 30.0 < hr < 200.0
  {
    var minSamples := MinHrSamples(isTask);
    if |ppg| == 0 || |ppg| < minSamples then 0.0
    else
      var clean := CleanPpg(ppg);
      if |clean| < minSamples then 0.0
      else if |clean| < 200 then SimpleHrEstimation(clean, o)
      else
        match o.ppgPeaks(clean)
        case None => SimpleHrEstimation(clean, o)
        case Some(peaks) =>
          if |peaks| < 2 then SimpleHrEstimation(clean, o)
          else
            var valid := Between(Intervals(peaks, 1.0), 0.3, 2.0);
            if |valid| == 0 then SimpleHrEstimation(clean, o)
            else
              var meanRr := Mean(valid);
              RateBounds(valid, 0.3, 2.0);
              if meanRr > 0.0 then 60.0 / meanRr else 0.0
  }

  /** On the full path the valid RR intervals alone decide the rate. */
  lemma HrFullPath(ppg: seq<Option<Float>>, isTask: bool, o: Oracles, peaks: seq<int>)
    requires |CleanPpg(ppg)| >= 200 && o.ppgPeaks(CleanPpg(ppg)) == Some(peaks)
    requires |Between(Intervals(peaks, 1.0), 0.3, 2.0)| > 0
    ensures var valid := Between(Intervals(peaks, 1.0), 0.3, 2.0);
      Mean(valid) > 0.0 && HrFromPpg(ppg, isTask, o) == 60.0 / Mean(valid)
  {
    var valid := Between(Intervals(peaks, 1.0), 0.3, 2.0);
    RateBounds(valid, 0.3, 2.0);
    assert |peaks| >= 2;
  }

  /**
    With 200 cleaned samples or more, a failed peak search, fewer than two peaks or no RR
    interval inside (0.3, 2.0) s hands over to the simple estimator.
   */
  lemma HrFallback(ppg: seq<Option<Float>>, isTask: bool, o: Oracles)
    requires |CleanPpg(ppg)| >= 200
    requires o.ppgPeaks(CleanPpg(ppg)).None? || |Between(Intervals(o.ppgPeaks(CleanPpg(ppg)).value, 1.0), 0.3, 2.0)| == 0
    ensures HrFromPpg(ppg, isTask, o) == SimpleHrEstimation(CleanPpg(ppg), o)
  {
  }

  /** The simple estimator's own length guard never fires when it is reached from `hr_from_ppg`. */
  lemma SimpleGuardUnreachable(isTask: bool, clean: seq<real>)
    requires |clean| >= MinHrSamples(isTask)
    ensures |clean| >= 64
  {
  }

  // ----- LF/HF ratio ----------------------------------------------------------------

  function MinLfHfSamples(isTask: bool): nat {
    if isTask then 128 else 192
  }

  /** `min(max(x, lo), hi)` */
  function Clamp(x: real, lo: real, hi: real): real {
    var atLeast := if lo > x then lo else x;
    if hi < atLeast then hi else atLeast
  }

  /** `calculate_simple_lf_hf`: 50 times the coefficient of variation, clamped to [0.1, 10]. */
  function SimpleLfHf(rr: seq<real>, o: Oracles): (r: real)
    ensures |rr| < 3 ==> r == 0.0
    ensures |rr| >= 3 ==> 0.1 <= r <= 10.0
  {
    if |rr| < 3 then 0.0
    else
      var rrMean := Mean(rr);
      var cv := if rrMean > 0.0 then o.stdDev(rr) / rrMean else 0.0;
      Clamp(cv * 50.0, 0.1, 10.0)
  }

  /** `len(np.arange(0, stop, step))` for a positive step: the grid points below `stop`. */
  function ArangeLength(stop: real, step: real): (n: nat)
    requires step > 0.0
    ensures stop <= 0.0 ==> n == 0
    ensures stop > 0.0 ==> n > 0 && (n - 1) as real * step < stop <= n as real * step
  {
    var q := stop / step;
    if q <= 0.0 then 0
    else
      var f := q.Floor;
      var c := if f as real == q then f else f + 1;
      GridBounds(stop, step, c);
      c
  }

  lemma GridBounds(stop: real, step: real, c: int)
    requires step > 0.0 && (c - 1) as real < stop / step <= c as real
    ensures (c - 1) as real * step < stop <= c as real * step
  {
    var q := stop / step;
    assert q * step == stop;
    MulStrict((c - 1) as real, q, step);
    if q < c as real {
      MulStrict(q, c as real, step);
    } else {
      assert c as real * step == q * step;
    }
  }

  /** `calculate_manual_lf_hf`: a 4 Hz grid of at least 20 points and positive HF power, else the proxy. */
  function ManualLfHf(rr: seq<real>, o: Oracles): (r: real)
    ensures |rr| < 10 ==> r == 0.0
    ensures |rr| >= 10 && ArangeLength(Sum(rr) / 1000.0, 0.25) < 20 ==> r == SimpleLfHf(rr, o)
    ensures |rr| >= 10 && r != SimpleLfHf(rr, o) ==>
      o.rrBands(rr).Some? && o.rrBands(rr).value.upper > 0.0 && r == o.rrBands(rr).value.lower / o.rrBands(rr).value.upper
    ensures |rr| >= 10 && ArangeLength(Sum(rr) / 1000.0, 0.25) >= 20 && o.rrBands(rr).Some? && o.rrBands(rr).value.upper > 0.0 ==>
      r == o.rrBands(rr).value.lower / o.rrBands(rr).value.upper
  {
    if |rr| < 10 then 0.0
    else
      var timeEnd := Sum(rr) / 1000.0;
      if ArangeLength(timeEnd, 0.25) < 20 then SimpleLfHf(rr, o)
      else
        match o.rrBands(rr)
        case None => SimpleLfHf(rr, o)
        case Some(p) => if p.upper > 0.0 then p.lower / p.upper else SimpleLfHf(rr, o)
  }

  /** `value > 0` on a double: true for positive finite values and for +inf. */
  predicate Positive(x: Float) {
    match x
    case Finite(a) => a > 0.0
    case PosInf => true
    case _ => false
  }

  /**
    Whether the NeuroKit value is taken: as written (`not isnan(value) and value > 0`), or
    as intended (a finite positive value).
   */
  predicate NeuroKitAccepts(value: Float, finiteOnly: bool) {
    !value.NaN? && Positive(value) && (finiteOnly ==> value.Finite?)
  }

  /** The tiers of `lf_hf_ratio`, with the NeuroKit acceptance test as a parameter. */
  function LfHfChain(ppg: seq<Option<Float>>, isTask: bool, o: Oracles, finiteOnly: bool): (r: Float)
    ensures finiteOnly ==> r.Finite?
    ensures r.Finite? || r == PosInf
  {
    var minSamples := MinLfHfSamples(isTask);
    if |ppg| == 0 || |ppg| < minSamples then Finite(0.0)
    else
      var clean := CleanPpg(ppg);
      if |clean| < minSamples then Finite(0.0)
      else
        match o.ppgPeaks(clean)
        case None => Finite(0.0)
        case Some(peaks) =>
          if |peaks| < 5 then Finite(0.0)
          else
            var valid := Between(Intervals(peaks, 1000.0), 300.0, 2000.0);
            if |valid| < 10 then Finite(if |valid| >= 3 then SimpleLfHf(valid, o) else 0.0)
            else
              match o.hrvLfHf(peaks)
              case Some(value) => if NeuroKitAccepts(value, finiteOnly) then value else Finite(ManualLfHf(valid, o))
              case None => Finite(ManualLfHf(valid, o))
  }

  /** `lf_hf_ratio` exactly as written: a NeuroKit value of +inf is returned as it is. */
  function LfHfRatioAsWritten(ppg: seq<Option<Float>>, isTask: bool, o: Oracles): (r: Float)
    ensures r.Finite? || r == PosInf
    ensures r == PosInf ==> o.ppgPeaks(CleanPpg(ppg)).Some? && o.hrvLfHf(o.ppgPeaks(CleanPpg(ppg)).value) == Some(PosInf)
  {
    LfHfChain(ppg, isTask, o, false)
  }

  /** `lf_hf_ratio` with the NeuroKit value taken only when it is finite and positive. */
  function LfHfRatio(ppg: seq<Option<Float>>, isTask: bool, o: Oracles): (r: real)
    ensures |CleanPpg(ppg)| < MinLfHfSamples(isTask) ==> r == 0.0
    ensures r != 0.0 ==> o.ppgPeaks(CleanPpg(ppg)).Some? && |o.ppgPeaks(CleanPpg(ppg)).value| >= 5
  {
    LfHfChain(ppg, isTask, o, true).v
  }

  /** The valid RR intervals (milliseconds) that `lf_hf_ratio` works on. */
  function ValidRrMillis(peaks: seq<int>): seq<real> {
    Between(Intervals(peaks, 1000.0), 300.0, 2000.0)
  }

  /** The tier that decides the LF/HF value once enough beats were found. */
  lemma LfHfTiers(ppg: seq<Option<Float>>, isTask: bool, o: Oracles, peaks: seq<int>)
    requires |CleanPpg(ppg)| >= MinLfHfSamples(isTask)
    requires o.ppgPeaks(CleanPpg(ppg)) == Some(peaks) && |peaks| >= 5
    ensures var valid := ValidRrMillis(peaks);
      LfHfRatio(ppg, isTask, o) ==
        if |valid| < 3 then 0.0
        else if |valid| < 10 then SimpleLfHf(valid, o)
        else if o.hrvLfHf(peaks).Some? && o.hrvLfHf(peaks).value.Finite? && o.hrvLfHf(peaks).value.v > 0.0 then o.hrvLfHf(peaks).value.v
        else ManualLfHf(valid, o)
  {
  }

  /** With a non-negative LF power from the RR spectrum the ratio is never negative. */
  lemma LfHfNonNegative(ppg: seq<Option<Float>>, isTask: bool, o: Oracles)
    requires forall rr :: o.rrBands(rr).Some? ==> o.rrBands(rr).value.lower >= 0.0
    ensures LfHfRatio(ppg, isTask, o) >= 0.0
  {
    var clean := CleanPpg(ppg);
    if |ppg| >= MinLfHfSamples(isTask) && |clean| >= MinLfHfSamples(isTask) && o.ppgPeaks(clean).Some? {
      var peaks := o.ppgPeaks(clean).value;
      var valid := ValidRrMillis(peaks);
      if |peaks| >= 5 && |valid| >= 10 {
        ManualNonNegative(valid, o);
      }
    }
  }

  lemma ManualNonNegative(rr: seq<real>, o: Oracles)
    requires forall rr' :: o.rrBands(rr').Some? ==> o.rrBands(rr').value.lower >= 0.0
    ensures ManualLfHf(rr, o) >= 0.0
  {
    if |rr| >= 10 && ArangeLength(Sum(rr) / 1000.0, 0.25) >= 20 && o.rrBands(rr).Some? {
      var p := o.rrBands(rr).value;
      if p.upper > 0.0 {
        assert p.lower / p.upper >= 0.0;
      }
    }
  }

  /** The two readings differ only where NeuroKit's value is +inf. */
  lemma LfHfReadingsAgree(ppg: seq<Option<Float>>, isTask: bool, o: Oracles)
    requires forall peaks :: o.hrvLfHf(peaks) != Some(PosInf)
    ensures LfHfRatioAsWritten(ppg, isTask, o) == Finite(LfHfRatio(ppg, isTask, o))
  {
  }

  /** Peaks 64 samples (one second) apart give ten intervals of 1000 ms, all of them plausible. */
  lemma CounterexampleIntervals()
    ensures ValidRrMillis(seq(11, i => 64 * i)) == seq(10, _ => 1000.0)
  {
    var rr := Intervals(seq(11, i => 64 * i), 1000.0);
    assert forall i :: 0 <= i < |rr| ==> rr[i] == 1000.0;
    BetweenAllInside(rr, 300.0, 2000.0);
  }

  /** With a zero standard deviation and no spectral bands, the manual estimate is the proxy's floor. */
  lemma ManualFloor(rr: seq<real>, o: Oracles)
    requires |rr| >= 10
    requires o.rrBands(rr) == None && o.stdDev(rr) == 0.0
    ensures ManualLfHf(rr, o) == 0.1
  {
  }

  /** Peak indices as a detector reports them on a block of `n` samples: strictly increasing, each inside the block. */
  predicate PeaksWithin(peaks: seq<int>, n: nat) {
    && (forall i :: 0 <= i < |peaks| ==> 0 <= peaks[i] < n)
    && (forall i, j :: 0 <= i < j < |peaks| ==> peaks[i] < peaks[j])
  }

  /** Both peak detectors report only increasing sample indices inside the block they are given. */
  ghost predicate PeaksInBlock(o: Oracles) {
    && (forall d: seq<real> :: o.ppgPeaks(d).Some? ==> PeaksWithin(o.ppgPeaks(d).value, |d|))
    && (forall d: seq<real> :: o.simplePeaks(d).Some? ==> PeaksWithin(o.simplePeaks(d).value, |d|))
  }

  /** A flat block of 704 samples, eleven seconds at 64 Hz. */
  function FlatBlock(): seq<Option<Float>> {
    seq(704, _ => Some(Finite(0.0)))
  }

  /**
    Numerics for `FlatBlock`: `ppg_process` finds eleven beats one second apart (samples 0, 64, ..., 640)
    in any block long enough to hold them, `find_peaks` finds none, NeuroKit's HRV table reads +inf,
    there are no spectral bands and the intervals have standard deviation 0.
   */
  function InfiniteLfHfOracles(): Oracles {
    Oracles(
      (d, n) => None,
      d => if |d| > 640 then Some(seq(11, i => 64 * i)) else None,
      d => None,
      p => Some(PosInf),
      rr => None,
      rr => 0.0)
  }

  /**
    On `FlatBlock`, with peak finders that report only indices inside the block, an HRV table holding +inf
    makes the as-written ratio +inf, while the intended one falls through to the manual tier and its proxy
    (flat intervals: coefficient of variation 0, clamped to 0.1).
   */
  lemma LfHfAsWrittenReturnsInfinity(isTask: bool)
    ensures PeaksInBlock(InfiniteLfHfOracles())
    ensures LfHfRatioAsWritten(FlatBlock(), isTask, InfiniteLfHfOracles()) == PosInf
    ensures LfHfRatio(FlatBlock(), isTask, InfiniteLfHfOracles()) == 0.1
  {
    hide *;
    WitnessPeaksInBlock();
    WitnessAsWritten(isTask);
    WitnessCorrected(isTask);
  }

  /** As written, the witness reaches the NeuroKit tier and returns its +inf. */
  lemma WitnessAsWritten(isTask: bool)
    ensures LfHfRatioAsWritten(FlatBlock(), isTask, InfiniteLfHfOracles()) == PosInf
  {
    var peaks := seq(11, i => 64 * i);
    var o := InfiniteLfHfOracles();
    FlatBlockIsClean();
    CounterexampleIntervals();
    hide FlatBlock, PeaksInBlock, LfHfRatio, LfHfRatioAsWritten, CleanPpg, ValidRrMillis;
    assert o.ppgPeaks(CleanPpg(FlatBlock())) == Some(peaks);
    NeuroKitInfinityPassesAsWritten(FlatBlock(), isTask, o, peaks);
  }

  /** Past the sample, peak and interval gates, a +inf from NeuroKit is the as-written ratio. */
  lemma NeuroKitInfinityPassesAsWritten(ppg: seq<Option<Float>>, isTask: bool, o: Oracles, peaks: seq<int>)
    requires |CleanPpg(ppg)| >= MinLfHfSamples(isTask)
    requires o.ppgPeaks(CleanPpg(ppg)) == Some(peaks) && |peaks| >= 5
    requires |ValidRrMillis(peaks)| >= 10 && o.hrvLfHf(peaks) == Some(PosInf)
    ensures LfHfRatioAsWritten(ppg, isTask, o) == PosInf
  {
    assert |ppg| >= |CleanPpg(ppg)|;
  }

  /** Corrected, the witness falls through to the manual tier, whose proxy gives its floor 0.1. */
  lemma WitnessCorrected(isTask: bool)
    ensures LfHfRatio(FlatBlock(), isTask, InfiniteLfHfOracles()) == 0.1
  {
    var peaks := seq(11, i => 64 * i);
    var o := InfiniteLfHfOracles();
    FlatBlockIsClean();
    hide FlatBlock, PeaksInBlock, LfHfRatio, LfHfRatioAsWritten, LfHfChain;
    assert o.ppgPeaks(CleanPpg(FlatBlock())) == Some(peaks);
    CounterexampleIntervals();
    ManualFloor(ValidRrMillis(peaks), o);
    LfHfTiers(FlatBlock(), isTask, o, peaks);
  }

  /** Every sample of `FlatBlock` survives cleaning. */
  lemma FlatBlockIsClean()
    ensures |FlatBlock()| == 704 && |CleanPpg(FlatBlock())| == 704
  {
    var ppg := FlatBlock();
    assert AllPresentFinite(ppg);
    CleanPpgKeepsAll(ppg);
  }

  /** The witness' beats lie at increasing indices inside any block it reports them for. */
  lemma WitnessPeaksInBlock()
    ensures PeaksInBlock(InfiniteLfHfOracles())
  {
    var o := InfiniteLfHfOracles();
    assert PeaksWithin(seq(11, i => 64 * i), 641);
    assert forall d: seq<real> :: o.ppgPeaks(d).Some? ==> |d| > 640 && o.ppgPeaks(d).value == seq(11, i => 64 * i);
  }
}
