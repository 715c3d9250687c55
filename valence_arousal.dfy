/**
  Projection of baseline-relative feature deltas into bounded affect scalars: arousal is
  tanh of the mean of four signed z-scores; valence is tanh of frontal asymmetry / 20.
  `tanh` is a parameter; the facts used about it are those of `Floats.IsTanh`.
 */
module ValenceArousal {
  import opened Floats

  /** `z`: a z-score that is 0 for a zero divisor or a NaN value. */
  function Z(val: Float, std: real): (r: Float)
    ensures std == 0.0 || val.NaN? ==> r == Finite(0.0)
    ensures std != 0.0 && val.Finite? ==> r == Finite(val.v / std)
    ensures !r.NaN?
  {
    if std == 0.0 || val.NaN? then Finite(0.0) else Div(val, Finite(std))
  }

  /**
    `statistics.mean` of four doubles. On finite values it is the exact average; an infinite
    value decides the mean, and opposite infinities give NaN, as summing them does.
   */
  function MeanOfFour(a: Float, b: Float, c: Float, d: Float): (r: Float)
    ensures a.Finite? && b.Finite? && c.Finite? && d.Finite? ==> r == Finite((a.v + b.v + c.v + d.v) / 4.0)
    ensures a.Finite? && c.Finite? && d.Finite? ==> (b.PosInf? ==> r.PosInf?) && (b.NegInf? ==> r.NegInf?)
  {
    Div(Add(Add(Add(a, b), c), d), Finite(4.0))
  }

  /** The mean of the four signed z-scores of finite deltas. */
  function ArousalScore(dTheta: real, dHrv: real, dGsr: real, dHr: real): real {
    (-(dTheta / 0.2) - dHrv / 0.5 + dGsr / 0.3 + dHr / 5.0) / 4.0
  }

  /**
    `arousal_feature` on doubles: rising theta/beta and rising HRV lower arousal; rising skin
    conductance and heart rate raise it. With finite deltas it is tanh of the mean of the four
    scaled terms. An infinite HRV delta makes the mean infinite and `tanh` saturates at -1 or 1;
    a NaN HRV delta has a z-score of 0.
   */
  function ArousalFeature(tanh: real -> real, dTheta: Float, dHrv: Float, dGsr: Float, dHr: Float): (r: Float)
    ensures dTheta.Finite? && dHrv.Finite? && dGsr.Finite? && dHr.Finite? ==>
      r == Finite(tanh(ArousalScore(dTheta.v, dHrv.v, dGsr.v, dHr.v)))
    ensures dTheta.Finite? && dGsr.Finite? && dHr.Finite? ==>
      && (dHrv.NaN? ==> r == Finite(tanh(ArousalScore(dTheta.v, 0.0, dGsr.v, dHr.v))))
      && (dHrv == PosInf ==> r == Finite(-1.0))
      && (dHrv == NegInf ==> r == Finite(1.0))
    ensures IsTanh(tanh) && r.Finite? ==> -1.0 <= r.v <= 1.0
  {
    var m := MeanOfFour(Neg(Z(dTheta, 0.2)), Neg(Z(dHrv, 0.5)), Z(dGsr, 0.3), Z(dHr, 5.0));
    FTanhRange(tanh, m);
    MeanOfScores(dTheta, dHrv, dGsr, dHr);
    FTanh(tanh, m)
  }

  /** The mean of the four signed z-scores, by the kind of HRV delta. */
  lemma MeanOfScores(dTheta: Float, dHrv: Float, dGsr: Float, dHr: Float)
    ensures var m := MeanOfFour(Neg(Z(dTheta, 0.2)), Neg(Z(dHrv, 0.5)), Z(dGsr, 0.3), Z(dHr, 5.0));
      dTheta.Finite? && dGsr.Finite? && dHr.Finite? ==>
        && (dHrv.Finite? ==> m == Finite(ArousalScore(dTheta.v, dHrv.v, dGsr.v, dHr.v)))
        && (dHrv.NaN? ==> m == Finite(ArousalScore(dTheta.v, 0.0, dGsr.v, dHr.v)))
        && (dHrv == PosInf ==> m.NegInf?)
        && (dHrv == NegInf ==> m.PosInf?)
  {
    if dTheta.Finite? && dGsr.Finite? && dHr.Finite? {
      var a, c, d := -(dTheta.v / 0.2), dGsr.v / 0.3, dHr.v / 5.0;
      assert Neg(Z(dTheta, 0.2)) == Finite(a) && Z(dGsr, 0.3) == Finite(c) && Z(dHr, 5.0) == Finite(d);
      if dHrv.Finite? {
        var b := -(dHrv.v / 0.5);
        assert Neg(Z(dHrv, 0.5)) == Finite(b);
        assert (a + b + c + d) / 4.0 == ArousalScore(dTheta.v, dHrv.v, dGsr.v, dHr.v);
      } else if dHrv.NaN? {
        assert Neg(Z(dHrv, 0.5)) == Finite(0.0);
        assert (a + 0.0 + c + d) / 4.0 == ArousalScore(dTheta.v, 0.0, dGsr.v, dHr.v);
      }
    }
  }

  /** With the sign flip applied by the caller, the HRV term counts +dLf / 0.5. */
  lemma HrvTermDoubleNegation(tanh: real -> real, dTheta: real, dLf: real, dGsr: real, dHr: real)
    ensures ArousalFeature(tanh, Finite(dTheta), Neg(Finite(dLf)), Finite(dGsr), Finite(dHr))
      == Finite(tanh((-(dTheta / 0.2) + dLf / 0.5 + dGsr / 0.3 + dHr / 5.0) / 4.0))
  {
    assert -(-dLf / 0.5) == dLf / 0.5;
  }

  /** No change against the baseline means arousal 0, also when the HRV delta is NaN (an infinite ratio at both ends). */
  lemma ArousalAtBaseline(tanh: real -> real, dTheta: real, dHrv: Float, dHr: real)
    requires IsTanh(tanh)
    requires dTheta == 0.0 && dHr == 0.0 && (dHrv == Finite(0.0) || dHrv.NaN?)
    ensures ArousalFeature(tanh, Finite(dTheta), dHrv, Finite(0.0), Finite(dHr)) == Finite(0.0)
  {
    TanhZero(tanh);
    if dHrv.Finite? {
      assert ArousalScore(dTheta, dHrv.v, 0.0, dHr) == 0.0;
    } else {
      assert ArousalScore(dTheta, 0.0, 0.0, dHr) == 0.0;
    }
  }

  /** The mean of the four z-scores moves with heart rate and skin conductance and against theta/beta and HRV. */
  lemma ScoreMonotone(dTheta1: real, dHrv1: real, dGsr1: real, dHr1: real,
                      dTheta2: real, dHrv2: real, dGsr2: real, dHr2: real)
    requires dTheta2 <= dTheta1 && dHrv2 <= dHrv1 && dGsr1 <= dGsr2 && dHr1 <= dHr2
    ensures ArousalScore(dTheta1, dHrv1, dGsr1, dHr1) <= ArousalScore(dTheta2, dHrv2, dGsr2, dHr2)
  {
  }

  /** Arousal does not decrease with heart rate or skin conductance, nor increase with theta/beta or HRV. */
  lemma ArousalMonotone(tanh: real -> real,
                        dTheta1: real, dHrv1: real, dGsr1: real, dHr1: real,
                        dTheta2: real, dHrv2: real, dGsr2: real, dHr2: real)
    requires StrictlyIncreasing(tanh)
    requires dTheta2 <= dTheta1 && dHrv2 <= dHrv1 && dGsr1 <= dGsr2 && dHr1 <= dHr2
    ensures ArousalFeature(tanh, Finite(dTheta1), Finite(dHrv1), Finite(dGsr1), Finite(dHr1)).v
         <= ArousalFeature(tanh, Finite(dTheta2), Finite(dHrv2), Finite(dGsr2), Finite(dHr2)).v
  {
    ScoreMonotone(dTheta1, dHrv1, dGsr1, dHr1, dTheta2, dHrv2, dGsr2, dHr2);
    TanhMonotone(tanh, ArousalScore(dTheta1, dHrv1, dGsr1, dHr1), ArousalScore(dTheta2, dHrv2, dGsr2, dHr2));
  }

  /** `valence_feature` on a double: inside (-1, 1) for a finite asymmetry, +-1 at the infinities. */
  function ValenceFeature(tanh: real -> real, asym: Float): (r: Float)
    ensures asym.NaN? <==> r.NaN?
    ensures asym.Finite? ==> r == Finite(tanh(asym.v / 20.0))
    ensures asym == PosInf ==> r == Finite(1.0)
    ensures asym == NegInf ==> r == Finite(-1.0)
    ensures IsTanh(tanh) && asym.Finite? ==> -1.0 < r.v < 1.0
  {
    FTanh(tanh, Div(asym, Finite(20.0)))
  }

  lemma ValenceMonotone(tanh: real -> real, asym1: real, asym2: real)
    requires StrictlyIncreasing(tanh)
    requires asym1 <= asym2
    ensures ValenceFeature(tanh, Finite(asym1)).v <= ValenceFeature(tanh, Finite(asym2)).v
  {
    TanhMonotone(tanh, asym1 / 20.0, asym2 / 20.0);
  }
}
