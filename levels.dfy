/** `src/utils/levels.ts`: support/resistance levels and the "near" test. */
module Levels {
  import opened MathUtils
  import opened Candles

  datatype Levels = Levels(support: real, resistance: real, midpoint: real)

  function Closes(cs: seq<Candle>): (r: seq<real>)
    ensures |r| == |cs|
    ensures forall i :: 0 <= i < |cs| ==> r[i] == cs[i].close
  {
    seq(|cs|, i requires 0 <= i < |cs| => cs[i].close)
  }

  /** `findSupportResistance`: the lowest close, the highest close and their midpoint.
      The source's result on no candles (`Infinity`/`-Infinity`) is outside the model. */
  function FindSupportResistance(cs: seq<Candle>): (l: Levels)
    requires cs != []
    ensures l.support in Closes(cs) && l.resistance in Closes(cs)
    ensures forall i :: 0 <= i < |cs| ==> l.support <= cs[i].close <= l.resistance
    ensures l.support <= l.midpoint <= l.resistance
    ensures l.midpoint - l.support == l.resistance - l.midpoint
  {
    var closes := Closes(cs);
    var lo, hi := SeqMin(closes), SeqMax(closes);
    Levels(lo, hi, (lo + hi) / 2.0)
  }

  /** `isNear`: `value` is within `pct` percent of `target`; never near a zero target. */
  predicate IsNear(value: real, target: real, pct: real) {
    target != 0.0 && Abs((value - target) / target) * 100.0 <= pct
  }

  lemma IsNearZeroTarget(value: real, pct: real)
    ensures !IsNear(value, 0.0, pct)
  {
  }

  /** For a non-zero target, "near" is a relative distance of at most `pct` percent. */
  lemma IsNearRelativeDistance(value: real, target: real, pct: real)
    requires target != 0.0
    ensures IsNear(value, target, pct) <==> Abs(value - target) / Abs(target) * 100.0 <= pct
  {
    DivAbs(value - target, target);
  }

  lemma DivAbs(a: real, b: real)
    requires b != 0.0
    ensures Abs(a / b) == Abs(a) / Abs(b)
  {
    if b > 0.0 {
      if a >= 0.0 {
        DivNonNegative(a, b);
      } else {
        DivNegate(a, b);
        DivNonNegative(-a, b);
      }
    } else {
      DivNegateBoth(a, b);
      if a >= 0.0 {
        DivNegate(a, -b);
        DivNonNegative(a, -b);
      } else {
        DivNonNegative(-a, -b);
      }
    }
  }

  lemma DivNonNegative(a: real, b: real)
    requires a >= 0.0 && b > 0.0
    ensures a / b >= 0.0
  {
  }

  lemma DivNegate(a: real, b: real)
    requires b != 0.0
    ensures (-a) / b == -(a / b)
  {
  }

  lemma DivNegateBoth(a: real, b: real)
    requires b != 0.0
    ensures a / b == (-a) / (-b)
  {
  }

  lemma IsNearItself(target: real, pct: real)
    requires target != 0.0 && pct >= 0.0
    ensures IsNear(target, target, pct)
  {
  }

  /** Widening the tolerance keeps a value near. */
  lemma IsNearMonotone(value: real, target: real, pct: real, wider: real)
    requires pct <= wider
    ensures IsNear(value, target, pct) ==> IsNear(value, target, wider)
  {
  }
}
