/** The adapter's decimal rounding helper `round` (cmd/adapter-modbus/main.go),
    over exact reals, and the round-half-away-from-zero rule it is meant to
    implement. */
module Rounding {

  function Pow10(n: nat): (p: nat)
    ensures p >= 1
  {
    if n == 0 then 1 else 10 * Pow10(n - 1)
  }

  /** 10^prec as the source's loop leaves it: a negative precision runs the
      loop zero times. */
  function Scale(prec: int): (p: real)
    ensures p >= 1.0
  {
    Pow10(if prec < 0 then 0 else prec) as real
  }

  /** Go's int(x) for a float: truncation toward zero. */
  function Trunc(x: real): (t: int)
    ensures x >= 0.0 ==> t as real <= x < t as real + 1.0
    ensures x < 0.0 ==> t as real - 1.0 < x <= t as real
  {
    if x >= 0.0 then x.Floor else -((-x).Floor)
  }

  /** trunc(v * p + h) / p: one rounding step at scale p with offset h. */
  function Snap(v: real, p: real, h: real): real
    requires p >= 1.0
  {
    Trunc(v * p + h) as real / p
  }

  lemma SnapDef(v: real, p: real, h: real)
    requires p >= 1.0
    ensures Snap(v, p, h) == Trunc(v * p + h) as real / p
  {
  }

  /** What `round` computes: trunc(v * 10^prec + 0.5) / 10^prec. */
  function RoundTrunc(v: real, prec: int): real {
    Snap(v, Scale(prec), 0.5)
  }

  /** The loop of `round` that builds the power of ten. */
  method PowerOfTen(prec: int) returns (p: real)
    ensures p == Scale(prec)
  {
    p := 1.0;
    var i := 0;
    while i < prec
      invariant 0 <= i && (prec >= 0 ==> i <= prec) && (prec < 0 ==> i == 0)
      invariant p == Pow10(i) as real
    {
      p := p * 10.0;
      i := i + 1;
    }
  }

  /** `round` as written. */
  method Round(v: real, prec: int) returns (r: real)
    ensures r == RoundTrunc(v, prec)
  {
    var p := PowerOfTen(prec);
    r := Trunc(v * p + 0.5) as real / p;
    SnapDef(v, p, 0.5);
  }

  /** The rounding step at a fixed positive scale p: the result k/p differs
      from v by at most half a unit, and rounding k/p again gives k back. */
  lemma RoundAt(v: real, p: real, k: int)
    requires p >= 1.0 && k == Trunc(v * p + Half(v))
    ensures v >= 0.0 ==> k == (v * p + 0.5).Floor && k >= 0
    ensures v < 0.0 ==> k <= 0
    ensures -0.5 / p <= k as real / p - v <= 0.5 / p
    ensures v >= 0.0 ==> -0.5 / p < k as real / p - v
    ensures (k as real / p) * p == k as real
    ensures (k as real / p < 0.0) <==> k < 0
  {
    assert (k as real / p - v) * p == k as real - v * p;
    if v >= 0.0 {
      assert v * p >= 0.0;
    } else {
      assert v * p < 0.0;
    }
  }

  /** A multiple k/p is left alone by the half-away rule. */
  lemma OnGrid(k: int, p: real)
    requires p >= 1.0
    ensures Snap(k as real / p, p, Half(k as real / p)) == k as real / p
    ensures k >= 0 ==> Snap(k as real / p, p, 0.5) == k as real / p
  {
    var r := k as real / p;
    assert r * p == k as real;
    if k < 0 {
      assert r < 0.0 && Half(r) == -0.5;
      var x := r * p + Half(r);
      assert x == k as real - 0.5;
      assert Trunc(x) == k;
      SnapDef(r, p, Half(r));
    } else {
      assert r >= 0.0 && Half(r) == 0.5;
      var x := r * p + Half(r);
      assert x == k as real + 0.5;
      assert Trunc(x) == k;
      SnapDef(r, p, Half(r));
    }
  }

  /** At a fixed scale, the step with offset 1/2 leaves non-negative
      multiples of 1/p alone. */
  lemma SnapIdempotent(v: real, p: real)
    requires p >= 1.0 && v >= 0.0
    ensures Snap(Snap(v, p, 0.5), p, 0.5) == Snap(v, p, 0.5)
  {
    var k := Trunc(v * p + 0.5);
    assert Half(v) == 0.5;
    RoundAt(v, p, k);
    OnGrid(k, p);
  }

  /** At a fixed scale, the half-away step is odd... */
  lemma SnapOdd(v: real, p: real)
    requires p >= 1.0
    ensures Snap(-v, p, Half(-v)) == -Snap(v, p, Half(v))
  {
    if v != 0.0 {
      var x := v * p + Half(v);
      assert (-v) * p + Half(-v) == -x;
      TruncNegate(x);
      var k := Trunc(x);
      assert (-k) as real / p == -(k as real / p);
    }
  }

  /** ...and leaves every multiple of 1/p alone. */
  lemma SnapHalfIdempotent(v: real, p: real)
    requires p >= 1.0
    ensures var r := Snap(v, p, Half(v)); Snap(r, p, Half(r)) == r
  {
    OnGrid(Trunc(v * p + Half(v)), p);
  }

  /** For non-negative values `round` is floor(v * 10^prec + 0.5) / 10^prec,
      the nearest multiple of 10^-prec with halves going up. */
  lemma RoundTruncNonNegative(v: real, prec: int)
    requires v >= 0.0
    ensures RoundTrunc(v, prec) == (v * Scale(prec) + 0.5).Floor as real / Scale(prec)
    ensures RoundTrunc(v, prec) >= 0.0
    ensures -0.5 / Scale(prec) < RoundTrunc(v, prec) - v <= 0.5 / Scale(prec)
  {
    var p := Scale(prec);
    var k := Trunc(v * p + Half(v));
    SnapDef(v, p, 0.5);
    assert Half(v) == 0.5 && RoundTrunc(v, prec) == k as real / p;
    RoundAt(v, p, k);
  }

  /** On a multiple of 10^-prec that is not negative, `round` changes
      nothing; so for v >= 0 rounding twice is rounding once. */
  lemma RoundTruncIdempotent(v: real, prec: int)
    requires v >= 0.0
    ensures RoundTrunc(RoundTrunc(v, prec), prec) == RoundTrunc(v, prec)
  {
    SnapIdempotent(v, Scale(prec));
  }

  /** For negative values `round` is not half-away-from-zero: -1 rounds to 0
      at precision 0, -800 W is reported as -799.9 W at precision 1, and
      rounding twice differs from rounding once. */
  lemma RoundTruncNegative()
    ensures RoundTrunc(-1.0, 0) == 0.0
    ensures RoundTrunc(-800.0, 1) == -799.9
    ensures RoundTrunc(-1.6, 0) == -1.0 && RoundTrunc(RoundTrunc(-1.6, 0), 0) == 0.0
  {
    assert Scale(0) == 1.0;
    assert Scale(1) == 10.0;
    assert Trunc(-0.5) == 0;
    assert Trunc(-7999.5) == -7999;
    assert Trunc(-1.1) == -1;
  }

  /** Round half away from zero at `prec` decimals: Go's
      math.Round(v * 10^prec) / 10^prec. */
  function RoundHalfAway(v: real, prec: int): real {
    Snap(v, Scale(prec), Half(v))
  }

  /** One half, with the sign of v. */
  function Half(v: real): real {
    if v < 0.0 then -0.5 else 0.5
  }

  /** The corrected helper, with the same power-of-ten loop. */
  method RoundAway(v: real, prec: int) returns (r: real)
    ensures r == RoundHalfAway(v, prec)
  {
    var p := PowerOfTen(prec);
    r := Trunc(v * p + Half(v)) as real / p;
    SnapDef(v, p, Half(v));
  }

  /** The corrected rule agrees with `round` wherever `round` is right... */
  lemma RoundHalfAwayAgrees(v: real, prec: int)
    requires v >= 0.0
    ensures RoundHalfAway(v, prec) == RoundTrunc(v, prec)
  {
  }

  lemma TruncNegate(x: real)
    ensures Trunc(-x) == -Trunc(x)
  {
  }

  /** ...treats both signs alike... */
  lemma RoundHalfAwayOdd(v: real, prec: int)
    ensures RoundHalfAway(-v, prec) == -RoundHalfAway(v, prec)
  {
    SnapOdd(v, Scale(prec));
  }

  /** ...is within half a unit of the last place of every input... */
  lemma RoundHalfAwayError(v: real, prec: int)
    ensures -0.5 / Scale(prec) <= RoundHalfAway(v, prec) - v <= 0.5 / Scale(prec)
  {
    var p := Scale(prec);
    var k := Trunc(v * p + Half(v));
    SnapDef(v, p, Half(v));
    assert RoundHalfAway(v, prec) == k as real / p;
    RoundAt(v, p, k);
  }

  /** ...and is idempotent for every value, which `round` is not. */
  lemma RoundHalfAwayIdempotent(v: real, prec: int)
    ensures RoundHalfAway(RoundHalfAway(v, prec), prec) == RoundHalfAway(v, prec)
  {
    SnapHalfIdempotent(v, Scale(prec));
  }

  /** The two rules a tick can round with: `round` as the adapter writes
      it, and the rounding half away from zero it evidently intends. */
  datatype Rule = AsWritten | HalfAway

  function Rounded(rule: Rule, v: real, prec: int): real {
    match rule
    case AsWritten => RoundTrunc(v, prec)
    case HalfAway => RoundHalfAway(v, prec)
  }
}
