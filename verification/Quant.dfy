/** Quantizing a state bank for transfer, over exact reals: worker/kvcache/quant.py.
    The 16-bit cast is any function; the 8-bit width is worked out. */
module Quant {
  import opened Wrappers

  function Abs(x: real): real { if x < 0.0 then -x else x }

  /** To the nearest integer, ties to even, as numpy.rint does. */
  function Rint(x: real): int {
    var f := x.Floor;
    var d := x - f as real;
    if d < 0.5 then f else if d > 0.5 then f + 1 else if f % 2 == 0 then f else f + 1
  }

  function Clip(n: int): int { if n < -127 then -127 else if n > 127 then 127 else n }

  function Peak(vals: seq<real>): real {
    if vals == [] then 0.0
    else
      var p, v := Peak(vals[..|vals|-1]), Abs(vals[|vals|-1]);
      if v > p then v else p
  }

  /** Symmetric, one scale a tensor. */
  function Scale(peak: real): (s: real)
    requires peak >= 0.0
    ensures s > 0.0
  {
    if peak > 0.0 then peak / 127.0 else 1.0
  }

  function Ratio(x: real, s: real): real
    requires s > 0.0
  {
    x / s
  }

  function Mul(x: real, s: real): real { x * s }

  function Code(x: real, s: real): int
    requires s > 0.0
  {
    Clip(Rint(Ratio(x, s)))
  }

  function Codes(vals: seq<real>, s: real): (cs: seq<int>)
    requires s > 0.0
    ensures |cs| == |vals|
  {
    seq(|vals|, i requires 0 <= i < |vals| => Code(vals[i], s))
  }

  function Decoded(codes: seq<int>, s: real): (vals: seq<real>)
    ensures |vals| == |codes|
  {
    seq(|codes|, i requires 0 <= i < |codes| => Mul(codes[i] as real, s))
  }

  // ---- one value ----

  lemma RintNear(x: real)
    ensures Abs(Rint(x) as real - x) <= 0.5
  {
  }

  lemma RintWhole(n: int)
    ensures Rint(n as real) == n
  {
  }

  /** An integer bound survives rounding. */
  lemma RintWithin(x: real, n: int)
    requires Abs(x) <= n as real
    ensures -n <= Rint(x) <= n
  {
    var f := x.Floor;
    assert f as real <= x < f as real + 1.0;
    assert -(n as real) <= x <= n as real;
    assert -n <= f <= n;
    if f == n {
      assert x == f as real;
    }
  }

  lemma RatioMul(x: real, s: real)
    requires s > 0.0
    ensures Mul(Ratio(x, s), s) == x
  {
  }

  lemma MulRatio(y: real, s: real)
    requires s > 0.0
    ensures Ratio(Mul(y, s), s) == y
  {
  }

  lemma MulMonotone(x: real, y: real, s: real)
    requires s > 0.0
    ensures x <= y <==> Mul(x, s) <= Mul(y, s)
  {
    if x <= y {
      assert (y - x) * s >= 0.0;
    } else {
      assert (x - y) * s > 0.0;
    }
  }

  lemma MulMinus(x: real, y: real, s: real)
    ensures Mul(x, s) - Mul(y, s) == Mul(x - y, s) && Mul(-x, s) == -Mul(x, s)
  {
  }

  lemma MulHalf(s: real)
    ensures Mul(0.5, s) == s / 2.0 && Mul(127.0, s) == 127.0 * s
  {
  }

  /** No value of the tensor is clipped. */
  lemma RatioWithin(x: real, peak: real)
    requires 0.0 <= Abs(x) <= peak
    ensures Abs(Ratio(x, Scale(peak))) <= 127.0
    ensures Code(x, Scale(peak)) == Rint(Ratio(x, Scale(peak)))
  {
    var s := Scale(peak);
    var y := Ratio(x, s);
    RatioMul(x, s);
    MulHalf(s);
    MulMinus(127.0, 0.0, s);
    if peak > 0.0 {
      assert Mul(127.0, s) == peak;
      MulMonotone(y, 127.0, s);
      MulMonotone(-127.0, y, s);
    } else {
      MulRatio(0.0, s);
      assert Mul(0.0, s) == 0.0;
    }
    RintWithin(y, 127);
  }

  /** A restored value is within half a scale step of the original. */
  lemma HalfStep(x: real, peak: real)
    requires 0.0 <= Abs(x) <= peak
    ensures Abs(Mul(Code(x, Scale(peak)) as real, Scale(peak)) - x) <= Scale(peak) / 2.0
  {
    var s := Scale(peak);
    var y, q := Ratio(x, s), Code(x, s) as real;
    RatioWithin(x, peak);
    RintNear(y);
    RatioMul(x, s);
    MulMinus(q, y, s);
    MulHalf(s);
    MulMinus(0.5, 0.0, s);
    MulMonotone(q - y, 0.5, s);
    MulMonotone(-0.5, q - y, s);
  }

  // ---- a tensor ----

  lemma {:induction false} PeakCovers(vals: seq<real>, i: nat)
    requires i < |vals|
    ensures 0.0 <= Abs(vals[i]) <= Peak(vals)
  {
    if i < |vals| - 1 {
      PeakCovers(vals[..|vals|-1], i);
    }
  }

  lemma {:induction false} PeakReached(vals: seq<real>) returns (i: nat)
    requires vals != []
    ensures i < |vals| && Peak(vals) == Abs(vals[i])
  {
    var init := vals[..|vals|-1];
    if init == [] || Abs(vals[|vals|-1]) > Peak(init) {
      i := |vals| - 1;
      if init == [] {
        assert Peak(init) == 0.0;
      }
    } else {
      i := PeakReached(init);
    }
  }

  lemma {:induction false} PeakAtMost(vals: seq<real>, b: real)
    requires b >= 0.0 && forall i | 0 <= i < |vals| :: Abs(vals[i]) <= b
    ensures 0.0 <= Peak(vals) <= b
  {
    if vals != [] {
      PeakAtMost(vals[..|vals|-1], b);
    }
  }

  lemma PeakPositive(vals: seq<real>)
    ensures Peak(vals) >= 0.0
  {
    if vals != [] {
      PeakCovers(vals, 0);
    }
  }

  /** The largest value is coded 127 or -127, and so restored exactly. */
  lemma PeakExact(x: real, peak: real)
    requires Abs(x) == peak
    ensures Mul(Code(x, Scale(peak)) as real, Scale(peak)) == x
  {
    var s := Scale(peak);
    RatioWithin(x, peak);
    RatioMul(x, s);
    MulHalf(s);
    MulMinus(127.0, 0.0, s);
    MulRatio(127.0, s);
    MulRatio(-127.0, s);
    MulRatio(0.0, s);
    assert Mul(0.0, s) == 0.0;
    var n := if peak == 0.0 then 0 else if x > 0.0 then 127 else -127;
    assert Ratio(x, s) == n as real;
    RintWhole(n);
  }

  /** A transferred tensor has the peak, and so the scale, it had before. */
  lemma PeakKept(vals: seq<real>)
    requires vals != []
    ensures Peak(Decoded(Codes(vals, Scale(Peak(vals))), Scale(Peak(vals)))) == Peak(vals)
  {
    var p := Peak(vals);
    var s := Scale(p);
    var back := Decoded(Codes(vals, s), s);
    var k := PeakReached(vals);
    PeakCovers(vals, k);
    PeakExact(vals[k], p);
    PeakCovers(back, k);
    forall i | 0 <= i < |back| ensures Abs(back[i]) <= p {
      PeakCovers(vals, i);
      CodeWithin(vals[i], p);
    }
    PeakAtMost(back, p);
  }

  lemma CodeWithin(x: real, peak: real)
    requires 0.0 <= Abs(x) <= peak
    ensures Abs(Mul(Code(x, Scale(peak)) as real, Scale(peak))) <= peak
  {
    var s := Scale(peak);
    var q := Code(x, s) as real;
    RatioWithin(x, peak);
    RintWithin(Ratio(x, s), 127);
    MulHalf(s);
    MulMinus(127.0, 0.0, s);
    MulMonotone(q, 127.0, s);
    MulMonotone(-127.0, q, s);
    if peak == 0.0 {
      MulRatio(0.0, s);
      assert Mul(0.0, s) == 0.0;
      assert Ratio(x, s) == 0.0;
      RintWhole(0);
    }
  }

  // ---- a bank ----

  datatype Tensor = Floats(vals: seq<real>) | Counters(ints: seq<int>)

  /** What travels: halves, or codes with their scale, or what was never touched. */
  datatype Coded = Plain(t: Tensor) | Halves(vals: seq<real>) | Bytes8(codes: seq<int>, scale: real)

  /** The peak of nothing is an error in numpy, so an empty float tensor has no 8-bit form. */
  function Encode(t: Tensor, dtype: string, half: real -> real): Option<Coded> {
    if dtype == "fp32" || t.Counters? then Some(Plain(t))
    else if dtype == "fp16" then Some(Halves(seq(|t.vals|, i requires 0 <= i < |t.vals| => half(t.vals[i]))))
    else if t.vals == [] then None
    else
      PeakPositive(t.vals);
      Some(Bytes8(Codes(t.vals, Scale(Peak(t.vals))), Scale(Peak(t.vals))))
  }

  function Decode(c: Coded): Tensor {
    match c
    case Plain(t) => t
    case Halves(vals) => Floats(vals)
    case Bytes8(codes, s) => Floats(Decoded(codes, s))
  }

  const SUPPORTED := {"fp32", "fp16", "int8"}

  method QuantizeBank(tensors: map<string, Tensor>, dtype: string, half: real -> real)
      returns (r: Option<map<string, Coded>>)
    ensures r.None? <==> dtype !in SUPPORTED || exists n :: n in tensors && Encode(tensors[n], dtype, half).None?
    ensures r.Some? ==> r.value.Keys == tensors.Keys
    ensures r.Some? ==> forall n | n in tensors :: Encode(tensors[n], dtype, half) == Some(r.value[n])
  {
    if dtype !in SUPPORTED {
      return None;
    }
    var out: map<string, Coded> := map[];
    var left := tensors.Keys;
    while left != {}
      invariant left <= tensors.Keys && out.Keys == tensors.Keys - left
      invariant forall n | n in out :: Encode(tensors[n], dtype, half) == Some(out[n])
      decreases |left|
    {
      var n :| n in left;
      var coded := Encode(tensors[n], dtype, half);
      if coded.None? {
        return None;
      }
      out := out[n := coded.value];
      left := left - {n};
    }
    r := Some(out);
  }

  method DequantizeBank(bank: map<string, Coded>) returns (tensors: map<string, Tensor>)
    ensures tensors.Keys == bank.Keys && forall n | n in bank :: tensors[n] == Decode(bank[n])
  {
    tensors := map[];
    var left := bank.Keys;
    while left != {}
      invariant left <= bank.Keys && tensors.Keys == bank.Keys - left
      invariant forall n | n in tensors :: tensors[n] == Decode(bank[n])
      decreases |left|
    {
      var n :| n in left;
      tensors := tensors[n := Decode(bank[n])];
      left := left - {n};
    }
  }

  /** One transfer blurs every value by half a step at most ... */
  lemma TransferBlurs(vals: seq<real>, half: real -> real)
    requires vals != []
    ensures var coded := Encode(Floats(vals), "int8", half);
            && coded.Some? && coded.value.Bytes8? && Decode(coded.value).Floats?
            && var back := Decode(coded.value).vals;
               |back| == |vals| && forall i | 0 <= i < |vals| :: Abs(back[i] - vals[i]) <= coded.value.scale / 2.0
  {
    forall i | 0 <= i < |vals|
      ensures Abs(Decoded(Codes(vals, Scale(Peak(vals))), Scale(Peak(vals)))[i] - vals[i]) <= Scale(Peak(vals)) / 2.0
    {
      PeakCovers(vals, i);
      HalfStep(vals[i], Peak(vals));
    }
  }

  /** ... and every later one nothing: what is sent again is what was sent. */
  lemma TransferSettles(t: Tensor, half: real -> real)
    requires Encode(t, "int8", half).Some?
    ensures Encode(Decode(Encode(t, "int8", half).value), "int8", half) == Encode(t, "int8", half)
  {
    if t.Floats? {
      PeakPositive(t.vals);
      var p := Peak(t.vals);
      var s := Scale(p);
      var codes := Codes(t.vals, s);
      PeakKept(t.vals);
      forall i | 0 <= i < |codes| ensures Code(Decoded(codes, s)[i], s) == codes[i] {
        PeakCovers(t.vals, i);
        RatioWithin(t.vals[i], p);
        RintWithin(Ratio(t.vals[i], s), 127);
        MulRatio(codes[i] as real, s);
        RintWhole(codes[i]);
      }
      assert Codes(Decoded(codes, s), s) == codes;
    }
  }
}
