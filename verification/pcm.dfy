/**
 * The capture-side transcoder of the voice session: every Float32 sample the
 * script processor hands over is clamped to [-1, 1], scaled by 0x8000 when
 * negative and by 0x7fff otherwise, and stored into an Int16Array.
 *
 * A Float32 value read as a JavaScript number is exact, and so is its product
 * with 0x8000 or 0x7fff (at most 24 + 15 significant bits, which fit in a
 * double), so every finite sample is modelled by the real it denotes.  The
 * three non-finite values stay distinct because the clamp, the comparison and
 * the store treat them differently.  Signed zero is not distinguished: both
 * zeros store as 0.
 */
module Pcm {

  /** A Float32 sample as the quantiser sees it. */
  datatype Float = Finite(v: real) | PosInf | NegInf | NaN

  /** Samples per capture callback: `createScriptProcessor(4096, 1, 1)`. */
  const BufferSize: nat := 4096

  /** Scale for negative samples. */
  const NegScale: nat := 0x8000
  /** Scale for non-negative samples. */
  const PosScale: nat := 0x7fff

  const Int16Min: int := -0x8000
  const Int16Max: int := 0x7fff

  /** ToInt16 reduces modulo 2^16. */
  const TwoTo16: nat := 0x1_0000

  predicate InInt16(n: int) {
    Int16Min <= n <= Int16Max
  }

  /** IEEE-754 `<`: false whenever either side is NaN. */
  predicate Less(a: Float, b: Float) {
    && !a.NaN?
    && !b.NaN?
    && if a.Finite? && b.Finite? then a.v < b.v
       else (a.NegInf? && !b.NegInf?) || (b.PosInf? && !a.PosInf?)
  }

  /** `Math.min(a, b)`: NaN if either argument is NaN, else the smaller one. */
  function JsMin(a: Float, b: Float): Float {
    if a.NaN? || b.NaN? then NaN else if Less(b, a) then b else a
  }

  /** `Math.max(a, b)`: NaN if either argument is NaN, else the larger one. */
  function JsMax(a: Float, b: Float): Float {
    if a.NaN? || b.NaN? then NaN else if Less(a, b) then b else a
  }

  /** The mathematical clamp of a real to [-1, 1]. */
  function ClampReal(v: real): (c: real)
    ensures -1.0 <= c <= 1.0
    ensures -1.0 <= v <= 1.0 ==> c == v
  {
    if v < -1.0 then -1.0 else if v > 1.0 then 1.0 else v
  }

  /** `Math.max(-1, Math.min(1, x))`. */
  function Clamp(x: Float): (r: Float)
    ensures x.NaN? <==> r.NaN?
    ensures x.Finite? ==> r == Finite(ClampReal(x.v))
    ensures x.NegInf? ==> r == Finite(-1.0)
    ensures x.PosInf? ==> r == Finite(1.0)
  {
    JsMax(Finite(-1.0), JsMin(Finite(1.0), x))
  }

  /** Multiplication of a number by a positive integer constant. */
  function Scale(x: Float, k: nat): (r: Float)
    requires k > 0
    ensures x.Finite? <==> r.Finite?
    ensures x.Finite? ==> r.v == x.v * k as real
  {
    match x
    case Finite(v) => Finite(v * k as real)
    case _ => x
  }

  /** `n` is `y` with its fractional part dropped (rounding toward zero). */
  predicate TowardZero(y: real, n: int) {
    if y >= 0.0 then n as real <= y < n as real + 1.0
    else n as real - 1.0 < y <= n as real
  }

  /** Truncation toward zero of a real. */
  function Trunc(y: real): (n: int)
    ensures TowardZero(y, n)
  {
    if y >= 0.0 then y.Floor else -((-y).Floor)
  }

  /**
   * The ToInt16 abstract operation of ECMA-262 (section 7.1.8 in the 2021 and
   * later editions), which an Int16Array store applies: non-finite values
   * become 0, finite ones are truncated toward zero and wrapped modulo 2^16
   * into [-2^15, 2^15).
   */
  function ToInt16(x: Float): (r: int)
    ensures InInt16(r)
    ensures !x.Finite? ==> r == 0
    ensures x.Finite? ==> (r - Trunc(x.v)) % TwoTo16 == 0
  {
    if !x.Finite? then 0
    else
      var bits := Trunc(x.v) % TwoTo16;
      if bits >= 0x8000 then bits - TwoTo16 else bits
  }

  /** One sample of `convertFloat32ToInt16`: clamp, scale by side, store. */
  function Quantize(x: Float): (q: int)
    ensures InInt16(q)
  {
    var s := Clamp(x);
    ToInt16(if Less(s, Finite(0.0)) then Scale(s, NegScale) else Scale(s, PosScale))
  }

  /** The clamped sample scaled by the factor for its side, before the store. */
  function ScaledSample(v: real): (y: real) {
    var c := ClampReal(v);
    if c < 0.0 then c * NegScale as real else c * PosScale as real
  }

  /** Whole-frame quantisation, as the session puts it on the wire. */
  function Quantized(buffer: seq<Float>): (frame: seq<int>)
    ensures |frame| == |buffer|
    ensures forall i :: 0 <= i < |frame| ==> InInt16(frame[i])
  {
    seq(|buffer|, i requires 0 <= i < |buffer| => Quantize(buffer[i]))
  }

  /**
   * `convertFloat32ToInt16`: a zero-filled Int16Array of the input's length,
   * overwritten sample by sample.
   */
  method ConvertFloat32ToInt16(buffer: seq<Float>) returns (frame: seq<int>)
    ensures |frame| == |buffer|
    ensures forall i :: 0 <= i < |buffer| ==> frame[i] == Quantize(buffer[i])
    ensures frame == Quantized(buffer)
  {
    frame := seq(|buffer|, _ => 0);
    var i := 0;
    while i < |buffer|
      invariant 0 <= i <= |buffer|
      invariant |frame| == |buffer|
      invariant forall j :: 0 <= j < i ==> frame[j] == Quantize(buffer[j])
    {
      frame := frame[i := Quantize(buffer[i])];
      i := i + 1;
    }
  }

  // ---------------------------------------------------------------------------
  // Properties of the quantiser
  // ---------------------------------------------------------------------------

  /** A value already in int16 range survives ToInt16 unchanged: no wrap. */
  lemma ToInt16NoWrap(y: real)
    requires Int16Min as real <= y <= Int16Max as real
    ensures ToInt16(Finite(y)) == Trunc(y)
  {
    var t := Trunc(y);
    assert InInt16(t);
    if t < 0 {
      assert t % TwoTo16 == t + TwoTo16;
    } else {
      assert t % TwoTo16 == t;
    }
  }

  /**
   * Every finite sample stores as its clamped, side-scaled value truncated
   * toward zero: the store never wraps around.
   */
  lemma QuantizeFinite(v: real)
    ensures TowardZero(ScaledSample(v), Quantize(Finite(v)))
    ensures Quantize(Finite(v)) == Trunc(ScaledSample(v))
  {
    var c := ClampReal(v);
    assert Clamp(Finite(v)) == Finite(c);
    var y := ScaledSample(v);
    assert Int16Min as real <= y <= Int16Max as real;
    if c < 0.0 {
      assert Less(Finite(c), Finite(0.0));
      assert Scale(Finite(c), NegScale) == Finite(y);
    } else {
      assert !Less(Finite(c), Finite(0.0));
      assert Scale(Finite(c), PosScale) == Finite(y);
    }
    ToInt16NoWrap(y);
  }

  /** Out-of-range inputs saturate at the ends of the int16 range; NaN stores as 0. */
  lemma QuantizeSaturates(x: Float)
    ensures InInt16(Quantize(x))
    ensures x.NegInf? || (x.Finite? && x.v <= -1.0) ==> Quantize(x) == Int16Min
    ensures x.PosInf? || (x.Finite? && x.v >= 1.0) ==> Quantize(x) == Int16Max
    ensures x.NaN? ==> Quantize(x) == 0
  {
    if x.NegInf? {
      QuantizeFinite(-1.0);
    } else if x.PosInf? {
      QuantizeFinite(1.0);
    } else if x.Finite? {
      QuantizeFinite(x.v);
    } else {
      assert Clamp(x) == NaN;
    }
  }

  /** The boundary cases: -1 maps to -32768, 1 to 32767 and 0 to 0. */
  lemma QuantizeBoundaries()
    ensures Quantize(Finite(-1.0)) == -32768
    ensures Quantize(Finite(1.0)) == 32767
    ensures Quantize(Finite(0.0)) == 0
  {
    QuantizeSaturates(Finite(-1.0));
    QuantizeSaturates(Finite(1.0));
    QuantizeFinite(0.0);
  }

  /** Truncation toward zero is monotone. */
  lemma TruncMonotone(y1: real, y2: real)
    requires y1 <= y2
    ensures Trunc(y1) <= Trunc(y2)
  {
    var n1, n2 := Trunc(y1), Trunc(y2);
    if y1 >= 0.0 {
      assert n1 as real <= y1 && y2 < n2 as real + 1.0;
    } else if y2 < 0.0 {
      assert n1 as real - 1.0 < y1 && y2 <= n2 as real;
    } else {
      assert n1 as real - 1.0 < y1 < 0.0;
      assert 0.0 <= y2 < n2 as real + 1.0;
    }
  }

  /** Scaling is monotone, also across 0 where the factor changes. */
  lemma ScaledSampleMonotone(v: real, w: real)
    requires v <= w
    ensures ScaledSample(v) <= ScaledSample(w)
  {
  }

  /**
   * Quantisation is monotone non-decreasing on every pair of ordered
   * non-NaN samples, infinities included.
   */
  lemma QuantizeMonotone(a: Float, b: Float)
    requires !a.NaN? && !b.NaN? && !Less(b, a)
    ensures Quantize(a) <= Quantize(b)
  {
    QuantizeSaturates(a);
    QuantizeSaturates(b);
    if a.Finite? && b.Finite? {
      QuantizeFinite(a.v);
      QuantizeFinite(b.v);
      ScaledSampleMonotone(a.v, b.v);
      TruncMonotone(ScaledSample(a.v), ScaledSample(b.v));
    }
  }

  /**
   * Quantisation preserves sign: a sample stores as a negative value exactly
   * when it is at most -1/32768, and as a positive value exactly when it is at
   * least 1/32767; everything strictly between stores as 0.
   */
  lemma QuantizeSign(v: real)
    ensures Quantize(Finite(v)) < 0 <==> v <= -1.0 / NegScale as real
    ensures Quantize(Finite(v)) > 0 <==> v >= 1.0 / PosScale as real
    ensures Quantize(Finite(v)) == 0 <==> -1.0 / NegScale as real < v < 1.0 / PosScale as real
  {
    QuantizeFinite(v);
    var c := ClampReal(v);
    var y := ScaledSample(v);
    var q := Quantize(Finite(v));
    if c < 0.0 {
      assert y == c * 32768.0;
      assert q < 0 <==> y <= -1.0;
      assert q <= 0;
    } else {
      assert y == c * 32767.0;
      assert q > 0 <==> y >= 1.0;
      assert q >= 0;
    }
  }

}
