/** JavaScript value semantics the viewer relies on: property reads that may be
    `undefined`, arithmetic that may produce NaN, the conversions a typed array
    applies when a number is stored into it, and the exceptions the modelled code
    can throw. Numbers are integers here: every quantity the modelled code computes
    before a store is an integer (samples, sizes, slider positions). */
module Js {

  /** The value of a property read: `undefined` when the property is absent. */
  datatype Value = Undefined | Num(n: int)

  /** The result of arithmetic: NaN once an operand was `undefined` or NaN. */
  datatype Number = NaN | Int(i: int)

  /** The exceptions the modelled code can raise. */
  datatype Error =
    | RangeError   // a typed array or DataView access outside its bounds, or a negative length
    | TypeError    // a property read on `null` or `undefined`
    | ShaderError  // the plain `Error` the shader helpers throw when compiling or linking fails

  /** Success or a thrown exception, usable with `:-`. */
  datatype Result<+T> = Ok(value: T) | Err(error: Error) {
    predicate IsFailure() { Err? }

    function PropagateFailure<U>(): Result<U>
      requires Err?
    {
      Err(error)
    }

    function Extract(): T
      requires Ok?
    {
      value
    }
  }

  datatype Option<+T> = None | Some(value: T)

  /** `+` and `ToNumber` as applied to a property read. */
  function ToNumber(v: Value): (r: Number)
    ensures r.Int? <==> v.Num?
    ensures v.Num? ==> r.i == v.n
  {
    match v
    case Undefined => NaN
    case Num(n) => Int(n)
  }

  function Add(a: Number, b: Number): (r: Number)
    ensures r.Int? <==> a.Int? && b.Int?
    ensures r.Int? ==> r.i == a.i + b.i
  {
    if a.Int? && b.Int? then Int(a.i + b.i) else NaN
  }

  function Mul(a: Number, b: Number): (r: Number)
    ensures r.Int? <==> a.Int? && b.Int?
    ensures r.Int? ==> r.i == a.i * b.i
  {
    if a.Int? && b.Int? then Int(a.i * b.i) else NaN
  }

  /** ToUint8: what a `Uint8Array` keeps of a stored number (NaN becomes 0,
      integers wrap modulo 2^8). */
  function ToUint8(v: Number): (r: int)
    ensures 0 <= r < 0x100
    ensures v.Int? && 0 <= v.i < 0x100 ==> r == v.i
    ensures v.NaN? ==> r == 0
  {
    match v
    case NaN => 0
    case Int(i) => i % 0x100
  }

  /** ToInt16: what an `Int16Array` keeps of a stored number. */
  function ToInt16(v: Number): (r: int)
    ensures -0x8000 <= r < 0x8000
    ensures v.Int? && -0x8000 <= v.i < 0x8000 ==> r == v.i
    ensures v.NaN? ==> r == 0
  {
    match v
    case NaN => 0
    case Int(i) => (i + 0x8000) % 0x1_0000 - 0x8000
  }

  /** ToUint32: what a `Uint32Array` keeps of a stored number. */
  function ToUint32(v: Number): (r: int)
    ensures 0 <= r < 0x1_0000_0000
    ensures v.Int? && 0 <= v.i < 0x1_0000_0000 ==> r == v.i
    ensures v.NaN? ==> r == 0
  {
    match v
    case NaN => 0
    case Int(i) => i % 0x1_0000_0000
  }

  /** A typed-array element read: `undefined` outside the array, or at a NaN index. */
  function At(a: seq<int>, i: Number): (r: Value)
    ensures r.Num? <==> i.Int? && 0 <= i.i < |a|
    ensures r.Num? ==> r.n == a[i.i]
  {
    if i.Int? && 0 <= i.i < |a| then Num(a[i.i]) else Undefined
  }

  /** A freshly allocated typed array: every element is 0. */
  function Zeros(n: nat): (r: seq<int>)
    ensures |r| == n
    ensures forall i :: 0 <= i < n ==> r[i] == 0
  {
    seq(n, _ => 0)
  }

  /** `new XArray(n)`: a zero-filled array, or a RangeError for a negative length. */
  function Allocate(n: int): (r: Result<seq<int>>)
    ensures r.Ok? <==> n >= 0
    ensures r.Ok? ==> r.value == Zeros(n)
    ensures r.Err? ==> r.error == RangeError
  {
    if n < 0 then Err(RangeError) else Ok(Zeros(n))
  }

  /** Writing `w[0..]` into the typed array `buf` element by element: positions past
      the end of `buf` are silently dropped, the rest of `buf` keeps its contents. */
  function Write<T>(buf: seq<T>, w: seq<T>): (r: seq<T>)
    ensures |r| == |buf|
    ensures forall i :: 0 <= i < |r| && i < |w| ==> r[i] == w[i]
    ensures forall i :: |w| <= i < |r| ==> r[i] == buf[i]
    ensures |w| == |buf| ==> r == w
  {
    seq(|buf|, i requires 0 <= i < |buf| => if i < |w| then w[i] else buf[i])
  }
}
