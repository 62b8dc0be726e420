/** Values and small helpers shared by every part of the visualiser. */
module Basics {

  /** One element of a JavaScript `Uint8Array`. */
  type Byte = x: int | 0 <= x < 256

  datatype Option<T> = None | Some(value: T)

  datatype Result<T, E> = Ok(value: T) | Err(error: E)

  /** A number drawn by `Math.random()`. */
  predicate IsUnitDraw(r: real) {
    0.0 <= r < 1.0
  }

  predicate AllUnitDraws(rs: seq<real>) {
    forall k :: 0 <= k < |rs| ==> IsUnitDraw(rs[k])
  }

  function Min(a: real, b: real): real {
    if a <= b then a else b
  }

  function Max(a: real, b: real): real {
    if a <= b then b else a
  }

  lemma ProductNonNegative(a: real, b: real)
    requires 0.0 <= a && 0.0 <= b
    ensures 0.0 <= a * b
  {
  }

  /** The drawing surface: only its size is modelled. */
  class Canvas {
    var width: nat
    var height: nat

    constructor (width: nat, height: nat)
      ensures this.width == width && this.height == height
    {
      this.width := width;
      this.height := height;
    }
  }

  /** `TypedArray.prototype.fill(v)`: every element becomes `v`. */
  method Fill(a: array<Byte>, v: Byte)
    modifies a
    ensures forall k :: 0 <= k < a.Length ==> a[k] == v
  {
    forall k | 0 <= k < a.Length {
      a[k] := v;
    }
  }

  /** An analyser writing its bytes into a caller's buffer of the same length. */
  method CopyInto(a: array<Byte>, s: seq<Byte>)
    requires |s| == a.Length
    modifies a
    ensures a[..] == s
  {
    forall k | 0 <= k < a.Length {
      a[k] := s[k];
    }
  }
}
