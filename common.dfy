/** Small value types shared by every part of the model. */
module Common {

  /** A value that may be absent (JavaScript `null`/`undefined`, Python `None`). */
  datatype Option<+T> = None | Some(value: T)

  /** The outcome of an operation that can fail with an error value. */
  datatype Result<+T, +E> = Ok(value: T) | Err(error: E)

  /** One unsigned 8-bit value (a `Uint8Array` element or a `Buffer` byte). */
  type Byte = b: int | 0 <= b < 256

  function Min(a: int, b: int): (r: int)
    ensures r <= a && r <= b && (r == a || r == b)
  {
    if a <= b then a else b
  }

  function Max(a: int, b: int): (r: int)
    ensures r >= a && r >= b && (r == a || r == b)
  {
    if a >= b then a else b
  }

  function MinReal(a: real, b: real): (r: real)
    ensures r <= a && r <= b && (r == a || r == b)
  {
    if a <= b then a else b
  }

  function MaxReal(a: real, b: real): (r: real)
    ensures r >= a && r >= b && (r == a || r == b)
  {
    if a >= b then a else b
  }

  /** JavaScript `Math.round` on an exact real: round half up, `floor(x + 0.5)`. */
  function Round(x: real): (r: int)
    ensures x - 0.5 < r as real <= x + 0.5
  {
    (x + 0.5).Floor
  }

  lemma RoundMonotone(x: real, y: real)
    requires x <= y
    ensures Round(x) <= Round(y)
  {
  }

  /** `Math.floor(roll * n)` for a roll in [0, 1), the usual way to pick one of `n` items: an index below `n`. */
  function RandomIndex(roll: real, n: nat): (i: nat)
    requires 0.0 <= roll < 1.0 && n > 0
    ensures i < n
  {
    var x := roll * n as real;
    assert 0.0 <= x < n as real;
    x.Floor
  }

  /** A roll in [0, 1) scales a nonnegative width to a point of [0, width]. */
  lemma ScaleUnit(roll: real, width: real)
    requires 0.0 <= roll < 1.0 && width >= 0.0
    ensures 0.0 <= roll * width <= width
  {
    assert roll * width <= 1.0 * width;
  }

  /** Against a positive divisor, a quotient is at most a bound iff the dividend is at most the bound times the divisor. */
  lemma QuotientAtMost(a: real, m: real, c: real)
    requires m > 0.0
    ensures a / m <= c <==> a <= c * m
  {
    var q := a / m;
    assert q * m == a;
    if q <= c {
      assert q * m <= c * m;
    } else {
      assert q * m > c * m;
    }
  }

  /** The sum of a sequence, added up front to back as `reduce` or a `for` loop does. */
  function Sum(s: seq<int>): int
  {
    if s == [] then 0 else Sum(s[..|s| - 1]) + s[|s| - 1]
  }

  /** A sum of bytes lies between 0 and 255 per byte. */
  lemma {:induction false} SumOfBytes(s: seq<Byte>)
    ensures 0 <= Sum(s) <= 255 * |s|
  {
    if s != [] {
      SumOfBytes(s[..|s| - 1]);
    }
  }

  /**
   * The list a loop builds by appending what `g` yields for each element, in
   * order: a check's detail list, an emitter's lines.
   */
  function FlatMap<E, D>(s: seq<E>, g: E -> seq<D>): seq<D>
  {
    if s == [] then [] else FlatMap(s[..|s| - 1], g) + g(s[|s| - 1])
  }

  lemma AppendAssoc<T>(a: seq<T>, b: seq<T>, c: seq<T>)
    ensures (a + b) + c == a + (b + c)
  {
  }

  /** Extending the input by one element appends that element's output. */
  lemma FlatMapSnoc<E, D>(s: seq<E>, g: E -> seq<D>, i: nat)
    requires i < |s|
    ensures FlatMap(s[..i + 1], g) == FlatMap(s[..i], g) + g(s[i])
  {
    assert s[..i + 1][..i] == s[..i];
  }

  /** The output holds exactly what `g` yields for some element, and is empty iff `g` yields nothing for every one. */
  lemma {:induction false} FlatMapMembers<E, D(!new)>(s: seq<E>, g: E -> seq<D>)
    ensures forall d :: d in FlatMap(s, g) <==> exists i :: 0 <= i < |s| && d in g(s[i])
    ensures FlatMap(s, g) == [] <==> forall i :: 0 <= i < |s| ==> g(s[i]) == []
  {
    if s != [] {
      var n := |s| - 1;
      FlatMapMembers(s[..n], g);
      assert forall i :: 0 <= i < n ==> s[..n][i] == s[i];
    }
  }

  /** The elements of `s` not in `excluded`, in order: a set difference before sorting. */
  function Without<T(==, !new)>(s: seq<T>, excluded: seq<T>): (r: seq<T>)
    ensures forall x :: x in r <==> x in s && x !in excluded
    ensures r == [] <==> forall x :: x in s ==> x in excluded
  {
    var keep := (x: T) => if x in excluded then [] else [x];
    FlatMapMembers(s, keep);
    FlatMap(s, keep)
  }

  /** A JSON object or Python dict: its entries in insertion order. */
  type Obj<V> = seq<(string, V)>

  /** The keys of an object, in order. */
  function Keys<V>(o: Obj<V>): (ks: seq<string>)
    ensures |ks| == |o|
    ensures forall i :: 0 <= i < |o| ==> ks[i] == o[i].0
  {
    if o == [] then [] else Keys(o[..|o| - 1]) + [o[|o| - 1].0]
  }

  /** The keys of an object, as a set. */
  function KeySet<V>(o: Obj<V>): (ks: set<string>)
    ensures forall k :: k in ks <==> exists i :: 0 <= i < |o| && o[i].0 == k
  {
    if o == [] then {} else KeySet(o[..|o| - 1]) + {o[|o| - 1].0}
  }
}
