/** Option and Result, bytes, and the two list operations every layer uses. */
module Basics {
  datatype Option<+T> = None | Some(value: T)

  datatype Result<+T, +E> = Ok(value: T) | Err(error: E) {
    predicate IsFailure() { Err? }

    function PropagateFailure<U>(): Result<U, E>
      requires Err?
    {
      Err(error)
    }

    function Extract(): T
      requires Ok?
    {
      value
    }
  }

  type byte = b: int | 0 <= b < 256

  type Bytes = seq<byte>

  lemma Assoc<T>(a: seq<T>, b: seq<T>, c: seq<T>)
    ensures a + b + c == a + (b + c)
  {
  }

  /** Apply a fallible function to each element, stopping at the first failure. */
  function Traverse<T, U, E>(f: T -> Result<U, E>, xs: seq<T>): Result<seq<U>, E> {
    if xs == [] then Ok([])
    else
      var y :- f(xs[0]);
      var ys :- Traverse(f, xs[1..]);
      Ok([y] + ys)
  }

  lemma {:induction false} TraverseAgree<T, U, E>(f: T -> Result<U, E>, g: T -> Result<U, E>, xs: seq<T>)
    requires forall x :: x in xs ==> f(x) == g(x)
    ensures Traverse(f, xs) == Traverse(g, xs)
  {
    if xs != [] {
      assert xs[0] in xs;
      TraverseAgree(f, g, xs[1..]);
    }
  }

  lemma {:induction false} TraverseAppend<T, U, E>(f: T -> Result<U, E>, xs: seq<T>, ys: seq<T>)
    ensures Traverse(f, xs + ys) ==
      match Traverse(f, xs)
      case Err(e) => Err(e)
      case Ok(us) =>
        match Traverse(f, ys)
        case Err(e) => Err(e)
        case Ok(vs) => Ok(us + vs)
  {
    if xs == [] {
      assert xs + ys == ys;
      if Traverse(f, ys).Ok? { assert [] + Traverse(f, ys).value == Traverse(f, ys).value; }
    } else {
      TraverseAppend(f, xs[1..], ys);
      assert (xs + ys)[0] == xs[0] && (xs + ys)[1..] == xs[1..] + ys;
      if f(xs[0]).Ok? && Traverse(f, xs[1..]).Ok? && Traverse(f, ys).Ok? {
        Assoc([f(xs[0]).value], Traverse(f, xs[1..]).value, Traverse(f, ys).value);
      }
    }
  }

  lemma {:induction false} TraverseLength<T, U, E>(f: T -> Result<U, E>, xs: seq<T>)
    ensures Traverse(f, xs).Ok? <==> forall x :: x in xs ==> f(x).Ok?
    ensures Traverse(f, xs).Ok? ==>
      |Traverse(f, xs).value| == |xs| && forall i :: 0 <= i < |xs| ==> f(xs[i]) == Ok(Traverse(f, xs).value[i])
  {
    if xs != [] {
      TraverseLength(f, xs[1..]);
      assert forall x :: x in xs <==> x == xs[0] || x in xs[1..];
    }
  }

  /** The elements before the first that is not good. */
  function GoodPrefix<T>(good: T -> bool, xs: seq<T>): (r: seq<T>)
    ensures forall x :: x in r ==> good(x) && x in xs
    ensures |r| <= |xs|
    ensures |r| == |xs| <==> forall x :: x in xs ==> good(x)
    ensures |r| == |xs| ==> r == xs
  {
    if xs == [] || !good(xs[0]) then []
    else
      assert forall x :: x in xs ==> x == xs[0] || x in xs[1..];
      [xs[0]] + GoodPrefix(good, xs[1..])
  }

  function Flatten<T>(parts: seq<seq<T>>): seq<T> {
    if parts == [] then [] else parts[0] + Flatten(parts[1..])
  }

  lemma {:induction false} FlattenAppend<T>(a: seq<seq<T>>, b: seq<seq<T>>)
    ensures Flatten(a + b) == Flatten(a) + Flatten(b)
  {
    if a == [] {
      assert a + b == b;
    } else {
      FlattenAppend(a[1..], b);
      assert (a + b)[1..] == a[1..] + b && (a + b)[0] == a[0];
      Assoc(a[0], Flatten(a[1..]), Flatten(b));
    }
  }

  function FlatMap<T, U>(f: T -> seq<U>, xs: seq<T>): seq<U> {
    if xs == [] then [] else f(xs[0]) + FlatMap(f, xs[1..])
  }

  lemma {:induction false} FlatMapAppend<T, U>(f: T -> seq<U>, a: seq<T>, b: seq<T>)
    ensures FlatMap(f, a + b) == FlatMap(f, a) + FlatMap(f, b)
  {
    if a == [] {
      assert a + b == b;
    } else {
      FlatMapAppend(f, a[1..], b);
      assert (a + b)[1..] == a[1..] + b && (a + b)[0] == a[0];
      Assoc(f(a[0]), FlatMap(f, a[1..]), FlatMap(f, b));
    }
  }

  lemma FlatMapOne<T, U>(f: T -> seq<U>, x: T)
    ensures FlatMap(f, [x]) == f(x)
  {
    assert [x][1..] == [];
    assert FlatMap(f, [x]) == f(x) + FlatMap(f, [x][1..]);
    assert f(x) + [] == f(x);
  }

  lemma {:induction false} InFlatMap<T, U>(f: T -> seq<U>, xs: seq<T>, x: T, u: U)
    requires x in xs && u in f(x)
    ensures u in FlatMap(f, xs)
  {
    if xs[0] != x {
      InFlatMap(f, xs[1..], x, u);
    }
  }

  function Zeros(n: nat): (z: Bytes)
    ensures |z| == n && forall i :: 0 <= i < n ==> z[i] == 0
  {
    seq(n, i => 0)
  }

  /** `target` with `data` written at `offset`. */
  function Splice(target: Bytes, offset: nat, data: Bytes): (r: Bytes)
    requires offset + |data| <= |target|
    ensures |r| == |target|
    ensures forall i :: 0 <= i < |r| ==>
      r[i] == if offset <= i < offset + |data| then data[i - offset] else target[i]
  {
    target[..offset] + data + target[offset + |data|..]
  }

  function Min(a: nat, b: nat): nat { if a <= b then a else b }
}
