/** Sequence combinators standing for Rust's iterator and stream adaptors. */
module Sequences {

  function Min(a: int, b: int): int {
    if a <= b then a else b
  }

  /**
   * Element-wise image of a sequence, in order: `iter().map(f).collect()` on a
   * `Vec`, and `StreamExt::map` on a finite stream.
   */
  function Map<T, U>(s: seq<T>, f: T -> U): (r: seq<U>)
    ensures |r| == |s|
    ensures forall i :: 0 <= i < |s| ==> r[i] == f(s[i])
  {
    if s == [] then [] else [f(s[0])] + Map(s[1..], f)
  }

  /**
   * `StreamExt::flat_map` on a finite stream: the inner sequence produced for
   * each element, concatenated in the order of the elements.
   */
  function FlatMap<T, U>(s: seq<T>, f: T -> seq<U>): seq<U> {
    if s == [] then [] else f(s[0]) + FlatMap(s[1..], f)
  }

  /** Flattening distributes over concatenation: the output keeps input order. */
  lemma {:induction false} FlatMapAppend<T, U>(a: seq<T>, b: seq<T>, f: T -> seq<U>)
    ensures FlatMap(a + b, f) == FlatMap(a, f) + FlatMap(b, f)
  {
    if a == [] {
      assert a + b == b;
    } else {
      assert (a + b)[1..] == a[1..] + b;
      FlatMapAppend(a[1..], b, f);
    }
  }

  /** Concatenation regroups freely. */
  lemma AppendAssoc<T>(a: seq<T>, b: seq<T>, c: seq<T>)
    ensures a + (b + c) == (a + b) + c
  {
  }

  /** A single element contributes exactly its own inner sequence. */
  lemma FlatMapSingle<T, U>(x: T, f: T -> seq<U>)
    ensures FlatMap([x], f) == f(x)
  {
    assert [x][1..] == [];
  }
}
