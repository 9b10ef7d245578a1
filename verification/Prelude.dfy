/** Vocabulary shared by every model: optional values, results, and the sequence
    facts behind the "same set, same length, no repeats" checks of the ledgers. */
module Prelude {

  datatype Option<+T> = None | Some(value: T)

  datatype Result<+T, +E> = Ok(value: T) | Err(error: E)

  type Bytes = seq<bv8>

  /** No value occurs at two positions. */
  ghost predicate Distinct<T>(xs: seq<T>) {
    forall i, j :: 0 <= i < j < |xs| ==> xs[i] != xs[j]
  }

  /** Python's `set(xs)`. */
  function ToSet<T(==)>(xs: seq<T>): set<T> {
    set x | x in xs
  }

  function Flatten<T>(xss: seq<seq<T>>): seq<T> {
    if xss == [] then [] else xss[0] + Flatten(xss[1..])
  }

  /** A digest function does not confuse two members of `inputs`. */
  ghost predicate CollisionFreeOn<A, B(!new)>(digest: A -> B, inputs: set<A>) {
    forall x, y :: x in inputs && y in inputs && digest(x) == digest(y) ==> x == y
  }

  lemma {:induction false} ToSetSize<T>(xs: seq<T>)
    ensures |ToSet(xs)| <= |xs|
    ensures |ToSet(xs)| == |xs| <==> Distinct(xs)
  {
    if xs == [] {
      assert ToSet(xs) == {};
    } else {
      var rest := xs[1..];
      ToSetSize(rest);
      assert ToSet(xs) == {xs[0]} + ToSet(rest);
      if Distinct(xs) {
        assert Distinct(rest) by {
          forall i, j | 0 <= i < j < |rest| ensures rest[i] != rest[j] {
            assert xs[i + 1] != xs[j + 1];
          }
        }
        assert xs[0] !in ToSet(rest);
      }
      if xs[0] !in ToSet(rest) && Distinct(rest) {
        forall i, j | 0 <= i < j < |xs| ensures xs[i] != xs[j] {
          assert xs[j] == rest[j - 1];
          if i > 0 { assert xs[i] == rest[i - 1]; }
        }
      }
    }
  }

  lemma {:induction false} DistinctMultiset<T>(xs: seq<T>)
    requires Distinct(xs)
    ensures multiset(xs) == multiset(ToSet(xs))
  {
    if xs == [] {
      assert ToSet(xs) == {};
    } else {
      var rest := xs[1..];
      assert Distinct(rest) by {
        forall i, j | 0 <= i < j < |rest| ensures rest[i] != rest[j] {
          assert xs[i + 1] != xs[j + 1];
        }
      }
      DistinctMultiset(rest);
      assert xs == [xs[0]] + rest;
      assert ToSet(xs) == {xs[0]} + ToSet(rest);
      assert xs[0] !in rest;
    }
  }

  /** The check every ledger and validator makes: equal sets and equal lengths,
      against a list without repeats, is already "a permutation of". */
  lemma SameSetAndLengthPermutes<T>(xs: seq<T>, ys: seq<T>)
    requires ToSet(xs) == ToSet(ys) && |xs| == |ys| && Distinct(ys)
    ensures multiset(xs) == multiset(ys) && Distinct(xs)
  {
    ToSetSize(ys);
    ToSetSize(xs);
    DistinctMultiset(xs);
    DistinctMultiset(ys);
  }

  /** Membership, length and distinctness only depend on the multiset. */
  lemma PermutationFacts<T>(xs: seq<T>, ys: seq<T>)
    requires multiset(xs) == multiset(ys)
    ensures |xs| == |ys| && ToSet(xs) == ToSet(ys)
    ensures Distinct(xs) <==> Distinct(ys)
  {
    assert |xs| == |multiset(xs)| == |multiset(ys)| == |ys|;
    forall x ensures x in xs <==> x in ys {
      assert x in multiset(xs) <==> x in multiset(ys);
    }
    ToSetSize(xs);
    ToSetSize(ys);
  }

  lemma FlattenHead<T>(xs: seq<T>, rest: seq<seq<T>>)
    ensures Flatten([xs] + rest) == xs + Flatten(rest)
  {
    assert ([xs] + rest)[1..] == rest;
  }

  lemma ConcatIsAssociative<T>(a: seq<T>, b: seq<T>, c: seq<T>)
    ensures (a + b) + c == a + (b + c)
  {
  }

  lemma {:induction false} FlattenAppend<T>(xss: seq<seq<T>>, yss: seq<seq<T>>)
    ensures Flatten(xss + yss) == Flatten(xss) + Flatten(yss)
  {
    if xss == [] {
      assert xss + yss == yss && Flatten(xss) == [];
    } else {
      hide Flatten;
      var xs, rest := xss[0], xss[1..];
      FlattenAppend(rest, yss);
      FlattenHead(xs, rest);
      FlattenHead(xs, rest + yss);
      assert xss == [xs] + rest;
      ConcatIsAssociative([xs], rest, yss);
      ConcatIsAssociative(xs, Flatten(rest), Flatten(yss));
    }
  }

  lemma FlattenSnoc<T>(xss: seq<seq<T>>, ys: seq<T>)
    ensures Flatten(xss + [ys]) == Flatten(xss) + ys
  {
    FlattenAppend(xss, [ys]);
    assert Flatten([ys]) == ys + Flatten<T>([]);
  }

  function MapSeq<A, B>(f: A -> B, xs: seq<A>): (r: seq<B>)
    ensures |r| == |xs|
    ensures forall i :: 0 <= i < |xs| ==> r[i] == f(xs[i])
  {
    seq(|xs|, i requires 0 <= i < |xs| => f(xs[i]))
  }

  lemma AddImage<A, B>(f: A -> B, xs: seq<A>, i: nat)
    requires i < |xs|
    ensures multiset(MapSeq(f, xs)) == multiset(MapSeq(f, xs[..i] + xs[i + 1..])) + multiset{f(xs[i])}
  {
    var rest := xs[..i] + xs[i + 1..];
    assert MapSeq(f, rest) == MapSeq(f, xs)[..i] + MapSeq(f, xs)[i + 1..];
    assert MapSeq(f, xs) == MapSeq(f, xs)[..i] + [f(xs[i])] + MapSeq(f, xs)[i + 1..];
  }

  lemma CancelOne<A>(a: multiset<A>, b: multiset<A>, x: A)
    requires a + multiset{x} == b + multiset{x}
    ensures a == b
  {
    assert a == (a + multiset{x}) - multiset{x} && b == (b + multiset{x}) - multiset{x};
  }

  lemma TakeOut<A>(xs: seq<A>, i: nat)
    requires i < |xs|
    ensures multiset(xs[..i] + xs[i + 1..]) + multiset{xs[i]} == multiset(xs)
  {
    assert xs == xs[..i] + [xs[i]] + xs[i + 1..];
  }

  lemma {:induction false} MapPermutes<A, B>(f: A -> B, xs: seq<A>, ys: seq<A>)
    requires multiset(xs) == multiset(ys)
    ensures multiset(MapSeq(f, xs)) == multiset(MapSeq(f, ys))
  {
    if xs == [] {
      assert |ys| == |multiset(ys)| == 0;
    } else {
      assert xs[0] in multiset(ys);
      var i :| 0 <= i < |ys| && ys[i] == xs[0];
      var restX, restY := xs[..0] + xs[1..], ys[..i] + ys[i + 1..];
      TakeOut(xs, 0);
      TakeOut(ys, i);
      CancelOne(multiset(restX), multiset(restY), xs[0]);
      MapPermutes(f, restX, restY);
      AddImage(f, xs, 0);
      AddImage(f, ys, i);
    }
  }
}
