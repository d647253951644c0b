/** Result types shared by the modules of this project. */
module Basics {

  datatype Option<+T> = None | Some(value: T)

  /** A Python call that either returns or raises. */
  datatype Result<+T, +E> = Ok(value: T) | Err(error: E)

  /** The lists given by `f` for the elements of `s`, one after the other. */
  ghost function FlatMap<A, B>(f: A -> seq<B>, s: seq<A>): seq<B> {
    if s == [] then [] else FlatMap(f, s[..|s| - 1]) + f(s[|s| - 1])
  }

  lemma {:induction false} FlatMapSnoc<A, B>(f: A -> seq<B>, s: seq<A>, x: A)
    ensures FlatMap(f, s + [x]) == FlatMap(f, s) + f(x)
  {
    assert (s + [x])[..|s|] == s;
  }

  lemma {:induction false} FlatMapTwo<A, B>(f: A -> seq<B>, x: A, y: A)
    ensures FlatMap(f, [x, y]) == f(x) + f(y)
  {
    assert [x, y][..1] == [x] && [x][..0] == [];
    assert FlatMap(f, [x]) == f(x);
  }

  lemma {:induction false} FlatMapAppend<A, B>(f: A -> seq<B>, a: seq<A>, b: seq<A>)
    ensures FlatMap(f, a + b) == FlatMap(f, a) + FlatMap(f, b)
    decreases |b|
  {
    if b == [] {
      assert a + b == a;
    } else {
      var n := |b| - 1;
      assert (a + b)[..|a| + n] == a + b[..n];
      FlatMapAppend(f, a, b[..n]);
    }
  }

  lemma {:induction false} InFlatMapIff<A, B>(f: A -> seq<B>, s: seq<A>, y: B)
    ensures y in FlatMap(f, s) <==> exists x :: x in s && y in f(x)
  {
    if s != [] {
      var n := |s| - 1;
      InFlatMapIff(f, s[..n], y);
      assert forall x :: x in s <==> x in s[..n] || x == s[n];
    }
  }

  lemma {:induction false} FlatMapNothing<A, B>(f: A -> seq<B>, s: seq<A>)
    requires forall k :: 0 <= k < |s| ==> f(s[k]) == []
    ensures FlatMap(f, s) == []
  {
    if s != [] {
      FlatMapNothing(f, s[..|s| - 1]);
    }
  }

  /** The last list that is not empty ends the whole. */
  lemma {:induction false} FlatMapLast<A, B>(f: A -> seq<B>, s: seq<A>, k: nat)
    requires k < |s| && f(s[k]) != [] && forall j :: k < j < |s| ==> f(s[j]) == []
    ensures var all := FlatMap(f, s); all != [] && all[|all| - 1] == f(s[k])[|f(s[k])| - 1]
    decreases |s|
  {
    if k < |s| - 1 {
      FlatMapLast(f, s[..|s| - 1], k);
    }
  }
}
