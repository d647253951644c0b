/** Which elements of a list are visited when every element is linked to the
    successor of its last occurrence.

    Chaining a list of guards writes one link per step into the guard objects
    themselves, so an object that occurs twice keeps only the link written last
    (anywise/anywise.py:103-110). */
module Walks {
  import opened Basics

  ghost predicate Distinct<T>(s: seq<T>) {
    forall i, j :: 0 <= i < j < |s| ==> s[i] != s[j]
  }

  function LastIndex<T(==)>(s: seq<T>, x: T): (i: nat)
    requires x in s
    ensures i < |s| && s[i] == x && forall j :: i < j < |s| ==> s[j] != x
  {
    if s[|s| - 1] == x then |s| - 1 else LastIndex(s[..|s| - 1], x)
  }

  /** What follows the last occurrence of `x`. */
  function After<T(==)>(s: seq<T>, x: T): (rest: seq<T>)
    requires x in s
    ensures |rest| < |s| && x !in rest
  {
    s[LastIndex(s, x) + 1..]
  }

  /** What `x` is linked to once the whole list is chained; `None` stands for the handler. */
  function Successor<T(==)>(s: seq<T>, x: T): Option<T>
    requires x in s
  {
    var rest := After(s, x);
    if rest == [] then None else Some(rest[0])
  }

  lemma {:induction false} SuccessorIs<T>(s: seq<T>, x: T)
    requires x in s
    ensures var k := LastIndex(s, x) + 1; Successor(s, x) == if k < |s| then Some(s[k]) else None
  {
  }

  /** Visit an element, jump behind its last occurrence, repeat. */
  function Walk<T(==)>(s: seq<T>): seq<T>
    decreases |s|
  {
    if s == [] then [] else [s[0]] + Walk(After(s, s[0]))
  }

  lemma {:induction false} LastIndexUnique<T>(s: seq<T>, x: T, i: nat)
    requires i < |s| && s[i] == x && forall j :: i < j < |s| ==> s[j] != x
    ensures x in s && LastIndex(s, x) == i
  {
    var k := LastIndex(s, x);
    assert s[k] == x;
    assert !(i < k) && !(k < i);
  }

  /** Only the later part of a list decides what follows an element of that part. */
  lemma {:induction false} AfterAppend<T>(a: seq<T>, s: seq<T>, x: T)
    requires x in a + s
    ensures x in s ==> After(a + s, x) == After(s, x)
    ensures x !in s ==> x in a && After(a + s, x) == After(a, x) + s
  {
    if x in s {
      LastIndexUnique(a + s, x, |a| + LastIndex(s, x));
    } else {
      LastIndexUnique(a + s, x, LastIndex(a, x));
    }
  }

  lemma {:induction false} WalkStaysInside<T>(s: seq<T>)
    ensures forall x :: x in Walk(s) ==> x in s
    decreases |s|
  {
    if s != [] {
      WalkStaysInside(After(s, s[0]));
    }
  }

  /** No element is visited twice: following the links cannot loop. */
  lemma {:induction false} WalkNeverRevisits<T>(s: seq<T>)
    ensures Distinct(Walk(s))
    decreases |s|
  {
    if s != [] {
      WalkNeverRevisits(After(s, s[0]));
      WalkStaysInside(After(s, s[0]));
    }
  }

  lemma {:induction false} WalkStep<T>(s: seq<T>, x: T, rest: seq<T>)
    requires s != [] && s[0] == x && After(s, x) == rest
    ensures Walk(s) == [x] + Walk(rest)
  {
  }

  lemma {:induction false} DistinctIsWalkedWhole<T>(s: seq<T>)
    requires Distinct(s)
    ensures Walk(s) == s
    decreases |s|
  {
    if s != [] {
      LastIndexUnique(s, s[0], 0);
      DistinctIsWalkedWhole(s[1..]);
      WalkStep(s, s[0], s[1..]);
    }
  }

  /** The walk is the whole list exactly when nothing in it is repeated. */
  lemma {:induction false} WalkIsWholeIffDistinct<T>(s: seq<T>)
    ensures Walk(s) == s <==> Distinct(s)
  {
    if Walk(s) == s {
      WalkNeverRevisits(s);
    }
    if Distinct(s) {
      DistinctIsWalkedWhole(s);
    }
  }

  /** The first and the last element of the list are always visited, in those places. */
  lemma {:induction false} WalkKeepsEnds<T>(s: seq<T>)
    requires s != []
    ensures Walk(s) != [] && Walk(s)[0] == s[0] && Walk(s)[|Walk(s)| - 1] == s[|s| - 1]
    decreases |s|
  {
    var rest := After(s, s[0]);
    if rest != [] {
      WalkKeepsEnds(rest);
    }
  }

  /** What a visited element is linked to is the element visited next. */
  lemma {:induction false} VisitedNext<T>(s: seq<T>, k: nat)
    requires k < |Walk(s)|
    ensures Walk(s)[k] in s
    ensures Successor(s, Walk(s)[k]) == if k + 1 < |Walk(s)| then Some(Walk(s)[k + 1]) else None
    decreases |s|
  {
    var rest := After(s, s[0]);
    if k > 0 {
      VisitedNext(rest, k - 1);
      assert s == s[..|s| - |rest|] + rest;
      AfterAppend(s[..|s| - |rest|], rest, Walk(s)[k]);
    }
  }

  /** A block that comes again after others, with its first element jumping over them. */
  lemma {:induction false} WalkSkipsBetween<T>(s: seq<T>, mid: seq<T>, y: seq<T>)
    requires s != []
    ensures Walk(s + (mid + (s + y))) == Walk(s + y)
  {
    AfterAppend(s, mid + (s + y), s[0]);
    AfterAppend(mid, s + y, s[0]);
  }

  /** Repeating a block at once changes nothing, wherever it stands. */
  lemma {:induction false} WalkRepeatedBlock<T>(x: seq<T>, s: seq<T>, y: seq<T>)
    ensures Walk(x + (s + (s + y))) == Walk(x + (s + y))
    decreases |x|
  {
    if s == [] {
      assert s + (s + y) == s + y;
    } else if x == [] {
      WalkSkipsBetween(s, [], y);
      assert [] + (s + y) == s + y && x + (s + (s + y)) == s + (s + y) && x + (s + y) == s + y;
    } else {
      AfterAppend(x, s + (s + y), x[0]);
      AfterAppend(x, s + y, x[0]);
      if x[0] in s + y {
        AfterAppend(s, s + y, x[0]);
      } else {
        WalkRepeatedBlock(After(x, x[0]), s, y);
      }
    }
  }

  /** A block between two copies of a non-empty one is left out of the walk. */
  lemma {:induction false} WalkReincluded<T>(x: seq<T>, s: seq<T>, mid: seq<T>, y: seq<T>)
    requires Distinct(x + (s + (mid + y)))
    ensures Walk(x + (s + (mid + (s + y)))) == x + ((if s == [] then mid else s) + y)
  {
    var rest := s + (mid + (s + y));
    DistinctParts(x, s + (mid + y));
    DistinctParts(s, mid + y);
    DistinctParts(mid, y);
    WalkDisjointBlocks(x, rest);
    WalkIsWholeIffDistinct(x);
    if s == [] {
      assert rest == mid + y;
      WalkIsWholeIffDistinct(mid + y);
    } else {
      WalkSkipsBetween(s, mid, y);
      WalkDisjointBlocks(s, y);
      WalkIsWholeIffDistinct(s);
      WalkIsWholeIffDistinct(y);
    }
  }

  lemma {:induction false} DistinctParts<T>(a: seq<T>, b: seq<T>)
    ensures Distinct(a + b) <==> Distinct(a) && Distinct(b) && forall x :: x in a ==> x !in b
  {
    var s := a + b;
    if Distinct(s) {
      forall i, j | 0 <= i < j < |a| ensures a[i] != a[j] {
        assert s[i] == a[i] && s[j] == a[j];
      }
      forall i, j | 0 <= i < j < |b| ensures b[i] != b[j] {
        assert s[|a| + i] == b[i] && s[|a| + j] == b[j];
      }
      forall x | x in a ensures x !in b {
        var i :| 0 <= i < |a| && a[i] == x;
        assert s[i] == x;
        forall j | 0 <= j < |b| ensures b[j] != x {
          assert s[|a| + j] == b[j];
        }
      }
    }
    if Distinct(a) && Distinct(b) && (forall x :: x in a ==> x !in b) {
      forall i, j | 0 <= i < j < |s| ensures s[i] != s[j] {
        if i < |a| <= j {
          assert s[i] in a && s[j] in b;
        }
      }
    }
  }

  ghost predicate NoneShared<T>(a: seq<T>, s: seq<T>) {
    forall x :: x in a ==> x !in s
  }

  lemma {:induction false} RestIsApart<T>(a: seq<T>, s: seq<T>, x: T)
    requires NoneShared(a, s) && x in a
    ensures x !in s && NoneShared(After(a, x), s)
    ensures After(a + s, x) == After(a, x) + s
  {
    AfterAppend(a, s, x);
    forall y | y in After(a, x) ensures y in a {
      var k :| 0 <= k < |After(a, x)| && After(a, x)[k] == y;
      assert a[LastIndex(a, x) + 1 + k] == y;
    }
  }

  lemma {:induction false} ConsAppend<T>(x: T, a: seq<T>, b: seq<T>)
    ensures [x] + (a + b) == ([x] + a) + b
  {
  }

  /** Blocks without a common element are walked one after the other. */
  lemma {:induction false} WalkDisjointBlocks<T>(a: seq<T>, s: seq<T>)
    requires NoneShared(a, s)
    ensures Walk(a + s) == Walk(a) + Walk(s)
    decreases |a|
  {
    if a == [] {
      assert a + s == s;
    } else {
      var x, rest := a[0], After(a, a[0]);
      RestIsApart(a, s, x);
      WalkStep(a + s, x, rest + s);
      WalkDisjointBlocks(rest, s);
      ConsAppend(x, Walk(rest), Walk(s));
    }
  }

  lemma {:induction false} Regroup<T>(x: seq<T>, s: seq<T>, y: seq<T>, z: seq<T>)
    ensures (x + (s + y)) + z == x + (s + (y + z))
  {
  }

  /** A list in two parts, each with a block that comes twice in a row. */
  lemma {:induction false} WalkRepeatedBlocks<T>(x: seq<T>, s: seq<T>, y: seq<T>, x': seq<T>, s': seq<T>, y': seq<T>)
    ensures Walk((x + (s + (s + y))) + (x' + (s' + (s' + y')))) == Walk((x + (s + y)) + (x' + (s' + y')))
  {
    var twice, once := x' + (s' + (s' + y')), x' + (s' + y');
    assert Walk((x + (s + (s + y))) + twice) == Walk((x + (s + y)) + twice) by {
      Regroup(x, s, s + y, twice);
      assert (s + y) + twice == s + (y + twice);
      Regroup(x, s, y, twice);
      WalkRepeatedBlock(x, s, y + twice);
    }
    var front := x + (s + y);
    assert front + twice == (front + x') + (s' + (s' + y')) && front + once == (front + x') + (s' + y');
    WalkRepeatedBlock(front + x', s', y');
  }

  /** A list in two parts, each with a block that comes again behind another one. */
  lemma {:induction false} WalkReincludedBlocks<T>(x: seq<T>, s: seq<T>, mid: seq<T>, y: seq<T>,
                                                   x': seq<T>, s': seq<T>, mid': seq<T>, y': seq<T>)
    requires Distinct((x + (s + (mid + y))) + (x' + (s' + (mid' + y'))))
    ensures Walk((x + (s + (mid + (s + y)))) + (x' + (s' + (mid' + (s' + y')))))
         == (x + ((if s == [] then mid else s) + y)) + (x' + ((if s' == [] then mid' else s') + y'))
  {
    var a, b := x + (s + (mid + (s + y))), x' + (s' + (mid' + (s' + y')));
    DistinctParts(x + (s + (mid + y)), x' + (s' + (mid' + y')));
    forall e | e in a ensures e !in b {
      assert e in x + (s + (mid + y));
    }
    WalkDisjointBlocks(a, b);
    WalkReincluded(x, s, mid, y);
    WalkReincluded(x', s', mid', y');
  }

  lemma {:induction false} WalkRepeatedAtOnce<T>(x: seq<T>, s: seq<T>, mid: seq<T>, y: seq<T>,
                                                 x': seq<T>, s': seq<T>, mid': seq<T>, y': seq<T>)
    requires mid == mid' == []
    ensures Walk((x + (s + (mid + (s + y)))) + (x' + (s' + (mid' + (s' + y')))))
         == Walk((x + (s + (mid + y))) + (x' + (s' + (mid' + y'))))
  {
    assert mid + (s + y) == s + y && mid' + (s' + y') == s' + y' && mid + y == y && mid' + y' == y';
    WalkRepeatedBlocks(x, s, y, x', s', y');
  }

  lemma {:induction false} KeptIff<T>(x: seq<T>, s: seq<T>, mid: seq<T>, y: seq<T>)
    ensures var kept, all := x + ((if s == [] then mid else s) + y), x + (s + (mid + y));
            |kept| <= |all| && (|kept| == |all| <==> s == [] || mid == []) && (kept == all <==> s == [] || mid == [])
  {
    if s == [] {
      assert s + (mid + y) == mid + y;
    } else if mid == [] {
      assert mid + y == y;
    }
  }

  /** With nothing else repeated, the walk passes what it passed before exactly
      when, in either part, the block or what stands between its copies is empty. */
  lemma {:induction false} WalkUnchangedIff<T>(x: seq<T>, s: seq<T>, mid: seq<T>, y: seq<T>,
                                               x': seq<T>, s': seq<T>, mid': seq<T>, y': seq<T>)
    requires Distinct((x + (s + (mid + y))) + (x' + (s' + (mid' + y'))))
    ensures var again, once := (x + (s + (mid + (s + y)))) + (x' + (s' + (mid' + (s' + y')))),
      (x + (s + (mid + y))) + (x' + (s' + (mid' + y')));
            Walk(again) == Walk(once) <==> (s == [] || mid == []) && (s' == [] || mid' == [])
  {
    WalkReincludedBlocks(x, s, mid, y, x', s', mid', y');
    WalkIsWholeIffDistinct((x + (s + (mid + y))) + (x' + (s' + (mid' + y'))));
    KeptIff(x, s, mid, y);
    KeptIff(x', s', mid', y');
  }

  /** Equal elements in the same places. */
  ghost predicate SamePattern<A, B>(s: seq<A>, u: seq<B>) {
    |s| == |u| && forall i, j :: 0 <= i < |s| && 0 <= j < |s| ==> (s[i] == s[j] <==> u[i] == u[j])
  }

  ghost predicate Matched<A, B>(s: seq<A>, u: seq<B>, x: A, y: B) {
    exists m :: 0 <= m < |s| && m < |u| && s[m] == x && u[m] == y
  }

  lemma {:induction false} SamePatternLater<A, B>(s: seq<A>, u: seq<B>, n: nat)
    requires SamePattern(s, u) && n <= |s|
    ensures SamePattern(s[n..], u[n..])
  {
    forall i, j | 0 <= i < |s| - n && 0 <= j < |s| - n ensures s[n..][i] == s[n..][j] <==> u[n..][i] == u[n..][j] {
      assert s[n + i] == s[n + j] <==> u[n + i] == u[n + j];
    }
  }

  lemma {:induction false} MatchedLater<A, B>(s: seq<A>, u: seq<B>, n: nat, x: A, y: B)
    requires |s| == |u| && n <= |s| && Matched(s[n..], u[n..], x, y)
    ensures Matched(s, u, x, y)
  {
    var m :| 0 <= m < |s| - n && s[n..][m] == x && u[n..][m] == y;
    assert s[n + m] == x && u[n + m] == y;
  }

  lemma {:induction false} SameFirstStep<A, B>(s: seq<A>, u: seq<B>) returns (n: nat)
    requires SamePattern(s, u) && s != []
    ensures 0 < n <= |s| && After(s, s[0]) == s[n..] && After(u, u[0]) == u[n..] && SamePattern(s[n..], u[n..])
  {
    n := LastIndex(s, s[0]);
    assert u[n] == u[0];
    forall j | n < j < |u| ensures u[j] != u[0] {
      assert s[j] != s[0];
    }
    LastIndexUnique(u, u[0], n);
    n := n + 1;
    SamePatternLater(s, u, n);
  }

  lemma {:induction false} WalksAsLong<A, B>(s: seq<A>, u: seq<B>)
    requires SamePattern(s, u)
    ensures |Walk(s)| == |Walk(u)|
    decreases |s|
  {
    if s != [] {
      var n := SameFirstStep(s, u);
      WalksAsLong(s[n..], u[n..]);
    }
  }

  lemma {:induction false} MatchedCons<A, B>(s: seq<A>, u: seq<B>, n: nat, v: seq<A>, w: seq<B>, k: nat)
    requires |s| == |u| && 0 < n <= |s| && |v| == |w| && k <= |v|
    requires k > 0 ==> Matched(s[n..], u[n..], v[k - 1], w[k - 1])
    ensures Matched(s, u, ([s[0]] + v)[k], ([u[0]] + w)[k])
  {
    if k == 0 {
      assert s[0] == ([s[0]] + v)[0] && u[0] == ([u[0]] + w)[0];
    } else {
      MatchedLater(s, u, n, v[k - 1], w[k - 1]);
    }
  }

  /** The walk depends on the pattern of repetitions only. */
  lemma {:induction false} WalksMatch<A, B>(s: seq<A>, u: seq<B>, k: nat)
    requires SamePattern(s, u) && k < |Walk(s)|
    ensures k < |Walk(u)| && Matched(s, u, Walk(s)[k], Walk(u)[k])
    decreases |s|
  {
    var n := SameFirstStep(s, u);
    var v, w := Walk(s[n..]), Walk(u[n..]);
    WalkStep(s, s[0], s[n..]);
    WalkStep(u, u[0], u[n..]);
    WalksAsLong(s[n..], u[n..]);
    if k > 0 {
      WalksMatch(s[n..], u[n..], k - 1);
    }
    MatchedCons(s, u, n, v, w, k);
  }
}
