/** Generic list comprehensions used throughout the model: `[x for x in s if p(x)]`
    and `[y for x in s if (y := f(x)) is not None]`. */
module Seqs {
  import opened Text

  /** `[x for x in s if p(x)]` */
  function Filter<T(!new)>(s: seq<T>, p: T -> bool): (r: seq<T>)
    ensures |r| <= |s|
    ensures forall x :: x in r <==> x in s && p(x)
    ensures forall i :: 0 <= i < |r| ==> p(r[i])
  {
    if s == [] then [] else (if p(s[0]) then [s[0]] else []) + Filter(s[1..], p)
  }

  /** Filtering distributes over concatenation, so it keeps the list order. */
  lemma {:induction false} FilterAppend<T(!new)>(a: seq<T>, b: seq<T>, p: T -> bool)
    ensures Filter(a + b, p) == Filter(a, p) + Filter(b, p)
  {
    if a == [] {
      assert a + b == b;
    } else {
      assert (a + b)[1..] == a[1..] + b;
      FilterAppend(a[1..], b, p);
    }
  }

  /** Filtering by two predicates that agree on every element gives the same list. */
  lemma {:induction false} FilterCongruent<T(!new)>(s: seq<T>, p: T -> bool, q: T -> bool)
    requires forall i :: 0 <= i < |s| ==> p(s[i]) == q(s[i])
    ensures Filter(s, p) == Filter(s, q)
  {
    if s != [] {
      assert forall i :: 0 <= i < |s[1..]| ==> s[1..][i] == s[i + 1];
      FilterCongruent(s[1..], p, q);
    }
  }

  /** Filtering a list in which nothing satisfies the predicate leaves nothing. */
  lemma {:induction false} FilterNone<T(!new)>(s: seq<T>, p: T -> bool)
    requires forall i :: 0 <= i < |s| ==> !p(s[i])
    ensures Filter(s, p) == []
  {
    if s != [] {
      assert forall i :: 0 <= i < |s[1..]| ==> s[1..][i] == s[i + 1];
      FilterNone(s[1..], p);
    }
  }

  lemma FilterOne<T(!new)>(x: T, p: T -> bool)
    ensures Filter([x], p) == if p(x) then [x] else []
  {
    assert [x][1..] == [];
  }

  /** Filtering keeps everything exactly when every element satisfies the predicate. */
  lemma {:induction false} FilterAll<T(!new)>(s: seq<T>, p: T -> bool)
    ensures (Filter(s, p) == s) <==> forall i :: 0 <= i < |s| ==> p(s[i])
  {
    if s != [] {
      FilterAll(s[1..], p);
      if !p(s[0]) {
        assert |Filter(s, p)| < |s|;
      } else {
        assert Filter(s, p) == [s[0]] + Filter(s[1..], p);
        if Filter(s, p) == s {
          assert Filter(s[1..], p) == s[1..];
        }
        if forall i :: 0 <= i < |s| ==> p(s[i]) {
          assert forall i :: 0 <= i < |s[1..]| ==> p(s[1..][i]) by {
            forall i | 0 <= i < |s[1..]| ensures p(s[1..][i]) { assert s[1..][i] == s[i + 1]; }
          }
          assert [s[0]] + s[1..] == s;
        }
      }
    }
  }

  /** `[y for x in s if (y := f(x)) is not None]` */
  function MapSome<A(!new), B(!new)>(s: seq<A>, f: A -> Option<B>): (r: seq<B>)
    ensures |r| <= |s|
    ensures |r| == |s| <==> forall i :: 0 <= i < |s| ==> f(s[i]).Some?
    ensures forall y :: y in r ==> exists x :: x in s && f(x) == Some(y)
  {
    if s == [] then []
    else
      var rest := MapSome(s[1..], f);
      assert forall y :: y in rest ==> exists x :: x in s && f(x) == Some(y) by {
        forall y | y in rest ensures exists x :: x in s && f(x) == Some(y) {
          var x :| x in s[1..] && f(x) == Some(y);
          assert x in s;
        }
      }
      assert (forall i :: 0 <= i < |s| ==> f(s[i]).Some?) <==>
             f(s[0]).Some? && forall i :: 0 <= i < |s[1..]| ==> f(s[1..][i]).Some? by {
        if f(s[0]).Some? && forall i :: 0 <= i < |s[1..]| ==> f(s[1..][i]).Some? {
          forall i | 0 <= i < |s| ensures f(s[i]).Some? {
            if i > 0 { assert s[i] == s[1..][i - 1]; }
          }
        }
      }
      (match f(s[0]) case Some(y) => [y] case None => []) + rest
  }

  /** The number of elements satisfying a predicate. */
  function Count<T>(s: seq<T>, p: T -> bool): (n: nat)
    ensures n <= |s|
    ensures n == 0 <==> forall i :: 0 <= i < |s| ==> !p(s[i])
  {
    if s == [] then 0
    else
      var rest := Count(s[1..], p);
      assert (forall i :: 0 <= i < |s| ==> !p(s[i])) <==>
             !p(s[0]) && forall i :: 0 <= i < |s[1..]| ==> !p(s[1..][i]) by {
        if !p(s[0]) && forall i :: 0 <= i < |s[1..]| ==> !p(s[1..][i]) {
          forall i | 0 <= i < |s| ensures !p(s[i]) {
            if i > 0 { assert s[i] == s[1..][i - 1]; }
          }
        }
      }
      (if p(s[0]) then 1 else 0) + rest
  }

  lemma {:induction false} CountAppend<T>(a: seq<T>, b: seq<T>, p: T -> bool)
    ensures Count(a + b, p) == Count(a, p) + Count(b, p)
  {
    if a == [] {
      assert a + b == b;
    } else {
      assert (a + b)[1..] == a[1..] + b;
      CountAppend(a[1..], b, p);
    }
  }

  /** Filtering keeps as many elements as satisfy the predicate. */
  lemma {:induction false} FilterLength<T(!new)>(s: seq<T>, p: T -> bool)
    ensures |Filter(s, p)| == Count(s, p)
  {
    if s != [] {
      FilterLength(s[1..], p);
    }
  }

  /** `max(s, default=d)` over integers. */
  function MaxOr(s: seq<int>, d: int): (m: int)
    ensures s == [] ==> m == d
    ensures s != [] ==> m in s
    ensures forall x :: x in s ==> x <= m
  {
    if s == [] then d
    else if |s| == 1 then s[0]
    else
      var rest := MaxOr(s[1..], d);
      assert forall x :: x in s ==> x == s[0] || x in s[1..] by {
        forall x | x in s ensures x == s[0] || x in s[1..] {
          var i :| 0 <= i < |s| && s[i] == x;
          if i > 0 { assert s[1..][i - 1] == x; }
        }
      }
      if s[0] >= rest then s[0] else rest
  }

  /** `[y for x in s for y in f(x)]` */
  function FlatMap<T, U>(s: seq<T>, f: T -> seq<U>): seq<U> {
    if s == [] then [] else f(s[0]) + FlatMap(s[1..], f)
  }

  lemma {:induction false} FlatMapAppend<T, U>(a: seq<T>, b: seq<T>, f: T -> seq<U>)
    ensures FlatMap(a + b, f) == FlatMap(a, f) + FlatMap(b, f)
  {
    if a == [] {
      assert a + b == b;
    } else {
      assert (a + b)[1..] == a[1..] + b;
      FlatMapAppend(a[1..], b, f);
    }
  }

  /** Everything produced comes from some element. */
  lemma {:induction false} FlatMapOrigin<T(!new), U(!new)>(s: seq<T>, f: T -> seq<U>)
    ensures forall y :: y in FlatMap(s, f) ==> exists x :: x in s && y in f(x)
  {
    if s != [] {
      FlatMapOrigin(s[1..], f);
      forall y | y in FlatMap(s, f) ensures exists x :: x in s && y in f(x) {
        if y !in f(s[0]) {
          assert y in FlatMap(s[1..], f);
          var x :| x in s[1..] && y in f(x);
          assert x in s;
        }
      }
    }
  }

  /** Everything an element produces is among the items produced. */
  lemma {:induction false} FlatMapCovers<T, U>(s: seq<T>, f: T -> seq<U>, x: T, y: U)
    requires x in s && y in f(x)
    ensures y in FlatMap(s, f)
  {
    if x != s[0] {
      assert x in s[1..];
      FlatMapCovers(s[1..], f, x, y);
    }
  }

  /** Producing at most one item per element: as many items as elements satisfying `p`. */
  lemma {:induction false} FlatMapOptionalCount<T, U>(s: seq<T>, f: T -> seq<U>, p: T -> bool)
    requires forall i :: 0 <= i < |s| ==> |f(s[i])| == if p(s[i]) then 1 else 0
    ensures |FlatMap(s, f)| == Count(s, p)
  {
    if s != [] {
      assert forall i :: 0 <= i < |s[1..]| ==> s[1..][i] == s[i + 1];
      FlatMapOptionalCount(s[1..], f, p);
    }
  }

  /** Every element producing nothing means nothing is produced. */
  lemma {:induction false} FlatMapEmpty<T, U>(s: seq<T>, f: T -> seq<U>)
    requires forall i :: 0 <= i < |s| ==> f(s[i]) == []
    ensures FlatMap(s, f) == []
  {
    if s != [] {
      assert forall i :: 0 <= i < |s[1..]| ==> s[1..][i] == s[i + 1];
      FlatMapEmpty(s[1..], f);
    }
  }

  /** Producing exactly one item per element: the i-th item comes from the i-th element. */
  lemma {:induction false} FlatMapSingletons<T, U>(s: seq<T>, f: T -> seq<U>)
    requires forall i :: 0 <= i < |s| ==> |f(s[i])| == 1
    ensures |FlatMap(s, f)| == |s|
    ensures forall i :: 0 <= i < |s| ==> FlatMap(s, f)[i] == f(s[i])[0]
  {
    if s != [] {
      assert forall i :: 0 <= i < |s[1..]| ==> s[1..][i] == s[i + 1];
      FlatMapSingletons(s[1..], f);
    }
  }
}
