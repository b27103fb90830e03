/** The array combinators the source relies on (`filter`, `map` with a
    conditional replacement, `find`), written once as recursive functions
    with the properties the rest of the model uses. */
module Seqs {
  import opened Wrappers

  /** `s.filter(keep)` */
  function Filter<T>(s: seq<T>, keep: T -> bool): (r: seq<T>)
    ensures |r| <= |s|
    ensures forall i :: 0 <= i < |r| ==> r[i] in s && keep(r[i])
    ensures forall i :: 0 <= i < |s| && keep(s[i]) ==> s[i] in r
  {
    if s == [] then []
    else (if keep(s[0]) then [s[0]] else []) + Filter(s[1..], keep)
  }

  /** Filtering distributes over concatenation, so the kept elements keep
      their relative order. */
  lemma {:induction false} FilterConcat<T>(a: seq<T>, b: seq<T>, keep: T -> bool)
    ensures Filter(a + b, keep) == Filter(a, keep) + Filter(b, keep)
  {
    if a == [] {
      assert a + b == b;
    } else {
      assert (a + b)[0] == a[0];
      assert (a + b)[1..] == a[1..] + b;
      FilterConcat(a[1..], b, keep);
    }
  }

  /** When every element is kept, filtering is the identity. */
  lemma {:induction false} FilterKeepsAll<T>(s: seq<T>, keep: T -> bool)
    requires forall i :: 0 <= i < |s| ==> keep(s[i])
    ensures Filter(s, keep) == s
  {
    if s != [] {
      FilterKeepsAll(s[1..], keep);
    }
  }

  /** `s.map(f)`: one image per element, in order. */
  function Map<T, U>(s: seq<T>, f: T -> U): (r: seq<U>)
    ensures |r| == |s|
    ensures forall i :: 0 <= i < |s| ==> r[i] == f(s[i])
  {
    if s == [] then [] else [f(s[0])] + Map(s[1..], f)
  }

  /** `s.map(x => sel(x) ? f(x) : x)` */
  function MapWhere<T>(s: seq<T>, sel: T -> bool, f: T -> T): (r: seq<T>)
    ensures |r| == |s|
  {
    if s == [] then []
    else [if sel(s[0]) then f(s[0]) else s[0]] + MapWhere(s[1..], sel, f)
  }

  /** Element by element: selected elements are replaced by `f` of
      themselves, the others are left as they were, in place. */
  lemma {:induction false} MapWhereAt<T>(s: seq<T>, sel: T -> bool, f: T -> T, i: int)
    requires 0 <= i < |s|
    ensures MapWhere(s, sel, f)[i] == if sel(s[i]) then f(s[i]) else s[i]
  {
    if i > 0 {
      MapWhereAt(s[1..], sel, f, i - 1);
    }
  }

  lemma MapWhereAll<T>(s: seq<T>, sel: T -> bool, f: T -> T)
    ensures forall i :: 0 <= i < |s| ==>
      MapWhere(s, sel, f)[i] == if sel(s[i]) then f(s[i]) else s[i]
  {
    forall i | 0 <= i < |s|
      ensures MapWhere(s, sel, f)[i] == if sel(s[i]) then f(s[i]) else s[i]
    {
      MapWhereAt(s, sel, f, i);
    }
  }

  /** When nothing is selected, the map is the identity. */
  lemma MapWhereNoneSelected<T>(s: seq<T>, sel: T -> bool, f: T -> T)
    requires forall i :: 0 <= i < |s| ==> !sel(s[i])
    ensures MapWhere(s, sel, f) == s
  {
    MapWhereAll(s, sel, f);
  }

  lemma {:induction false} MapWhereConcat<T>(a: seq<T>, b: seq<T>, sel: T -> bool, f: T -> T)
    ensures MapWhere(a + b, sel, f) == MapWhere(a, sel, f) + MapWhere(b, sel, f)
  {
    if a == [] {
      assert a + b == b;
    } else {
      assert (a + b)[0] == a[0];
      assert (a + b)[1..] == a[1..] + b;
      MapWhereConcat(a[1..], b, sel, f);
    }
  }

  /** `s.findIndex(p)`, with `None` for JavaScript's -1. */
  function FindIndex<T>(s: seq<T>, p: T -> bool): (r: Option<nat>)
    ensures r.Some? ==> r.value < |s| && p(s[r.value])
    ensures r.Some? ==> forall j :: 0 <= j < r.value ==> !p(s[j])
    ensures r.None? ==> forall j :: 0 <= j < |s| ==> !p(s[j])
  {
    if s == [] then None
    else if p(s[0]) then Some(0)
    else match FindIndex(s[1..], p)
      case None => None
      case Some(k) => Some(k + 1)
  }

  /** `s.find(p)`: the first element satisfying `p`, or `undefined`. */
  function Find<T>(s: seq<T>, p: T -> bool): Option<T>
  {
    match FindIndex(s, p)
    case None => None
    case Some(k) => Some(s[k])
  }

  /** Two predicates that agree on every element find the same index. */
  lemma {:induction false} FindIndexAgree<T, U>(s: seq<T>, p: T -> bool, t: seq<U>, q: U -> bool)
    requires |s| == |t|
    requires forall i :: 0 <= i < |s| ==> p(s[i]) == q(t[i])
    ensures FindIndex(s, p) == FindIndex(t, q)
  {
    if s != [] {
      assert p(s[0]) == q(t[0]);
      FindIndexAgree(s[1..], p, t[1..], q);
    }
  }

  /** Elements after the first match do not influence `find`. */
  lemma {:induction false} FindIndexPrefix<T>(pre: seq<T>, x: T, post: seq<T>, p: T -> bool)
    requires forall i :: 0 <= i < |pre| ==> !p(pre[i])
    requires p(x)
    ensures FindIndex(pre + [x] + post, p) == Some(|pre|)
  {
    if pre == [] {
      assert (pre + [x] + post)[0] == x;
    } else {
      assert (pre + [x] + post)[0] == pre[0];
      assert (pre + [x] + post)[1..] == pre[1..] + [x] + post;
      FindIndexPrefix(pre[1..], x, post, p);
    }
  }

  /** No two elements share a key (ids unique). */
  ghost predicate UniqueBy<T>(s: seq<T>, key: T -> int)
  {
    forall i, j :: 0 <= i < j < |s| ==> key(s[i]) != key(s[j])
  }

  lemma {:induction false} FilterUnique<T>(s: seq<T>, keep: T -> bool, key: T -> int)
    requires UniqueBy(s, key)
    ensures UniqueBy(Filter(s, keep), key)
  {
    if s != [] {
      var rest := Filter(s[1..], keep);
      FilterUnique(s[1..], keep, key);
      if keep(s[0]) {
        forall j | 0 <= j < |rest| ensures key(rest[j]) != key(s[0]) {
          assert rest[j] in s[1..];
          var k :| 0 <= k < |s[1..]| && s[1..][k] == rest[j];
          assert s[k + 1] == rest[j];
        }
        assert Filter(s, keep) == [s[0]] + rest;
      } else {
        assert Filter(s, keep) == rest;
      }
    }
  }
}
