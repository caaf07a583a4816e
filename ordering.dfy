/**
 * Sequence helpers shared by the view models: filtering, a stable sort by a
 * caller-supplied order, and the string order and lower-casing used to sort
 * names.
 */
module Ordering {
  import opened Wrappers

  /** The elements of `s` that satisfy `p`, in their original order (Swift's `filter`). */
  function Filter<T>(s: seq<T>, p: T -> bool): (r: seq<T>)
    ensures |r| <= |s|
    ensures forall i :: 0 <= i < |r| ==> r[i] in s && p(r[i])
    ensures forall i :: 0 <= i < |s| && p(s[i]) ==> s[i] in r
    ensures multiset(r) <= multiset(s)
    decreases |s|
  {
    if s == [] then []
    else
      assert s == [s[0]] + s[1..];
      if p(s[0]) then [s[0]] + Filter(s[1..], p)
      else Filter(s[1..], p)
  }

  lemma FilterCons<T>(x: T, s: seq<T>, p: T -> bool)
    ensures Filter([x] + s, p) == if p(x) then [x] + Filter(s, p) else Filter(s, p)
  {
    assert ([x] + s)[1..] == s;
  }

  lemma {:induction false} FilterAppend<T>(a: seq<T>, b: seq<T>, p: T -> bool)
    ensures Filter(a + b, p) == Filter(a, p) + Filter(b, p)
    decreases |a|
  {
    if a == [] {
      assert a + b == b;
    } else {
      assert (a + b)[1..] == a[1..] + b;
      FilterAppend(a[1..], b, p);
    }
  }

  /** Filtering with a predicate that holds everywhere keeps the sequence. */
  lemma {:induction false} FilterAll<T>(s: seq<T>, p: T -> bool)
    requires forall x :: x in s ==> p(x)
    ensures Filter(s, p) == s
    decreases |s|
  {
    if s != [] {
      FilterAll(s[1..], p);
    }
  }

  /** Filtering with a predicate that holds nowhere gives the empty sequence. */
  lemma {:induction false} FilterNone<T>(s: seq<T>, p: T -> bool)
    requires forall x :: x in s ==> !p(x)
    ensures Filter(s, p) == []
    decreases |s|
  {
    if s != [] {
      FilterNone(s[1..], p);
    }
  }

  /** Filtering by a predicate and by its negation splits the multiset of `s`. */
  lemma {:induction false} FilterSplit<T>(s: seq<T>, p: T -> bool, q: T -> bool)
    requires forall x :: q(x) == !p(x)
    ensures multiset(Filter(s, p)) + multiset(Filter(s, q)) == multiset(s)
    decreases |s|
  {
    if s != [] {
      var x, t := s[0], s[1..];
      assert s == [x] + t;
      FilterCons(x, t, p);
      FilterCons(x, t, q);
      FilterSplit(t, p, q);
      if p(x) {
        assert Filter(s, q) == Filter(t, q);
        assert multiset(Filter(s, p)) == multiset{x} + multiset(Filter(t, p));
      } else {
        assert Filter(s, p) == Filter(t, p);
        assert multiset(Filter(s, q)) == multiset{x} + multiset(Filter(t, q));
      }
    }
  }

  /** The values `f` yields, in order, skipping the elements it rejects (Swift's `compactMap`). */
  function CompactMap<T, U>(s: seq<T>, f: T -> Option<U>): (r: seq<U>)
    ensures |r| <= |s|
    ensures forall i :: 0 <= i < |r| ==> exists j :: 0 <= j < |s| && f(s[j]) == Some(r[i])
    decreases |s|
  {
    if s == [] then []
    else
      var rest := CompactMap(s[1..], f);
      assert forall i :: 0 <= i < |rest| ==> exists j :: 0 <= j < |s| && f(s[j]) == Some(rest[i]) by {
        forall i | 0 <= i < |rest| ensures exists j :: 0 <= j < |s| && f(s[j]) == Some(rest[i]) {
          var j :| 0 <= j < |s[1..]| && f(s[1..][j]) == Some(rest[i]);
          assert s[j + 1] == s[1..][j];
        }
      }
      if f(s[0]).Some? then [f(s[0]).value] + rest else rest
  }

  lemma {:induction false} CompactMapAppend<T, U>(a: seq<T>, b: seq<T>, f: T -> Option<U>)
    ensures CompactMap(a + b, f) == CompactMap(a, f) + CompactMap(b, f)
    decreases |a|
  {
    if a == [] {
      assert a + b == b;
    } else {
      assert (a + b)[1..] == a[1..] + b;
      CompactMapAppend(a[1..], b, f);
    }
  }

  /** A value is in the result exactly when some element maps to it. */
  lemma {:induction false} CompactMapMember<T, U>(s: seq<T>, f: T -> Option<U>, x: U)
    ensures x in CompactMap(s, f) <==> exists j :: 0 <= j < |s| && f(s[j]) == Some(x)
    decreases |s|
  {
    if s != [] && f(s[0]) != Some(x) {
      CompactMapMember(s[1..], f, x);
      if exists j :: 0 <= j < |s| && f(s[j]) == Some(x) {
        var j :| 0 <= j < |s| && f(s[j]) == Some(x);
        assert s[1..][j - 1] == s[j];
      }
    }
  }

  /** An element `f` rejects is dropped without disturbing the others. */
  lemma CompactMapDrops<T, U>(a: seq<T>, x: T, b: seq<T>, f: T -> Option<U>)
    requires f(x).None?
    ensures CompactMap(a + [x] + b, f) == CompactMap(a + b, f)
  {
    CompactMapAppend(a + [x], b, f);
    CompactMapAppend(a, [x], f);
    CompactMapAppend(a, b, f);
    assert CompactMap([x], f) == [];
  }

  /** When `f` accepts every element, the result is `f` applied position by position. */
  lemma {:induction false} CompactMapTotal<T, U>(s: seq<T>, f: T -> Option<U>)
    requires forall i :: 0 <= i < |s| ==> f(s[i]).Some?
    ensures |CompactMap(s, f)| == |s|
    ensures forall i :: 0 <= i < |s| ==> Some(CompactMap(s, f)[i]) == f(s[i])
    decreases |s|
  {
    if s != [] {
      var rest := CompactMap(s[1..], f);
      CompactMapTotal(s[1..], f);
      var r := CompactMap(s, f);
      assert r == [f(s[0]).value] + rest;
      forall i | 0 <= i < |s| ensures Some(r[i]) == f(s[i]) {
        if i > 0 {
          assert r[i] == rest[i - 1];
          assert s[i] == s[1..][i - 1];
        }
      }
    }
  }

  /** `le` is a total preorder: any two elements compare, and comparison chains. */
  ghost predicate TotalPreorder<T(!new)>(le: (T, T) -> bool) {
    && (forall a, b :: le(a, b) || le(b, a))
    && (forall a, b, c :: le(a, b) && le(b, c) ==> le(a, c))
  }

  /** `s` is in non-decreasing order under `le`. */
  ghost predicate SortedBy<T>(s: seq<T>, le: (T, T) -> bool) {
    forall i, j :: 0 <= i < j < |s| ==> le(s[i], s[j])
  }

  /** Puts `x` in front of the first element of `s` that is not smaller than it. */
  function Insert<T>(x: T, s: seq<T>, le: (T, T) -> bool): (r: seq<T>)
    ensures multiset(r) == multiset(s) + multiset{x}
    ensures |r| == |s| + 1
    decreases |s|
  {
    if s == [] then [x]
    else if le(x, s[0]) then [x] + s
    else
      assert s == [s[0]] + s[1..];
      [s[0]] + Insert(x, s[1..], le)
  }

  /** Insertion sort. Elements that compare equal keep their input order. */
  function SortBy<T>(s: seq<T>, le: (T, T) -> bool): (r: seq<T>)
    ensures multiset(r) == multiset(s)
    ensures |r| == |s|
    decreases |s|
  {
    if s == [] then []
    else
      assert s == [s[0]] + s[1..];
      Insert(s[0], SortBy(s[1..], le), le)
  }

  lemma {:induction false} InsertSorted<T(!new)>(x: T, s: seq<T>, le: (T, T) -> bool)
    requires TotalPreorder(le)
    requires SortedBy(s, le)
    ensures SortedBy(Insert(x, s, le), le)
    decreases |s|
  {
    if s != [] && !le(x, s[0]) {
      InsertSorted(x, s[1..], le);
      var r := Insert(x, s, le);
      var t := Insert(x, s[1..], le);
      assert r == [s[0]] + t;
      forall k | 0 <= k < |t| ensures le(s[0], t[k]) {
        assert t[k] in multiset(t);
        assert t[k] == x || t[k] in multiset(s[1..]);
        if t[k] != x {
          var i :| 0 <= i < |s[1..]| && s[1..][i] == t[k];
          assert s[1 + i] == t[k];
        }
      }
    }
  }

  lemma {:induction false} SortBySorted<T(!new)>(s: seq<T>, le: (T, T) -> bool)
    requires TotalPreorder(le)
    ensures SortedBy(SortBy(s, le), le)
    decreases |s|
  {
    if s != [] {
      SortBySorted(s[1..], le);
      InsertSorted(s[0], SortBy(s[1..], le), le);
    }
  }

  /** At most the first `n` elements (Swift's `prefix`). */
  function Take<T>(s: seq<T>, n: nat): (r: seq<T>)
    ensures |r| == if |s| < n then |s| else n
    ensures forall i :: 0 <= i < |r| ==> r[i] == s[i]
  {
    if |s| <= n then s else s[..n]
  }

  /** No element occurs twice. */
  predicate Distinct<T(==)>(s: seq<T>) {
    forall i, j :: 0 <= i < j < |s| ==> s[i] != s[j]
  }

  lemma {:induction false} DistinctCount<T>(s: seq<T>)
    requires Distinct(s)
    ensures forall x :: multiset(s)[x] <= 1
    decreases |s|
  {
    if s != [] {
      assert Distinct(s[1..]) by {
        forall i, j | 0 <= i < j < |s[1..]| ensures s[1..][i] != s[1..][j] {
          assert s[1..][i] == s[i + 1] && s[1..][j] == s[j + 1];
        }
      }
      DistinctCount(s[1..]);
      assert s == [s[0]] + s[1..];
      assert s[0] !in s[1..];
    }
  }

  lemma RepeatCounts<T>(r: seq<T>, i: int, j: int)
    requires 0 <= i < j < |r|
    ensures r[i] == r[j] ==> multiset(r)[r[i]] >= 2
  {
    assert r == r[..j] + [r[j]] + r[j + 1..];
    assert r[i] == r[..j][i];
    assert r[i] in multiset(r[..j]);
  }

  /** A permutation of a sequence without repeats has none either. */
  lemma DistinctPermutation<T>(s: seq<T>, r: seq<T>)
    requires multiset(r) == multiset(s) && Distinct(s)
    ensures Distinct(r)
  {
    DistinctCount(s);
    forall i, j | 0 <= i < j < |r| ensures r[i] != r[j] {
      RepeatCounts(r, i, j);
    }
  }

  /** Two elements are swapped exactly when the first is not below the second. */
  lemma SortPair<T>(x: T, y: T, le: (T, T) -> bool)
    ensures SortBy([x, y], le) == if le(x, y) then [x, y] else [y, x]
  {
    assert [x, y][1..] == [y] && [y][1..] == [];
    assert SortBy([y], le) == [y];
  }

  /** What a prefix of a sorted sequence leaves out is no smaller than its last element. */
  lemma SortedPrefixBound<T>(s: seq<T>, le: (T, T) -> bool, n: nat)
    requires SortedBy(s, le)
    ensures multiset(Take(s, n)) <= multiset(s)
    ensures forall b :: b in multiset(s) - multiset(Take(s, n)) ==>
      n < |s| && (n > 0 ==> le(s[n - 1], b))
  {
    var r := Take(s, n);
    if |s| <= n {
      assert r == s;
    } else {
      assert s == r + s[n..];
      assert multiset(s) == multiset(r) + multiset(s[n..]);
      forall b | b in multiset(s) - multiset(r) && n > 0 ensures le(s[n - 1], b) {
        assert b in multiset(s[n..]);
        var k :| 0 <= k < |s[n..]| && s[n..][k] == b;
        assert s[k + n] == b;
      }
    }
  }

  // ---------------------------------------------------------------------
  // Strings

  /** Lexicographic order on strings, by character code (Swift's `<=` on `String`). */
  predicate LexLe(a: string, b: string)
    decreases |a|
  {
    a == [] || (b != [] && (a[0] < b[0] || (a[0] == b[0] && LexLe(a[1..], b[1..]))))
  }

  lemma {:induction false} LexLeTotal(a: string, b: string)
    ensures LexLe(a, b) || LexLe(b, a)
    decreases |a|
  {
    if a != [] && b != [] && a[0] == b[0] {
      LexLeTotal(a[1..], b[1..]);
    }
  }

  lemma {:induction false} LexLeTransitive(a: string, b: string, c: string)
    requires LexLe(a, b) && LexLe(b, c)
    ensures LexLe(a, c)
    decreases |a|
  {
    if a != [] && b != [] && c != [] && a[0] == b[0] && b[0] == c[0] {
      LexLeTransitive(a[1..], b[1..], c[1..]);
    }
  }

  lemma {:induction false} LexLeAntisymmetric(a: string, b: string)
    requires LexLe(a, b) && LexLe(b, a)
    ensures a == b
    decreases |a|
  {
    if a != [] && b != [] {
      LexLeAntisymmetric(a[1..], b[1..]);
      assert a == [a[0]] + a[1..] && b == [b[0]] + b[1..];
    }
  }

  /** Orders `T` by comparing keys lexicographically. */
  function ByLexKey<T>(key: T -> string): (T, T) -> bool {
    (x: T, y: T) => LexLe(key(x), key(y))
  }

  lemma ByLexKeyTotal<T(!new)>(key: T -> string)
    ensures TotalPreorder(ByLexKey(key))
  {
    forall a: T, b: T ensures LexLe(key(a), key(b)) || LexLe(key(b), key(a)) {
      LexLeTotal(key(a), key(b));
    }
    forall a: T, b: T, c: T | LexLe(key(a), key(b)) && LexLe(key(b), key(c))
      ensures LexLe(key(a), key(c))
    {
      LexLeTransitive(key(a), key(b), key(c));
    }
  }

  /** The string order itself. */
  lemma LexLeTotalPreorder()
    ensures TotalPreorder(LexLe)
  {
    forall a: string, b: string ensures LexLe(a, b) || LexLe(b, a) {
      LexLeTotal(a, b);
    }
    forall a: string, b: string, c: string | LexLe(a, b) && LexLe(b, c) ensures LexLe(a, c) {
      LexLeTransitive(a, b, c);
    }
  }

  function LowerChar(c: char): (d: char)
    ensures 'A' <= c <= 'Z' ==> 'a' <= d <= 'z'
    ensures !('A' <= c <= 'Z') ==> d == c
  {
    if 'A' <= c <= 'Z' then (c as int + 32) as char else c
  }

  /** Lower-cases ASCII letters and leaves every other character alone. */
  function Lower(s: string): (r: string)
    ensures |r| == |s|
    ensures forall i :: 0 <= i < |s| ==> r[i] == LowerChar(s[i])
  {
    seq(|s|, i requires 0 <= i < |s| => LowerChar(s[i]))
  }
}
