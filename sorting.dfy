/** Python's stable `sort` / `sorted`, with an ordering given as a total
    preorder `le`, and Python's string ordering (by character code). */
module Sorting {

  ghost predicate TotalPreorder<T(!new)>(le: (T, T) -> bool) {
    && (forall a, b :: le(a, b) || le(b, a))
    && (forall a, b, c :: le(a, b) && le(b, c) ==> le(a, c))
  }

  ghost predicate SortedBy<T>(s: seq<T>, le: (T, T) -> bool) {
    forall i, j :: 0 <= i < j < |s| ==> le(s[i], s[j])
  }

  /** Inserts `x` after every element of the sorted `s` that may precede it,
      so that elements equivalent to `x` keep their place before it. */
  function Insert<T>(s: seq<T>, x: T, le: (T, T) -> bool): (r: seq<T>)
    ensures multiset(r) == multiset(s) + multiset{x}
    ensures |r| == |s| + 1
  {
    if |s| == 0 then [x]
    else if le(s[|s| - 1], x) then s + [x]
    else
      assert s == s[..|s| - 1] + [s[|s| - 1]];
      Insert(s[..|s| - 1], x, le) + [s[|s| - 1]]
  }

  lemma {:induction false} InsertSorted<T(!new)>(s: seq<T>, x: T, le: (T, T) -> bool)
    requires TotalPreorder(le)
    requires SortedBy(s, le)
    ensures SortedBy(Insert(s, x, le), le)
  {
    if |s| == 0 || le(s[|s| - 1], x) {
    } else {
      var p := s[..|s| - 1];
      var last := s[|s| - 1];
      InsertSorted(p, x, le);
      var q := Insert(p, x, le);
      assert le(x, last);
      forall k | 0 <= k < |q| ensures le(q[k], last) {
        assert q[k] in multiset(q);
        assert q[k] in multiset(p) || q[k] == x;
        if q[k] != x {
          var m :| 0 <= m < |p| && p[m] == q[k];
        }
      }
    }
  }

  /** `sorted(s, key=...)`: a sorted permutation of `s`, built by inserting
      the elements one at a time. */
  method SortBy<T(!new)>(s: seq<T>, le: (T, T) -> bool) returns (r: seq<T>)
    requires TotalPreorder(le)
    ensures SortedBy(r, le)
    ensures multiset(r) == multiset(s)
  {
    r := [];
    var i := 0;
    while i < |s|
      invariant 0 <= i <= |s|
      invariant SortedBy(r, le)
      invariant multiset(r) == multiset(s[..i])
    {
      InsertSorted(r, s[i], le);
      r := Insert(r, s[i], le);
      assert s[..i + 1] == s[..i] + [s[i]];
      i := i + 1;
    }
    assert s[..i] == s;
  }

  /** Python's `a <= b` on strings: lexicographic by character code. */
  predicate StrLe(a: string, b: string) {
    if |a| == 0 then true
    else if |b| == 0 then false
    else if a[0] != b[0] then a[0] < b[0]
    else StrLe(a[1..], b[1..])
  }

  lemma {:induction false} StrLeTotal(a: string, b: string)
    ensures StrLe(a, b) || StrLe(b, a)
  {
    if |a| > 0 && |b| > 0 && a[0] == b[0] {
      StrLeTotal(a[1..], b[1..]);
    }
  }

  lemma {:induction false} StrLeTransitive(a: string, b: string, c: string)
    requires StrLe(a, b) && StrLe(b, c)
    ensures StrLe(a, c)
  {
    if |a| > 0 && |b| > 0 && |c| > 0 && a[0] == b[0] == c[0] {
      StrLeTransitive(a[1..], b[1..], c[1..]);
    }
  }

  /** Python's string order is a total preorder, so `sorted` applies to it. */
  lemma StrLeTotalPreorder()
    ensures TotalPreorder(StrLe)
  {
    forall a, b ensures StrLe(a, b) || StrLe(b, a) {
      StrLeTotal(a, b);
    }
    forall a, b, c | StrLe(a, b) && StrLe(b, c) ensures StrLe(a, c) {
      StrLeTransitive(a, b, c);
    }
  }

  lemma {:induction false} StrLeAntisymmetric(a: string, b: string)
    requires StrLe(a, b) && StrLe(b, a)
    ensures a == b
  {
    if |a| > 0 && |b| > 0 {
      StrLeAntisymmetric(a[1..], b[1..]);
      assert a == [a[0]] + a[1..] && b == [b[0]] + b[1..];
    }
  }

  /** `m` is the smallest string of `s`. */
  predicate IsLeast(m: string, s: set<string>) {
    m in s && forall x :: x in s ==> StrLe(m, x)
  }

  /** Every non-empty finite set of strings has exactly one smallest
      element. */
  lemma {:induction false} LeastExists(s: set<string>)
    requires s != {}
    ensures exists m :: IsLeast(m, s)
    ensures forall a, b :: IsLeast(a, s) && IsLeast(b, s) ==> a == b
    decreases |s|
  {
    forall a, b | IsLeast(a, s) && IsLeast(b, s) ensures a == b {
      StrLeAntisymmetric(a, b);
    }
    var x :| x in s;
    StrLeTotal(x, x);
    if s == {x} {
      assert IsLeast(x, s);
    } else {
      LeastExists(s - {x});
      var m :| IsLeast(m, s - {x});
      StrLeTotal(m, x);
      if StrLe(m, x) {
        assert IsLeast(m, s);
      } else {
        forall y | y in s ensures StrLe(x, y) {
          if y != x {
            StrLeTransitive(x, m, y);
          }
        }
        assert IsLeast(x, s);
      }
    }
  }

  /** `sorted(names)` of a collection of distinct strings: its elements in
      increasing order, each once. */
  function SortedSet(s: set<string>): (r: seq<string>)
    ensures |r| == |s|
    ensures forall x :: x in r <==> x in s
    ensures forall i, j :: 0 <= i < j < |r| ==> r[i] != r[j]
    ensures SortedBy(r, StrLe)
    decreases |s|
  {
    if s == {} then []
    else
      LeastExists(s);
      var m :| IsLeast(m, s);
      var rest := SortedSet(s - {m});
      assert forall i :: 0 <= i < |rest| ==> rest[i] in s - {m};
      [m] + rest
  }

  /** The sorted list starts with the smallest element. */
  lemma SortedSetFirst(s: set<string>, m: string)
    requires IsLeast(m, s)
    ensures SortedSet(s) == [m] + SortedSet(s - {m})
  {
    LeastExists(s);
  }
}
