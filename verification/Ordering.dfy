/** Stable sorting by a total preorder, as the language's own `sorted` does it,
    and the order on worker ids. */
module Ordering {

  ghost predicate TotalPreorder<T(!new)>(leq: (T, T) -> bool) {
    && (forall a, b :: leq(a, b) || leq(b, a))
    && (forall a, b, c :: leq(a, b) && leq(b, c) ==> leq(a, c))
  }

  ghost predicate Sorted<T>(leq: (T, T) -> bool, s: seq<T>) {
    forall i, j | 0 <= i < j < |s| :: leq(s[i], s[j])
  }

  /** Puts x behind every element that is not greater. */
  function Insert<T>(leq: (T, T) -> bool, s: seq<T>, x: T): seq<T> {
    if s == [] || leq(s[|s| - 1], x) then s + [x]
    else Insert(leq, s[..|s| - 1], x) + [s[|s| - 1]]
  }

  function SortBy<T>(leq: (T, T) -> bool, s: seq<T>): seq<T> {
    if s == [] then [] else Insert(leq, SortBy(leq, s[..|s| - 1]), s[|s| - 1])
  }

  lemma {:induction false} InsertPermutes<T>(leq: (T, T) -> bool, s: seq<T>, x: T)
    ensures multiset(Insert(leq, s, x)) == multiset(s) + multiset{x}
  {
    if s != [] && !leq(s[|s| - 1], x) {
      InsertPermutes(leq, s[..|s| - 1], x);
      assert s == s[..|s| - 1] + [s[|s| - 1]];
    }
  }

  lemma {:induction false} SortPermutes<T>(leq: (T, T) -> bool, s: seq<T>)
    ensures multiset(SortBy(leq, s)) == multiset(s)
    ensures |SortBy(leq, s)| == |s|
  {
    if s != [] {
      SortPermutes(leq, s[..|s| - 1]);
      InsertPermutes(leq, SortBy(leq, s[..|s| - 1]), s[|s| - 1]);
      assert s == s[..|s| - 1] + [s[|s| - 1]];
    }
    assert |multiset(SortBy(leq, s))| == |multiset(s)|;
  }

  lemma {:induction false} InsertSorts<T(!new)>(leq: (T, T) -> bool, s: seq<T>, x: T)
    requires TotalPreorder(leq) && Sorted(leq, s)
    ensures Sorted(leq, Insert(leq, s, x))
  {
    if s != [] {
      var front, last := s[..|s| - 1], s[|s| - 1];
      if leq(last, x) {
        forall i | 0 <= i < |s| ensures leq(s[i], x) {
          assert i < |s| - 1 ==> leq(s[i], last);
        }
      } else {
        InsertSorts(leq, front, x);
        InsertPermutes(leq, front, x);
        var r := Insert(leq, front, x);
        forall i | 0 <= i < |r| ensures leq(r[i], last) {
          assert r[i] in multiset(r);
          assert r[i] in front || r[i] == x;
        }
      }
    }
  }

  lemma {:induction false} SortSorts<T(!new)>(leq: (T, T) -> bool, s: seq<T>)
    requires TotalPreorder(leq)
    ensures Sorted(leq, SortBy(leq, s))
  {
    if s != [] {
      SortSorts(leq, s[..|s| - 1]);
      InsertSorts(leq, SortBy(leq, s[..|s| - 1]), s[|s| - 1]);
    }
  }

  /** Elements ranked equal are the same element. */
  ghost predicate Antisymmetric<T>(leq: (T, T) -> bool, m: multiset<T>) {
    forall a, b | a in m && b in m :: leq(a, b) && leq(b, a) ==> a == b
  }

  lemma LastsAgree<T(!new)>(leq: (T, T) -> bool, s: seq<T>, t: seq<T>)
    requires TotalPreorder(leq) && Sorted(leq, s) && Sorted(leq, t) && |s| == |t| > 0
    requires multiset(s) == multiset(t) && Antisymmetric(leq, multiset(s))
    ensures s[|s| - 1] == t[|t| - 1]
  {
    var n := |s| - 1;
    assert s[n] in multiset(t) && t[n] in multiset(s);
    var i :| 0 <= i <= n && t[i] == s[n];
    var j :| 0 <= j <= n && s[j] == t[n];
    assert leq(s[n], t[n]) && leq(t[n], s[n]);
  }

  /** There is only one way to sort elements no two of which tie. */
  lemma {:induction false} SortedIsUnique<T(!new)>(leq: (T, T) -> bool, s: seq<T>, t: seq<T>)
    requires TotalPreorder(leq) && Sorted(leq, s) && Sorted(leq, t)
    requires multiset(s) == multiset(t) && Antisymmetric(leq, multiset(s))
    ensures s == t
  {
    assert |multiset(s)| == |multiset(t)|;
    if s != [] {
      var n := |s| - 1;
      LastsAgree(leq, s, t);
      FrontsAgree(leq, s, t);
      SortedIsUnique(leq, s[..n], t[..n]);
      DropLast(s);
      DropLast(t);
    }
  }

  lemma FrontsAgree<T(!new)>(leq: (T, T) -> bool, s: seq<T>, t: seq<T>)
    requires Sorted(leq, s) && Sorted(leq, t) && |s| == |t| > 0 && s[|s| - 1] == t[|t| - 1]
    requires multiset(s) == multiset(t) && Antisymmetric(leq, multiset(s))
    ensures Sorted(leq, s[..|s| - 1]) && Sorted(leq, t[..|t| - 1])
    ensures multiset(s[..|s| - 1]) == multiset(t[..|t| - 1])
    ensures Antisymmetric(leq, multiset(s[..|s| - 1]))
  {
    DropLast(s);
    DropLast(t);
  }

  lemma TakeTwice<T>(s: seq<T>, n: nat, k: nat)
    requires k <= n <= |s|
    ensures s[..n][..k] == s[..k]
    ensures s[..|s|] == s
  {}

  lemma TakeOneMore<T>(s: seq<T>, k: nat)
    requires k < |s|
    ensures s[..k + 1] == s[..k] + [s[k]]
  {}

  lemma DropLast<T>(s: seq<T>)
    requires s != []
    ensures s == s[..|s| - 1] + [s[|s| - 1]]
    ensures multiset(s[..|s| - 1]) == multiset(s) - multiset{s[|s| - 1]}
  {
    assert s == s[..|s| - 1] + [s[|s| - 1]];
  }

  /** Sorting forgets the order the elements came in. */
  lemma SortIsCanonical<T(!new)>(leq: (T, T) -> bool, s: seq<T>, t: seq<T>)
    requires TotalPreorder(leq)
    requires multiset(s) == multiset(t) && Antisymmetric(leq, multiset(s))
    ensures SortBy(leq, s) == SortBy(leq, t)
  {
    SortPermutes(leq, s);
    SortPermutes(leq, t);
    SortSorts(leq, s);
    SortSorts(leq, t);
    SortedIsUnique(leq, SortBy(leq, s), SortBy(leq, t));
  }

  ghost predicate Distinct<T, K>(key: T -> K, s: seq<T>) {
    forall i, j | 0 <= i < j < |s| :: key(s[i]) != key(s[j])
  }

  lemma {:induction false} DistinctOccursOnce<T, K>(key: T -> K, s: seq<T>, x: T)
    requires Distinct(key, s)
    ensures multiset(s)[x] <= 1
  {
    if s != [] {
      DistinctOccursOnce(key, s[..|s| - 1], x);
      assert s == s[..|s| - 1] + [s[|s| - 1]];
      if s[|s| - 1] == x {
        assert x !in s[..|s| - 1];
      }
    }
  }

  lemma PermutationKeepsDistinct<T, K>(key: T -> K, s: seq<T>, t: seq<T>)
    requires multiset(s) == multiset(t) && Distinct(key, s)
    ensures Distinct(key, t)
  {
    forall i, j | 0 <= i < j < |t| ensures key(t[i]) != key(t[j]) {
      assert t == t[..i] + [t[i]] + t[i + 1..j] + [t[j]] + t[j + 1..];
      DistinctOccursOnce(key, s, t[i]);
      assert t[i] in multiset(s) && t[j] in multiset(s);
    }
  }

  /** Strings compare character by character, a prefix before what extends it. */
  predicate LexLeq(a: string, b: string) {
    if a == [] then true
    else if b == [] then false
    else if a[0] != b[0] then a[0] < b[0]
    else LexLeq(a[1..], b[1..])
  }

  lemma {:induction false} LexTotal(a: string, b: string)
    ensures LexLeq(a, b) || LexLeq(b, a)
    ensures LexLeq(a, b) && LexLeq(b, a) ==> a == b
  {
    if a != [] && b != [] && a[0] == b[0] {
      LexTotal(a[1..], b[1..]);
      assert a == [a[0]] + a[1..] && b == [b[0]] + b[1..];
    }
  }

  lemma {:induction false} LexTransitive(a: string, b: string, c: string)
    requires LexLeq(a, b) && LexLeq(b, c)
    ensures LexLeq(a, c)
  {
    if a != [] && a[0] == b[0] && b[0] == c[0] {
      LexTransitive(a[1..], b[1..], c[1..]);
    }
  }

  /** How often x occurs. */
  function Occurrences<T(==)>(x: T, s: seq<T>): nat {
    if s == [] then 0 else Occurrences(x, s[..|s| - 1]) + if s[|s| - 1] == x then 1 else 0
  }

  lemma OccurrencesPush<T>(f: T, s: seq<T>, x: T)
    ensures Occurrences(f, s + [x]) == Occurrences(f, s) + if x == f then 1 else 0
  {
    assert (s + [x])[..|s|] == s;
  }

  lemma {:induction false} OccurrencesPop<T>(f: T, s: seq<T>)
    requires s != []
    ensures Occurrences(f, s) == Occurrences(f, s[1..]) + if s[0] == f then 1 else 0
  {
    var n := |s| - 1;
    if n == 0 {
      assert s[..0] == [] && s[1..] == [];
    } else {
      OccurrencesPop(f, s[..n]);
      assert s[..n][1..] == s[1..][..n - 1];
    }
  }
}
