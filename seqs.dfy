/**
 * Generic list operations the pages are built from: `Array.prototype.filter`
 * and the counts derived from it, the add-or-remove toggle of a membership
 * list, `indexOf`, and `slice(-k).reverse()`.
 */
module Seqs {
  import opened Common

  /** `s.filter(p)`. */
  function Filter<T>(s: seq<T>, p: T -> bool): (r: seq<T>)
    ensures |r| <= |s|
    ensures forall k :: 0 <= k < |r| ==> p(r[k])
  {
    if s == [] then [] else (if p(s[0]) then [s[0]] else []) + Filter(s[1..], p)
  }

  /** `a` is `b` with some elements deleted, the rest kept in their order. */
  ghost predicate IsSubsequence<T>(a: seq<T>, b: seq<T>)
    decreases |b|
  {
    a == [] || (b != [] && ((a[0] == b[0] && IsSubsequence(a[1..], b[1..])) || IsSubsequence(a, b[1..])))
  }

  /** The filtered list keeps the surviving elements in their original order. */
  lemma {:induction false} FilterIsSubsequence<T>(s: seq<T>, p: T -> bool)
    ensures IsSubsequence(Filter(s, p), s)
  {
    if s != [] {
      FilterIsSubsequence(s[1..], p);
      if p(s[0]) {
        assert Filter(s, p) == [s[0]] + Filter(s[1..], p);
        assert Filter(s, p)[1..] == Filter(s[1..], p);
      } else {
        assert Filter(s, p) == Filter(s[1..], p);
      }
    }
  }

  /** Each element survives with all its copies when it passes, and disappears when it fails. */
  lemma {:induction false} FilterMultiplicity<T>(s: seq<T>, p: T -> bool, x: T)
    ensures multiset(Filter(s, p))[x] == if p(x) then multiset(s)[x] else 0
  {
    if s != [] {
      FilterMultiplicity(s[1..], p, x);
      assert s == [s[0]] + s[1..];
      assert multiset(s) == multiset([s[0]]) + multiset(s[1..]);
      var head := if p(s[0]) then [s[0]] else [];
      assert multiset(Filter(s, p)) == multiset(head) + multiset(Filter(s[1..], p));
    }
  }

  /** An element is kept exactly when it is in the list and passes the test. */
  lemma FilterMembership<T>(s: seq<T>, p: T -> bool, x: T)
    ensures x in Filter(s, p) <==> x in s && p(x)
  {
    FilterMultiplicity(s, p, x);
    assert x in Filter(s, p) <==> multiset(Filter(s, p))[x] > 0;
    assert x in s <==> multiset(s)[x] > 0;
  }

  /** A test every element passes keeps the whole list. */
  lemma {:induction false} FilterAllPass<T>(s: seq<T>, p: T -> bool)
    requires forall k :: 0 <= k < |s| ==> p(s[k])
    ensures Filter(s, p) == s
  {
    if s != [] {
      FilterAllPass(s[1..], p);
      assert [s[0]] + s[1..] == s;
    }
  }

  /** A test no element passes keeps nothing. */
  lemma {:induction false} FilterNonePass<T>(s: seq<T>, p: T -> bool)
    requires forall k :: 0 <= k < |s| ==> !p(s[k])
    ensures Filter(s, p) == []
  {
    if s != [] {
      FilterNonePass(s[1..], p);
    }
  }

  /** Filtering distributes over concatenation. */
  lemma {:induction false} FilterAppend<T>(a: seq<T>, b: seq<T>, p: T -> bool)
    ensures Filter(a + b, p) == Filter(a, p) + Filter(b, p)
  {
    if a == [] {
      assert a + b == b;
    } else {
      assert (a + b)[0] == a[0] && (a + b)[1..] == a[1..] + b;
      FilterAppend(a[1..], b, p);
    }
  }

  /** `s.filter(p).length`. */
  function Count<T>(s: seq<T>, p: T -> bool): nat {
    |Filter(s, p)|
  }

  /** A count never exceeds the length of the list. */
  lemma CountAtMostLength<T>(s: seq<T>, p: T -> bool)
    ensures Count(s, p) <= |s|
  {
  }

  /** Two tests no element passes at once count at most the whole list between them. */
  lemma {:induction false} CountDisjoint<T>(s: seq<T>, p: T -> bool, q: T -> bool)
    requires forall k :: 0 <= k < |s| ==> !(p(s[k]) && q(s[k]))
    ensures Count(s, p) + Count(s, q) <= |s|
  {
    if s != [] {
      CountDisjoint(s[1..], p, q);
    }
  }

  /** Three tests no two of which an element passes at once count at most the whole list together. */
  lemma {:induction false} CountDisjoint3<T>(s: seq<T>, p: T -> bool, q: T -> bool, r: T -> bool)
    requires forall k :: 0 <= k < |s| ==> !(p(s[k]) && q(s[k])) && !(p(s[k]) && r(s[k])) && !(q(s[k]) && r(s[k]))
    ensures Count(s, p) + Count(s, q) + Count(s, r) <= |s|
  {
    if s != [] {
      CountDisjoint3(s[1..], p, q, r);
    }
  }

  /** No element occurs twice. */
  ghost predicate NoDuplicates<T>(s: seq<T>) {
    forall i, j :: 0 <= i < j < |s| ==> s[i] != s[j]
  }

  /** `s.filter(y => y !== x)`. */
  function RemoveAll<T(==)>(s: seq<T>, x: T): (r: seq<T>)
    ensures x !in r
  {
    var r := Filter(s, y => y != x);
    assert forall k :: 0 <= k < |r| ==> r[k] != x;
    r
  }

  /** `s.includes(x) ? s.filter(y => y !== x) : [...s, x]`. */
  function Toggle<T(==)>(s: seq<T>, x: T): seq<T> {
    if x in s then RemoveAll(s, x) else s + [x]
  }

  /** Toggling flips the membership of `x` and of nothing else. */
  lemma ToggleMembership<T>(s: seq<T>, x: T, y: T)
    ensures y in Toggle(s, x) <==> (if y == x then x !in s else y in s)
  {
    if x in s {
      FilterMembership(s, z => z != x, y);
    }
  }

  /** A subsequence of a list without duplicates has none either. */
  lemma {:induction false} SubsequenceNoDuplicates<T>(a: seq<T>, b: seq<T>)
    requires IsSubsequence(a, b) && NoDuplicates(b)
    ensures NoDuplicates(a)
    decreases |b|
  {
    if a != [] {
      assert NoDuplicates(b[1..]) by {
        forall i, j | 0 <= i < j < |b[1..]| ensures b[1..][i] != b[1..][j] {
          assert b[1..][i] == b[i + 1] && b[1..][j] == b[j + 1];
        }
      }
      if a[0] == b[0] && IsSubsequence(a[1..], b[1..]) {
        SubsequenceNoDuplicates(a[1..], b[1..]);
        forall j | 0 < j < |a| ensures a[0] != a[j] {
          assert a[j] == a[1..][j - 1];
          SubsequenceElements(a[1..], b[1..], a[j]);
        }
      } else {
        SubsequenceNoDuplicates(a, b[1..]);
      }
    }
  }

  /** Every element of a subsequence comes from the list. */
  lemma {:induction false} SubsequenceElements<T>(a: seq<T>, b: seq<T>, x: T)
    requires IsSubsequence(a, b) && x in a
    ensures x in b
    decreases |b|
  {
    if a[0] == b[0] && IsSubsequence(a[1..], b[1..]) {
      if x != a[0] {
        assert x in a[1..];
        SubsequenceElements(a[1..], b[1..], x);
      }
    } else {
      SubsequenceElements(a, b[1..], x);
    }
  }

  /** Toggling keeps a list free of duplicates. */
  lemma ToggleNoDuplicates<T>(s: seq<T>, x: T)
    requires NoDuplicates(s)
    ensures NoDuplicates(Toggle(s, x))
  {
    if x in s {
      FilterIsSubsequence(s, y => y != x);
      SubsequenceNoDuplicates(RemoveAll(s, x), s);
    }
  }

  /** Removing an element the list does not hold changes nothing. */
  lemma RemoveAbsent<T>(s: seq<T>, x: T)
    requires x !in s
    ensures RemoveAll(s, x) == s
  {
    FilterAllPass(s, y => y != x);
  }

  /** Removing the last element of a list without duplicates drops just that slot. */
  lemma RemoveLast<T>(s: seq<T>)
    requires |s| > 0 && NoDuplicates(s)
    ensures RemoveAll(s, s[|s| - 1]) == s[..|s| - 1]
  {
    var x := s[|s| - 1];
    assert s == s[..|s| - 1] + [x];
    assert x !in s[..|s| - 1];
    FilterAppend(s[..|s| - 1], [x], y => y != x);
    RemoveAbsent(s[..|s| - 1], x);
    assert Filter([x], y => y != x) == [];
  }

  /**
   * Toggling the same element twice restores the list exactly when the
   * element was absent or already last; a present element otherwise moves
   * to the end.
   */
  lemma ToggleTwice<T>(s: seq<T>, x: T)
    requires NoDuplicates(s)
    ensures Toggle(Toggle(s, x), x) == (if x in s then RemoveAll(s, x) + [x] else s)
    ensures Toggle(Toggle(s, x), x) == s <==> x !in s || s[|s| - 1] == x
  {
    if x in s {
      assert x !in RemoveAll(s, x);
      var t := RemoveAll(s, x) + [x];
      if s[|s| - 1] == x {
        RemoveLast(s);
        assert t == s;
      }
      if t == s {
        assert s[|s| - 1] == t[|t| - 1];
      }
    } else {
      assert x in s + [x];
      FilterAppend(s, [x], y => y != x);
      RemoveAbsent(s, x);
      assert Filter([x], y => y != x) == [];
    }
  }

  /** `s.find(p)`, as the index of the first element that passes, or None when none does. */
  function FindFirst<T>(s: seq<T>, p: T -> bool): (r: Option<nat>)
    ensures r.Some? ==> r.value < |s| && p(s[r.value])
    ensures r.Some? ==> forall j :: 0 <= j < r.value ==> !p(s[j])
    ensures r.None? <==> forall j :: 0 <= j < |s| ==> !p(s[j])
  {
    if s == [] then None
    else if p(s[0]) then Some(0)
    else
      match FindFirst(s[1..], p)
      case None => None
      case Some(i) => Some(i + 1)
  }

  /** `s.indexOf(x)` for an element the list holds. */
  function Position<T(==)>(s: seq<T>, x: T): (i: nat)
    requires x in s
    ensures i < |s| && s[i] == x
    ensures forall k :: 0 <= k < i ==> s[k] != x
  {
    if s[0] == x then 0 else 1 + Position(s[1..], x)
  }

  function Reverse<T>(s: seq<T>): seq<T> {
    if s == [] then [] else Reverse(s[1..]) + [s[0]]
  }

  lemma {:induction false} ReverseAt<T>(s: seq<T>, k: nat)
    requires k < |s|
    ensures |Reverse(s)| == |s| && Reverse(s)[k] == s[|s| - 1 - k]
  {
    if |s| > 1 {
      ReverseAt(s[1..], if k < |s| - 1 then k else 0);
    }
  }

  /** `s.slice(-k).reverse()` for a positive `k`: the last `k` elements, newest first. */
  function RecentFirst<T>(s: seq<T>, k: nat): seq<T>
    requires k > 0
  {
    var m := if |s| < k then |s| else k;
    Reverse(s[|s| - m..])
  }

  /** The recent list holds the last min(k, |s|) elements, last one first. */
  lemma RecentFirstSpec<T>(s: seq<T>, k: nat)
    requires k > 0
    ensures |RecentFirst(s, k)| == if |s| < k then |s| else k
    ensures forall i :: 0 <= i < |RecentFirst(s, k)| ==> RecentFirst(s, k)[i] == s[|s| - 1 - i]
  {
    var m := if |s| < k then |s| else k;
    var tail := s[|s| - m..];
    if m == 0 {
      assert tail == [];
    } else {
      ReverseAt(tail, 0);
    }
    forall i | 0 <= i < m ensures RecentFirst(s, k)[i] == s[|s| - 1 - i] {
      ReverseAt(tail, i);
    }
  }
}
