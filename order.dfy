/**
 * Go's ordering of strings (`<` on strings, used by `sort.Strings`):
 * lexicographic, element by element, a proper prefix first. Go compares the
 * UTF-8 bytes; for well-formed text that is the order of code points used
 * here.
 */
module Order {

  predicate Less(a: string, b: string)
    decreases |a|
  {
    if a == [] then b != []
    else b != [] && (a[0] < b[0] || (a[0] == b[0] && Less(a[1..], b[1..])))
  }

  lemma {:induction false} LessIrreflexive(a: string)
    ensures !Less(a, a)
    decreases |a|
  {
    if a != [] {
      LessIrreflexive(a[1..]);
    }
  }

  lemma {:induction false} LessTransitive(a: string, b: string, c: string)
    requires Less(a, b) && Less(b, c)
    ensures Less(a, c)
    decreases |a|
  {
    if a != [] && a[0] == b[0] == c[0] {
      LessTransitive(a[1..], b[1..], c[1..]);
    }
  }

  /** Any two strings are equal or ordered one way or the other. */
  lemma {:induction false} LessTotal(a: string, b: string)
    ensures a == b || Less(a, b) || Less(b, a)
    decreases |a|
  {
    if a != [] && b != [] && a[0] == b[0] {
      LessTotal(a[1..], b[1..]);
      if a[1..] == b[1..] {
        assert a == [a[0]] + a[1..] && b == [b[0]] + b[1..];
      }
    }
  }

  lemma LessAsymmetric(a: string, b: string)
    requires Less(a, b)
    ensures !Less(b, a)
  {
    if Less(b, a) {
      LessTransitive(a, b, a);
      LessIrreflexive(a);
    }
  }

  /** Ascending in the non-strict sense: no element is below an earlier one. */
  predicate Sorted(s: seq<string>) {
    forall i, j :: 0 <= i < j < |s| ==> !Less(s[j], s[i])
  }

  /** Strictly ascending: each element is below every later one. */
  predicate StrictlyAscending(s: seq<string>) {
    forall i, j :: 0 <= i < j < |s| ==> Less(s[i], s[j])
  }

  predicate Distinct(s: seq<string>) {
    forall i, j :: 0 <= i < j < |s| ==> s[i] != s[j]
  }

  /** Insertion of one string into a sorted sequence. */
  function Insert(x: string, s: seq<string>): (r: seq<string>)
    ensures multiset(r) == multiset(s) + multiset{x}
  {
    if s == [] then [x]
    else
      assert s == [s[0]] + s[1..];
      if Less(s[0], x) then [s[0]] + Insert(x, s[1..]) else [x] + s
  }

  /** `sort.Strings`, as a value: the sorted rearrangement of `s`. */
  function SortStrings(s: seq<string>): (r: seq<string>)
    ensures multiset(r) == multiset(s)
  {
    if s == [] then []
    else
      assert s == s[..|s| - 1] + [s[|s| - 1]];
      Insert(s[|s| - 1], SortStrings(s[..|s| - 1]))
  }

  lemma {:induction false} InsertSorted(x: string, s: seq<string>)
    requires Sorted(s)
    ensures Sorted(Insert(x, s))
    decreases |s|
  {
    if s != [] {
      if Less(s[0], x) {
        InsertSorted(x, s[1..]);
        var r := Insert(x, s);
        var tail := Insert(x, s[1..]);
        assert r == [s[0]] + tail;
        forall k | 0 <= k < |tail|
          ensures !Less(tail[k], s[0])
        {
          assert tail[k] in multiset(tail);
          if tail[k] == x {
            LessAsymmetric(s[0], x);
          } else {
            assert tail[k] in multiset(s[1..]);
            var m :| 0 <= m < |s[1..]| && s[1..][m] == tail[k];
            assert s[m + 1] == tail[k];
          }
        }
      } else {
        var r := Insert(x, s);
        assert r == [x] + s;
        forall k | 0 <= k < |s|
          ensures !Less(s[k], x)
        {
          if k > 0 && Less(s[k], x) {
            LessTotal(s[0], s[k]);
            if s[0] != s[k] {
              LessTransitive(s[0], s[k], x);
            }
          }
        }
      }
    }
  }

  /** `sort.Strings` leaves its slice in ascending order. */
  lemma {:induction false} SortStringsSorted(s: seq<string>)
    ensures Sorted(SortStrings(s))
    decreases |s|
  {
    if s != [] {
      SortStringsSorted(s[..|s| - 1]);
      InsertSorted(s[|s| - 1], SortStrings(s[..|s| - 1]));
    }
  }

  /** A sorted sequence without repetitions is strictly ascending. */
  lemma SortedDistinctStrict(s: seq<string>)
    requires Sorted(s) && Distinct(s)
    ensures StrictlyAscending(s)
  {
    forall i, j | 0 <= i < j < |s|
      ensures Less(s[i], s[j])
    {
      LessTotal(s[i], s[j]);
    }
  }

  /**
   * Two strictly ascending sequences with the same elements are the same
   * sequence: the order leaves no freedom.
   */
  lemma {:induction false} AscendingUnique(a: seq<string>, b: seq<string>)
    requires StrictlyAscending(a) && StrictlyAscending(b)
    requires forall x :: x in a <==> x in b
    ensures a == b
    decreases |a|
  {
    if a != [] { assert a[0] in a; }
    if b != [] { assert b[0] in b; }
    if a != [] {
      // Both heads are the least element of the common set of elements.
      if a[0] != b[0] {
        assert b[0] in b && a[0] in a;
        var i :| 0 <= i < |a| && a[i] == b[0];
        var j :| 0 <= j < |b| && b[j] == a[0];
        assert Less(a[0], b[0]) by { assert j > 0; }
        assert Less(b[0], a[0]) by { assert i > 0; }
        LessAsymmetric(a[0], b[0]);
      }
      var ta, tb := a[1..], b[1..];
      forall x | x in ta
        ensures x in tb
      {
        var i :| 0 <= i < |ta| && ta[i] == x;
        assert x == a[i + 1] && x in a;
        var j :| 0 <= j < |b| && b[j] == x;
        if j == 0 {
          assert Less(a[0], a[i + 1]);
          LessIrreflexive(x);
        }
        assert tb[j - 1] == x;
      }
      forall x | x in tb
        ensures x in ta
      {
        var j :| 0 <= j < |tb| && tb[j] == x;
        assert x == b[j + 1] && x in b;
        var i :| 0 <= i < |a| && a[i] == x;
        if i == 0 {
          assert Less(b[0], b[j + 1]);
          LessIrreflexive(x);
        }
        assert ta[i - 1] == x;
      }
      AscendingUnique(ta, tb);
      assert a == [a[0]] + ta && b == [b[0]] + tb;
    }
  }
}
