/** The list and sorted-list operations the gate network relies on:
    List.RemoveAt, the order-preserving sub-lists it leaves, and the first
    entry of a SortedList. */
module Collections {

  /** No entry occurs twice. */
  predicate Distinct<T(==)>(s: seq<T>) {
    forall i, j :: 0 <= i < j < |s| ==> s[i] != s[j]
  }

  /** List.RemoveAt(i) */
  function RemoveAt<T>(s: seq<T>, i: nat): (r: seq<T>)
    requires i < |s|
    ensures |r| == |s| - 1
  {
    s[..i] + s[i + 1..]
  }

  /** r is s with some entries left out and the rest in their order. */
  predicate IsSubsequence<T(==)>(r: seq<T>, s: seq<T>)
    decreases |s|
  {
    if s == [] then r == []
    else (r != [] && r[0] == s[0] && IsSubsequence(r[1..], s[1..])) || IsSubsequence(r, s[1..])
  }

  lemma {:induction false} SubsequenceReflexive<T>(s: seq<T>)
    ensures IsSubsequence(s, s)
    decreases |s|
  {
    if s != [] {
      SubsequenceReflexive(s[1..]);
    }
  }

  /** Removing one entry leaves a subsequence. */
  lemma {:induction false} RemoveAtIsSubsequence<T>(s: seq<T>, i: nat)
    requires i < |s|
    ensures IsSubsequence(RemoveAt(s, i), s)
    decreases i
  {
    var r := RemoveAt(s, i);
    if i == 0 {
      assert r == s[1..];
      SubsequenceReflexive(s[1..]);
    } else {
      assert r[0] == s[0];
      assert r[1..] == RemoveAt(s[1..], i - 1);
      RemoveAtIsSubsequence(s[1..], i - 1);
    }
  }

  /** A subsequence of a subsequence is a subsequence. */
  lemma {:induction false} SubsequenceTransitive<T>(a: seq<T>, b: seq<T>, c: seq<T>)
    requires IsSubsequence(a, b) && IsSubsequence(b, c)
    ensures IsSubsequence(a, c)
    decreases |c|
  {
    if c == [] {
      assert b == [];
    } else if b != [] && b[0] == c[0] && IsSubsequence(b[1..], c[1..]) {
      if a != [] && a[0] == b[0] && IsSubsequence(a[1..], b[1..]) {
        SubsequenceTransitive(a[1..], b[1..], c[1..]);
      } else {
        assert b != [];
        assert IsSubsequence(a, b[1..]);
        SubsequenceTransitive(a, b[1..], c[1..]);
      }
    } else {
      SubsequenceTransitive(a, b, c[1..]);
    }
  }

  /** A subsequence holds no entry more often than the sequence does. */
  lemma {:induction false} SubsequenceMultiset<T>(r: seq<T>, s: seq<T>)
    requires IsSubsequence(r, s)
    ensures multiset(r) <= multiset(s)
    decreases |s|
  {
    if s == [] {
    } else if r != [] && r[0] == s[0] && IsSubsequence(r[1..], s[1..]) {
      SubsequenceMultiset(r[1..], s[1..]);
      assert r == [r[0]] + r[1..];
      assert s == [s[0]] + s[1..];
    } else {
      SubsequenceMultiset(r, s[1..]);
      assert s == [s[0]] + s[1..];
    }
  }

  /** A subsequence of a sequence without repeats has none either. */
  lemma {:induction false} DistinctSubsequence<T>(r: seq<T>, s: seq<T>)
    requires IsSubsequence(r, s) && Distinct(s)
    ensures Distinct(r)
    decreases |s|
  {
    if s == [] {
    } else if r != [] && r[0] == s[0] && IsSubsequence(r[1..], s[1..]) {
      DistinctSubsequence(r[1..], s[1..]);
      SubsequenceMultiset(r[1..], s[1..]);
      assert s[0] !in multiset(s[1..]);
      assert r[0] !in multiset(r[1..]);
      forall i, j | 0 <= i < j < |r|
        ensures r[i] != r[j]
      {
        if i == 0 {
          assert r[j] == r[1..][j - 1];
          assert r[j] in multiset(r[1..]);
        } else {
          assert r[i] == r[1..][i - 1] && r[j] == r[1..][j - 1];
        }
      }
    } else {
      DistinctSubsequence(r, s[1..]);
    }
  }

  lemma NonEmptyHasMember(s: set<real>)
    requires s != {}
    ensures exists x :: x in s
  {
    if forall x :: x !in s {
      assert false;
    }
  }

  /** SortedList<float, _>.Keys.First(): the least key. */
  method SmallestKey(keys: set<real>) returns (k: real)
    requires keys != {}
    ensures k in keys
    ensures forall j :: j in keys ==> k <= j
  {
    NonEmptyHasMember(keys);
    k :| k in keys;
    var left := keys - {k};
    while left != {}
      invariant k in keys && left <= keys
      invariant forall j :: j in keys && j !in left ==> k <= j
      decreases |left|
    {
      NonEmptyHasMember(left);
      var j :| j in left;
      if j < k {
        k := j;
      }
      left := left - {j};
    }
  }
}
