/** Python's `sorted(xs, key=k, reverse=True)`: a stable sort into descending
    key order, written as an insertion sort. Its order and permutation
    properties are lemmas, so that only the proofs that ask for them see them. */
module Sorting {

  predicate SortedDesc<T>(s: seq<T>, key: T -> real) {
    forall i, j :: 0 <= i < j < |s| ==> key(s[i]) >= key(s[j])
  }

  /** Puts `x` in front of the first element whose key is not larger than its own,
      so that `x` stays ahead of the elements with an equal key. */
  function Insert<T>(x: T, s: seq<T>, key: T -> real): (r: seq<T>)
    ensures |r| == |s| + 1
  {
    if s == [] || key(x) >= key(s[0]) then [x] + s
    else [s[0]] + Insert(x, s[1..], key)
  }

  /** Putting in front an element whose key is not below the first one keeps a
      sequence descending. */
  lemma ConsSorted<T>(x: T, s: seq<T>, key: T -> real)
    requires SortedDesc(s, key)
    requires s == [] || key(x) >= key(s[0])
    ensures SortedDesc([x] + s, key)
  {
    var r := [x] + s;
    forall i, j | 0 <= i < j < |r|
      ensures key(r[i]) >= key(r[j])
    {
      if i == 0 {
        assert r[j] == s[j - 1];
        if j > 1 {
          assert key(s[0]) >= key(s[j - 1]);
        }
      } else {
        assert r[i] == s[i - 1] && r[j] == s[j - 1];
      }
    }
  }

  lemma TailSorted<T>(s: seq<T>, key: T -> real)
    requires SortedDesc(s, key) && s != []
    ensures SortedDesc(s[1..], key)
  {
    forall i, j | 0 <= i < j < |s| - 1
      ensures key(s[1..][i]) >= key(s[1..][j])
    {
      assert s[1..][i] == s[i + 1] && s[1..][j] == s[j + 1];
    }
  }

  /** Inserting into a descending sequence keeps it descending and adds exactly `x`. */
  lemma {:induction false} InsertSorted<T>(x: T, s: seq<T>, key: T -> real)
    requires SortedDesc(s, key)
    ensures SortedDesc(Insert(x, s, key), key)
    ensures multiset(Insert(x, s, key)) == multiset(s) + multiset{x}
    ensures key(Insert(x, s, key)[0]) == key(x) || (s != [] && key(Insert(x, s, key)[0]) == key(s[0]))
  {
    if s == [] || key(x) >= key(s[0]) {
      ConsSorted(x, s, key);
    } else {
      assert s == [s[0]] + s[1..];
      TailSorted(s, key);
      InsertSorted(x, s[1..], key);
      var t := Insert(x, s[1..], key);
      assert s[1..] != [] ==> key(s[0]) >= key(s[1..][0]);
      ConsSorted(s[0], t, key);
      assert Insert(x, s, key) == [s[0]] + t;
    }
  }

  /** The elements of `s` in descending key order; ties keep their input order. */
  function SortDesc<T>(s: seq<T>, key: T -> real): (r: seq<T>)
    ensures |r| == |s|
  {
    if s == [] then [] else Insert(s[0], SortDesc(s[1..], key), key)
  }

  /** Sorting gives a descending permutation of its input. */
  lemma {:induction false} SortDescSorted<T>(s: seq<T>, key: T -> real)
    ensures SortedDesc(SortDesc(s, key), key)
    ensures multiset(SortDesc(s, key)) == multiset(s)
  {
    if s != [] {
      assert s == [s[0]] + s[1..];
      SortDescSorted(s[1..], key);
      InsertSorted(s[0], SortDesc(s[1..], key), key);
    }
  }

  /** A prefix of a descending sequence is descending. */
  lemma PrefixSorted<T>(s: seq<T>, n: nat, key: T -> real)
    requires SortedDesc(s, key) && n <= |s|
    ensures SortedDesc(s[..n], key)
  {
  }

  /** Every element left out of a prefix of a descending sequence has a key no larger
      than any element kept. */
  lemma PrefixDominates<T>(s: seq<T>, n: nat, key: T -> real)
    requires SortedDesc(s, key) && n <= |s|
    ensures forall i, j :: 0 <= i < n <= j < |s| ==> key(s[i]) >= key(s[j])
  {
  }
}
