/** Facts about sequences that are easier to prove once, for any element type. */
module Sequences {

  lemma PrefixByIndex<T>(a: seq<T>, b: seq<T>)
    requires |a| <= |b| && forall j :: 0 <= j < |a| ==> a[j] == b[j]
    ensures a <= b
    ensures |a| == |b| ==> a == b
  {
  }

  lemma AppendShift<T>(before: seq<T>, x: T, tail: seq<T>)
    ensures before + ([x] + tail) == before + [x] + tail
  {
  }

  lemma AppendNothing<T>(a: seq<T>)
    ensures a + [] == a && [] + a == a
  {
  }

  lemma PrefixCons<T>(x: T, a: seq<T>, b: seq<T>)
    requires a <= b
    ensures [x] + a <= [x] + b
  {
  }

  lemma ConcatAssociates<T>(a: seq<T>, b: seq<T>, c: seq<T>)
    ensures a + (b + c) == (a + b) + c
  {
  }

  lemma SliceOfPrefix<T>(s: seq<T>, k: nat, n: nat)
    requires n <= k <= |s|
    ensures s[..k][..n] == s[..n]
    ensures s[..k][n..] == s[n..][..k - n]
  {
  }

  lemma SplitRest<T>(s: seq<T>, i: nat, j: nat)
    requires i <= j <= |s|
    ensures s[i..] == s[i..j] + s[j..]
  {
  }

  /** The map a list of assignments leaves behind. */
  function Assigned<K, V>(pairs: seq<(K, V)>): map<K, V> {
    if pairs == [] then map[] else Assigned(pairs[..|pairs| - 1])[pairs[|pairs| - 1].0 := pairs[|pairs| - 1].1]
  }

  lemma {:induction false} AssignedFrom<K, V>(pairs: seq<(K, V)>, k: K) returns (j: nat)
    requires k in Assigned(pairs)
    ensures j < |pairs| && pairs[j].0 == k && pairs[j].1 == Assigned(pairs)[k]
  {
    var n := |pairs| - 1;
    if pairs[n].0 == k {
      j := n;
    } else {
      j := AssignedFrom(pairs[..n], k);
    }
  }

  lemma {:induction false} AssignedKeeps<K, V>(pairs: seq<(K, V)>, j: nat)
    requires j < |pairs| && forall k :: j < k < |pairs| ==> pairs[k].0 != pairs[j].0
    ensures pairs[j].0 in Assigned(pairs) && Assigned(pairs)[pairs[j].0] == pairs[j].1
  {
    var n := |pairs| - 1;
    if j < n {
      AssignedKeeps(pairs[..n], j);
    }
  }

  lemma AssignedMore<K, V>(pairs: seq<(K, V)>, n: nat)
    requires n < |pairs|
    ensures Assigned(pairs[..n + 1]) == Assigned(pairs[..n])[pairs[n].0 := pairs[n].1]
  {
    assert pairs[..n + 1][..n] == pairs[..n];
  }

  lemma MinusTwice<K, V>(m: map<K, V>, a: set<K>, b: set<K>)
    ensures (m - a) - b == m - (a + b)
  {
  }

  lemma SetMinusTwice<K>(m: set<K>, a: set<K>, b: set<K>)
    ensures (m - a) - b == m - (a + b)
  {
  }

  lemma MinusAbsent<K, V>(m: map<K, V>, a: set<K>)
    requires a !! m.Keys
    ensures m - a == m
  {
  }
}
