/**
 * The JavaScript array built-ins the stores and handlers rely on
 * (`findIndex`, `indexOf`, `splice(i, 1)`, `filter`), stated on sequences.
 */
module Seqs {

  /** `Array.prototype.findIndex`: position of the first element satisfying `p`, or -1. */
  function FindIndex<T>(s: seq<T>, p: T -> bool): (r: int)
    ensures -1 <= r < |s|
    ensures r == -1 <==> forall k :: 0 <= k < |s| ==> !p(s[k])
    ensures r >= 0 ==> p(s[r]) && forall k :: 0 <= k < r ==> !p(s[k])
  {
    if s == [] then -1
    else if p(s[0]) then 0
    else
      var r := FindIndex(s[1..], p);
      if r == -1 then -1 else r + 1
  }

  /** `Array.prototype.indexOf` on values compared with `===`. */
  function IndexOf<T(==)>(s: seq<T>, x: T): (r: int)
    ensures -1 <= r < |s|
    ensures r == -1 <==> x !in s
    ensures r >= 0 ==> s[r] == x && x !in s[..r]
  {
    FindIndex(s, y => y == x)
  }

  /** `splice(i, 1)`: the element at `i` is dropped, the others keep their order. */
  function RemoveAt<T>(s: seq<T>, i: int): (r: seq<T>)
    requires 0 <= i < |s|
    ensures |r| == |s| - 1
    ensures forall k :: 0 <= k < i ==> r[k] == s[k]
    ensures forall k :: i <= k < |r| ==> r[k] == s[k + 1]
  {
    s[..i] + s[i + 1..]
  }

  /** Reference definition: drop the first element satisfying `p`, if there is one. */
  function RemoveFirstWhere<T>(s: seq<T>, p: T -> bool): seq<T>
  {
    if s == [] then []
    else if p(s[0]) then s[1..]
    else [s[0]] + RemoveFirstWhere(s[1..], p)
  }

  /** The `findIndex` + `splice` idiom of the stores removes exactly the first match. */
  lemma {:induction false} SpliceFoundIsRemoveFirst<T>(s: seq<T>, p: T -> bool)
    ensures FindIndex(s, p) == -1 ==> RemoveFirstWhere(s, p) == s
    ensures FindIndex(s, p) >= 0 ==> RemoveAt(s, FindIndex(s, p)) == RemoveFirstWhere(s, p)
  {
    if s != [] && !p(s[0]) {
      var t := s[1..];
      SpliceFoundIsRemoveFirst(t, p);
      var r := FindIndex(t, p);
      assert RemoveFirstWhere(s, p) == [s[0]] + RemoveFirstWhere(t, p);
      if r >= 0 {
        RemoveAtCons(s, r);
      } else {
        assert s == [s[0]] + t;
      }
    }
  }

  /** Removing past the head of a sequence removes from its tail. */
  lemma RemoveAtCons<T>(s: seq<T>, i: nat)
    requires i + 1 < |s|
    ensures RemoveAt(s, i + 1) == [s[0]] + RemoveAt(s[1..], i)
  {
    assert s[..i + 1] == [s[0]] + s[1..][..i];
    assert s[i + 2..] == s[1..][i + 1..];
  }

  /** Removing the first match takes exactly one copy of it out of the multiset. */
  lemma {:induction false} RemoveFirstMultiset<T>(s: seq<T>, p: T -> bool)
    ensures FindIndex(s, p) >= 0 ==>
      multiset(RemoveFirstWhere(s, p)) == multiset(s) - multiset{s[FindIndex(s, p)]}
    ensures FindIndex(s, p) == -1 ==> RemoveFirstWhere(s, p) == s
  {
    if s != [] {
      if p(s[0]) {
        assert s == [s[0]] + s[1..];
      } else {
        RemoveFirstMultiset(s[1..], p);
        assert s == [s[0]] + s[1..];
      }
    }
  }

  /** `Array.prototype.filter`, written as a fold from the left so that it follows the scan order. */
  function Filter<T>(s: seq<T>, p: T -> bool): (r: seq<T>)
    ensures |r| <= |s|
    ensures forall x :: x in r ==> x in s && p(x)
    ensures forall k :: 0 <= k < |s| && p(s[k]) ==> s[k] in r
  {
    if s == [] then []
    else
      var init := Filter(s[..|s| - 1], p);
      assert forall k :: 0 <= k < |s| - 1 ==> s[..|s| - 1][k] == s[k];
      if p(s[|s| - 1]) then init + [s[|s| - 1]] else init
  }

  /** Filtering distributes over concatenation, so the kept elements stay in their original order. */
  lemma {:induction false} FilterConcat<T>(s: seq<T>, t: seq<T>, p: T -> bool)
    ensures Filter(s + t, p) == Filter(s, p) + Filter(t, p)
    decreases |t|
  {
    if t == [] {
      assert s + t == s;
    } else {
      var t' := t[..|t| - 1];
      assert (s + t)[..|s + t| - 1] == s + t';
      FilterConcat(s, t', p);
    }
  }

  /** A filter that keeps everything is the identity. */
  lemma {:induction false} FilterAll<T>(s: seq<T>, p: T -> bool)
    requires forall k :: 0 <= k < |s| ==> p(s[k])
    ensures Filter(s, p) == s
  {
    if s != [] {
      FilterAll(s[..|s| - 1], p);
      assert s[..|s| - 1] + [s[|s| - 1]] == s;
    }
  }

  /** Concatenation is associative; stated once so that proofs can cite it instead of rediscovering it. */
  lemma AppendAssoc<T>(a: seq<T>, b: seq<T>, c: seq<T>)
    ensures (a + b) + c == a + (b + c)
  {
  }

  /** No value occurs twice. */
  predicate NoDuplicates<T(==)>(s: seq<T>)
  {
    forall i, j :: 0 <= i < j < |s| ==> s[i] != s[j]
  }

  /** Whatever survives the removal was there before. */
  lemma {:induction false} RemoveFirstSubset<T>(s: seq<T>, p: T -> bool)
    ensures forall x :: x in RemoveFirstWhere(s, p) ==> x in s
  {
    if s != [] && !p(s[0]) {
      RemoveFirstSubset(s[1..], p);
    }
  }

  /** Removing an element cannot create a duplicate. */
  lemma {:induction false} RemoveFirstNoDuplicates<T>(s: seq<T>, p: T -> bool)
    requires NoDuplicates(s)
    ensures NoDuplicates(RemoveFirstWhere(s, p))
  {
    if s != [] && !p(s[0]) {
      var t := RemoveFirstWhere(s[1..], p);
      RemoveFirstNoDuplicates(s[1..], p);
      RemoveFirstSubset(s[1..], p);
      assert s[0] !in s[1..] by {
        forall k | 0 <= k < |s[1..]|
          ensures s[1..][k] != s[0]
        {
          assert s[1..][k] == s[k + 1];
        }
      }
      assert s[0] !in t;
      ConsNoDuplicates(s[0], t);
    }
  }

  lemma ConsNoDuplicates<T>(x: T, t: seq<T>)
    requires x !in t && NoDuplicates(t)
    ensures NoDuplicates([x] + t)
  {
    forall i, j | 0 <= i < j < |[x] + t|
      ensures ([x] + t)[i] != ([x] + t)[j]
    {
      if i == 0 {
        assert ([x] + t)[j] == t[j - 1];
      } else {
        assert ([x] + t)[i] == t[i - 1] && ([x] + t)[j] == t[j - 1];
      }
    }
  }

  /** Appending a value that is absent keeps the sequence free of duplicates. */
  lemma SnocNoDuplicates<T>(t: seq<T>, x: T)
    requires x !in t && NoDuplicates(t)
    ensures NoDuplicates(t + [x])
  {
    forall i, j | 0 <= i < j < |t + [x]|
      ensures (t + [x])[i] != (t + [x])[j]
    {
      assert (t + [x])[i] == t[i];
      if j == |t| {
        assert t[i] in t;
      } else {
        assert (t + [x])[j] == t[j];
      }
    }
  }

  /** Removing the first match right after appending the only match restores the sequence. */
  lemma {:induction false} RemoveFirstAfterAppend<T>(s: seq<T>, x: T, p: T -> bool)
    requires forall k :: 0 <= k < |s| ==> !p(s[k])
    requires p(x)
    ensures RemoveFirstWhere(s + [x], p) == s
  {
    if s != [] {
      assert (s + [x])[1..] == s[1..] + [x];
      RemoveFirstAfterAppend(s[1..], x, p);
    }
  }
}
