/** The `splice` idiom the drag handlers use on a copied array:
    `const [x] = a.splice(from, 1); a.splice(to, 0, x);` */
module Splice {

  /** `a.splice(i, 1)` on a copy: the sequence without its element at `i`. */
  function RemoveAt<T>(s: seq<T>, i: nat): (r: seq<T>)
    requires i < |s|
    ensures |r| == |s| - 1
    ensures forall k :: 0 <= k < i ==> r[k] == s[k]
    ensures forall k :: i <= k < |r| ==> r[k] == s[k + 1]
  {
    s[..i] + s[i + 1..]
  }

  /** `a.splice(i, 0, x)` on a copy: `x` inserted before position `i`. */
  function InsertAt<T>(s: seq<T>, i: nat, x: T): (r: seq<T>)
    requires i <= |s|
    ensures |r| == |s| + 1 && r[i] == x
    ensures forall k :: 0 <= k < i ==> r[k] == s[k]
    ensures forall k :: i < k < |r| ==> r[k] == s[k - 1]
  {
    s[..i] + [x] + s[i..]
  }

  /** The position of the old sequence whose element ends up at position `k`
      after moving the element at `from` to `to`. */
  function MoveSource(from: nat, to: nat, k: nat): nat
  {
    if k == to then from
    else if from < to && from <= k < to then k + 1
    else if to < from && to < k <= from then k - 1
    else k
  }

  /** Remove the element at `from`, then insert it at `to`. */
  function Move<T>(s: seq<T>, from: nat, to: nat): (r: seq<T>)
    requires from < |s| && to < |s|
    ensures |r| == |s|
    ensures r[to] == s[from]
    ensures forall k :: 0 <= k < |s| ==> MoveSource(from, to, k) < |s| && r[k] == s[MoveSource(from, to, k)]
  {
    InsertAt(RemoveAt(s, from), to, s[from])
  }

  /** Moving keeps exactly the same elements with the same multiplicities. */
  lemma MovePermutes<T>(s: seq<T>, from: nat, to: nat)
    requires from < |s| && to < |s|
    ensures multiset(Move(s, from, to)) == multiset(s)
  {
    RemoveAtMultiset(s, from);
    InsertAtMultiset(RemoveAt(s, from), to, s[from]);
  }

  lemma RemoveAtMultiset<T>(s: seq<T>, i: nat)
    requires i < |s|
    ensures multiset(RemoveAt(s, i)) + multiset{s[i]} == multiset(s)
  {
    assert s == s[..i] + [s[i]] + s[i + 1..];
  }

  lemma InsertAtMultiset<T>(s: seq<T>, i: nat, x: T)
    requires i <= |s|
    ensures multiset(InsertAt(s, i, x)) == multiset(s) + multiset{x}
  {
    assert s == s[..i] + s[i..];
  }

  /** Every element other than the moved one stays in the same relative order:
      moving back undoes the move. */
  lemma MoveUndo<T>(s: seq<T>, from: nat, to: nat)
    requires from < |s| && to < |s|
    ensures Move(Move(s, from, to), to, from) == s
  {
    var m := Move(s, from, to);
    var b := Move(m, to, from);
    forall k | 0 <= k < |s|
      ensures b[k] == s[k]
    {
      MoveSourceInverse(from, to, k);
    }
  }

  lemma MoveSourceInverse(from: nat, to: nat, k: nat)
    ensures MoveSource(from, to, MoveSource(to, from, k)) == k
  {
  }

  /** A move onto its own position changes nothing. */
  lemma MoveInPlace<T>(s: seq<T>, i: nat)
    requires i < |s|
    ensures Move(s, i, i) == s
  {
    assert forall k :: 0 <= k < |s| ==> MoveSource(i, i, k) == k;
  }
}
