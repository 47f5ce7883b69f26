/** Values shared by every component: optional values and the outcome of an awaited call. */
module Common {

  datatype Option<+T> = None | Some(value: T)

  /** A rejected promise. `message` is the thrown error's `message`, `serverMessage`
      is `err.response?.data?.message`; the empty string stands for a missing value,
      which JavaScript treats as falsy. */
  datatype Failure = Failure(message: string, serverMessage: string)

  /** The settled value of an awaited network or library call. */
  datatype Outcome<+T> = Ok(value: T) | Err(failure: Failure)

  /** The status record `{ loading, error, success }` the detail page keeps per operation. */
  datatype Status = Status(loading: bool, error: Option<string>, success: bool)

  const Idle := Status(false, None, false)
  const InFlight := Status(true, None, false)

  /** JavaScript's `s || fallback` on strings. */
  function OrElse(s: string, fallback: string): (r: string)
    ensures s != "" ==> r == s
    ensures s == "" ==> r == fallback
  {
    if s == "" then fallback else s
  }

  /** `b` contains the elements of `a` in the same order, possibly with others in between. */
  predicate IsSubsequence<T(==)>(a: seq<T>, b: seq<T>)
  {
    a == [] || (b != [] && (IsSubsequence(a, b[1..]) || (a[0] == b[0] && IsSubsequence(a[1..], b[1..]))))
  }

  /** `list.filter(Boolean)` on strings: the empty string is the only falsy one. */
  function DropEmpty(pieces: seq<string>): (r: seq<string>)
    ensures |r| <= |pieces|
  {
    if pieces == [] then []
    else if pieces[0] == "" then DropEmpty(pieces[1..])
    else [pieces[0]] + DropEmpty(pieces[1..])
  }

  /** A list without empty entries comes back unchanged from the filter. */
  lemma {:induction false} DropEmptyNoEmpty(pieces: seq<string>)
    requires forall k :: 0 <= k < |pieces| ==> pieces[k] != ""
    ensures DropEmpty(pieces) == pieces
  {
    if pieces != [] {
      DropEmptyNoEmpty(pieces[1..]);
    }
  }

  /** The filter keeps the surviving entries in their original order. */
  lemma {:induction false} DropEmptyKeepsOrder(pieces: seq<string>)
    ensures IsSubsequence(DropEmpty(pieces), pieces)
  {
    if pieces != [] {
      DropEmptyKeepsOrder(pieces[1..]);
      if pieces[0] != "" {
        assert DropEmpty(pieces)[1..] == DropEmpty(pieces[1..]);
      }
    }
  }

  /** An entry survives the filter exactly when it is non-empty. */
  lemma {:induction false} DropEmptyMembers(pieces: seq<string>)
    ensures forall x :: x in DropEmpty(pieces) <==> x in pieces && x != ""
  {
    if pieces != [] {
      DropEmptyMembers(pieces[1..]);
      assert pieces == [pieces[0]] + pieces[1..];
    }
  }

  /** The filter keeps every non-empty entry as often as it occurs, and no empty one. */
  lemma {:induction false} DropEmptyCounts(pieces: seq<string>)
    ensures multiset(DropEmpty(pieces))[""] == 0
    ensures forall x :: x != "" ==> multiset(DropEmpty(pieces))[x] == multiset(pieces)[x]
  {
    if pieces != [] {
      DropEmptyCounts(pieces[1..]);
      assert pieces == [pieces[0]] + pieces[1..];
      assert multiset(pieces) == multiset{pieces[0]} + multiset(pieces[1..]);
    }
  }
}
