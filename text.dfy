/** The JavaScript string operations the handlers rely on: `trim`, `split` on
    one character, `join`, and decimal formatting of a count. */
module Text {

  /** The characters `String.prototype.trim` removes: white space and line terminators. */
  predicate IsWhitespace(c: char)
  {
    || c == ' ' || c == '\t' || c == '\n' || c == '\r' || c == '\U{B}' || c == '\U{C}'
    || c == '\U{A0}' || c == '\U{1680}' || ('\U{2000}' <= c <= '\U{200A}')
    || c == '\U{2028}' || c == '\U{2029}' || c == '\U{202F}' || c == '\U{205F}'
    || c == '\U{3000}' || c == '\U{FEFF}'
  }

  /** A string with no white space at either end. */
  predicate IsTrimmed(s: string)
  {
    s == [] || (!IsWhitespace(s[0]) && !IsWhitespace(s[|s| - 1]))
  }

  /** Drops the trailing white space: the result is a prefix of `s` that does not end with white space. */
  function TrimEnd(s: string): (r: string)
    ensures |r| <= |s| && r == s[..|r|]
    ensures r == [] || !IsWhitespace(r[|r| - 1])
  {
    if s != [] && IsWhitespace(s[|s| - 1]) then TrimEnd(s[..|s| - 1]) else s
  }

  /** `s.trim()`: drops the leading white space, then the trailing white space. */
  function Trim(s: string): (r: string)
    ensures IsTrimmed(r)
  {
    if s != [] && IsWhitespace(s[0]) then Trim(s[1..])
    else
      var r := TrimEnd(s);
      assert r != [] ==> r[0] == s[0];
      r
  }

  /** `s[i..j]` with only white space outside it. */
  predicate IsWindow(s: string, r: string, i: int, j: int)
  {
    0 <= i <= j <= |s| && r == s[i..j] &&
    (forall k :: 0 <= k < i ==> IsWhitespace(s[k])) && (forall k :: j <= k < |s| ==> IsWhitespace(s[k]))
  }

  /** Trimming only removes characters: the result is the piece `s[i..j]` of the original,
      and everything before `i` and from `j` on is white space. */
  lemma {:induction false} TrimIsSlice(s: string)
    ensures |Trim(s)| <= |s|
    ensures forall k :: 0 <= k < |Trim(s)| ==> Trim(s)[k] in s
    ensures exists i, j :: IsWindow(s, Trim(s), i, j)
  {
    if s != [] && IsWhitespace(s[0]) {
      TrimIsSlice(s[1..]);
      var i, j :| IsWindow(s[1..], Trim(s[1..]), i, j);
      WindowAfterWhitespace(s, Trim(s[1..]), i, j);
    } else {
      var r := TrimEnd(s);
      TrimEndDropsWhitespace(s);
      assert IsWindow(s, r, 0, |r|);
    }
  }

  /** A window of `s[1..]` is one of `s` when `s[0]` is white space. */
  lemma WindowAfterWhitespace(s: string, r: string, i: int, j: int)
    requires s != [] && IsWhitespace(s[0]) && IsWindow(s[1..], r, i, j)
    ensures IsWindow(s, r, i + 1, j + 1)
    ensures |r| <= |s| && forall k :: 0 <= k < |r| ==> r[k] in s
  {
    assert r == s[i + 1..j + 1];
    forall k | 0 <= k < i + 1 ensures IsWhitespace(s[k]) {
      if k > 0 { assert s[k] == s[1..][k - 1]; }
    }
    forall k | j + 1 <= k < |s| ensures IsWhitespace(s[k]) {
      assert s[k] == s[1..][k - 1];
    }
    forall k | 0 <= k < |r| ensures r[k] in s {
      assert r[k] == s[i + 1 + k];
    }
  }

  /** What `TrimEnd` drops is white space. */
  lemma {:induction false} TrimEndDropsWhitespace(s: string)
    ensures forall k :: |TrimEnd(s)| <= k < |s| ==> IsWhitespace(s[k])
  {
    if s != [] && IsWhitespace(s[|s| - 1]) {
      TrimEndDropsWhitespace(s[..|s| - 1]);
    }
  }

  /** Trimming a string that has no white space at either end changes nothing. */
  lemma {:induction false} TrimTrimmed(s: string)
    requires IsTrimmed(s)
    ensures Trim(s) == s
  {
  }

  /** Trimming removes white space put in front of a word. */
  lemma {:induction false} TrimAfterSpace(s: string)
    requires IsTrimmed(s)
    ensures Trim(" " + s) == s
  {
    var t := " " + s;
    assert t[1..] == s;
    TrimTrimmed(s);
  }

  function Split(s: string, c: char): (r: seq<string>)
    ensures |r| >= 1
  {
    if s == [] then [[]]
    else if s[0] == c then [[]] + Split(s[1..], c)
    else
      var rest := Split(s[1..], c);
      [[s[0]] + rest[0]] + rest[1..]
  }

  /** No piece of a split holds the separator. */
  lemma {:induction false} SplitPiecesFree(s: string, c: char)
    ensures forall k :: 0 <= k < |Split(s, c)| ==> c !in Split(s, c)[k]
  {
    if s != [] {
      SplitPiecesFree(s[1..], c);
      var rest := Split(s[1..], c);
      var r := Split(s, c);
      if s[0] == c {
        assert r[1..] == rest;
      } else {
        assert r[0] == [s[0]] + rest[0];
        assert r[1..] == rest[1..];
      }
    }
  }

  /** Joining the pieces of a split with its separator restores the string. */
  lemma {:induction false} SplitJoin(s: string, c: char)
    ensures Join(Split(s, c), [c]) == s
  {
    if s != [] {
      SplitJoin(s[1..], c);
      var rest := Split(s[1..], c);
      var r := Split(s, c);
      assert s == [s[0]] + s[1..];
      if s[0] == c {
        assert r[0] == [] && r[1..] == rest;
        assert Join(r, [c]) == [] + [c] + Join(rest, [c]);
      } else if |rest| == 1 {
        assert r == [[s[0]] + rest[0]];
      } else {
        assert r[0] == [s[0]] + rest[0] && r[1..] == rest[1..];
        assert Join(r, [c]) == r[0] + [c] + Join(rest[1..], [c]);
        assert Join(rest, [c]) == rest[0] + [c] + Join(rest[1..], [c]);
      }
    }
  }

  /** `pieces.join(sep)`. */
  function Join(pieces: seq<string>, sep: string): (r: string)
    ensures pieces == [] ==> r == ""
    ensures pieces != [] ==> |pieces[0]| <= |r| && r[..|pieces[0]|] == pieces[0]
  {
    if |pieces| == 0 then ""
    else if |pieces| == 1 then pieces[0]
    else pieces[0] + sep + Join(pieces[1..], sep)
  }

  /** Decimal digits of a natural number, as template literals print it. */
  function NatToString(n: nat): (r: string)
    ensures r != []
    ensures forall k :: 0 <= k < |r| ==> '0' <= r[k] <= '9'
  {
    if n < 10 then [Digit(n)] else NatToString(n / 10) + [Digit(n % 10)]
  }

  function Digit(d: nat): (c: char)
    requires d < 10
    ensures '0' <= c <= '9' && c as int - '0' as int == d
  {
    ('0' as int + d) as char
  }

  /** The number a string of decimal digits denotes. */
  function DecimalValue(s: string): nat
    requires forall k :: 0 <= k < |s| ==> '0' <= s[k] <= '9'
  {
    if s == [] then 0 else DecimalValue(s[..|s| - 1]) * 10 + (s[|s| - 1] as int - '0' as int)
  }

  /** The digits printed for `n` denote `n`. */
  lemma {:induction false} NatToStringValue(n: nat)
    ensures DecimalValue(NatToString(n)) == n
  {
    var r := NatToString(n);
    if n < 10 {
      assert r[..0] == [];
    } else {
      var p := NatToString(n / 10);
      assert r[..|r| - 1] == p;
      NatToStringValue(n / 10);
      assert DecimalValue(r) == DecimalValue(p) * 10 + n % 10;
    }
  }
}
