/**
 * The JavaScript string operations the core relies on, over `seq<char>`:
 * `trim`, `split` on one character, `toLowerCase`, `includes`, `startsWith`
 * and the decimal rendering of an integer in a template literal.
 */
module Text {

  /** ECMAScript WhiteSpace and LineTerminator code points: what `String.prototype.trim` removes. */
  predicate IsWhiteSpace(c: char) {
    || c == ' ' || ('\t' <= c <= '\r') || c == '\U{00A0}' || c == '\U{1680}'
    || ('\U{2000}' <= c <= '\U{200A}')
    || c == '\U{2028}' || c == '\U{2029}' || c == '\U{202F}' || c == '\U{205F}'
    || c == '\U{3000}' || c == '\U{FEFF}'
  }

  predicate AllWhiteSpace(s: string) {
    forall k :: 0 <= k < |s| ==> IsWhiteSpace(s[k])
  }

  /** Drops leading white space: the result is a suffix of `s` and what was dropped is all white space. */
  function TrimStart(s: string): (r: string)
    ensures |r| <= |s| && r == s[|s| - |r|..]
    ensures forall k :: 0 <= k < |s| - |r| ==> IsWhiteSpace(s[k])
    ensures r != [] ==> !IsWhiteSpace(r[0])
  {
    if s != [] && IsWhiteSpace(s[0]) then
      var r := TrimStart(s[1..]);
      assert forall k :: 1 <= k < |s| ==> s[k] == s[1..][k - 1];
      r
    else s
  }

  /** Drops trailing white space: the result is a prefix of `s` and what was dropped is all white space. */
  function TrimEnd(s: string): (r: string)
    ensures |r| <= |s| && r == s[..|r|]
    ensures forall k :: |r| <= k < |s| ==> IsWhiteSpace(s[k])
    ensures r != [] ==> !IsWhiteSpace(r[|r| - 1])
  {
    if s != [] && IsWhiteSpace(s[|s| - 1]) then
      var r := TrimEnd(s[..|s| - 1]);
      assert forall k :: 0 <= k < |s| - 1 ==> s[k] == s[..|s| - 1][k];
      r
    else s
  }

  /** `s.trim()`: empty exactly when `s` is all white space. */
  function Trim(s: string): (r: string)
    ensures |r| <= |s|
    ensures r == [] <==> AllWhiteSpace(s)
  {
    var t := TrimStart(s);
    var r := TrimEnd(t);
    assert forall k :: |s| - |t| <= k < |s| ==> s[k] == t[k - (|s| - |t|)];
    r
  }

  /** A trimmed text neither starts nor ends with white space. */
  lemma TrimmedEnds(s: string)
    ensures var r := Trim(s); r != [] ==> !IsWhiteSpace(r[0]) && !IsWhiteSpace(r[|r| - 1])
  {
    var t := TrimStart(s);
    var r := TrimEnd(t);
    if r != [] {
      assert r[0] == t[0];
    }
  }

  /** Trimming twice is trimming once. */
  lemma TrimIdempotent(s: string)
    ensures Trim(Trim(s)) == Trim(s)
  {
    var r := Trim(s);
    TrimmedEnds(s);
    if r != [] {
      assert TrimStart(r) == r;
      assert TrimEnd(r) == r;
    }
  }

  /** Trimming only removes characters, so a character absent from `s` is absent from its trim. */
  lemma TrimOmits(s: string, c: char)
    requires c !in s
    ensures c !in Trim(s)
  {
    var t := TrimStart(s);
    var r := TrimEnd(t);
    assert forall i :: 0 <= i < |r| ==> r[i] == s[|s| - |t| + i];
  }

  /** A blank in front changes nothing once the text is trimmed. */
  lemma TrimLeadingBlank(c: char, s: string)
    requires IsWhiteSpace(c)
    ensures Trim([c] + s) == Trim(s)
  {
    assert ([c] + s)[1..] == s;
  }

  predicate StartsWith(s: string, prefix: string) {
    |prefix| <= |s| && s[..|prefix|] == prefix
  }

  predicate OccursAt(hay: string, needle: string, i: int) {
    0 <= i && i + |needle| <= |hay| && hay[i..i + |needle|] == needle
  }

  /** `hay.includes(needle)`. */
  predicate Includes(hay: string, needle: string) {
    exists i | 0 <= i <= |hay| - |needle| :: OccursAt(hay, needle, i)
  }

  /** Every string includes the empty string, so an empty search term matches everything. */
  lemma IncludesEmpty(hay: string)
    ensures Includes(hay, "")
  {
    assert OccursAt(hay, "", 0);
  }

  /** ASCII case folding, the part of `toLowerCase` the model keeps. */
  function LowerChar(c: char): char {
    if 'A' <= c <= 'Z' then (c as int + 32) as char else c
  }

  /** `s.toLowerCase()` restricted to ASCII: same length, no upper-case ASCII letter left, other characters kept. */
  function ToLower(s: string): (r: string)
    ensures |r| == |s|
    ensures forall i :: 0 <= i < |r| ==> !('A' <= r[i] <= 'Z')
    ensures forall i :: 0 <= i < |r| && !('A' <= s[i] <= 'Z') ==> r[i] == s[i]
  {
    seq(|s|, i requires 0 <= i < |s| => LowerChar(s[i]))
  }

  /** Lower-casing twice is lower-casing once. */
  lemma ToLowerIdempotent(s: string)
    ensures ToLower(ToLower(s)) == ToLower(s)
  {
  }

  /** Case-insensitive containment as the pages write it: `a.toLowerCase().includes(b.toLowerCase())`. */
  predicate IncludesIgnoringCase(hay: string, needle: string) {
    Includes(ToLower(hay), ToLower(needle))
  }

  /**
   * `s.split(sep)` for a one-character separator: the pieces between
   * separators, in order, never fewer than one and none holding `sep`.
   */
  function Split(s: string, sep: char): (pieces: seq<string>)
    ensures |pieces| >= 1
    ensures forall i :: 0 <= i < |pieces| ==> sep !in pieces[i]
  {
    if s == [] then [""]
    else
      var rest := Split(s[1..], sep);
      if s[0] == sep then [""] + rest
      else [[s[0]] + rest[0]] + rest[1..]
  }

  /** `pieces.join(sep)`. */
  function Join(pieces: seq<string>, sep: char): string
    requires |pieces| >= 1
  {
    if |pieces| == 1 then pieces[0] else pieces[0] + [sep] + Join(pieces[1..], sep)
  }

  /** Splitting loses nothing: joining the pieces gives back the text. */
  lemma {:induction false} JoinSplit(s: string, sep: char)
    ensures Join(Split(s, sep), sep) == s
  {
    if s != [] {
      var rest := Split(s[1..], sep);
      JoinSplit(s[1..], sep);
      if s[0] != sep && |rest| > 1 {
        assert Join(rest, sep) == rest[0] + [sep] + Join(rest[1..], sep);
      }
    }
  }

  lemma {:induction false} SplitWithoutSeparator(p: string, sep: char)
    requires sep !in p
    ensures Split(p, sep) == [p]
  {
    if p != [] {
      SplitWithoutSeparator(p[1..], sep);
      assert [p[0]] + p[1..] == p;
    }
  }

  lemma {:induction false} SplitAtSeparator(p: string, t: string, sep: char)
    requires sep !in p
    ensures Split(p + [sep] + t, sep) == [p] + Split(t, sep)
  {
    var s := p + [sep] + t;
    if p == [] {
      assert s[1..] == t;
    } else {
      assert s[1..] == p[1..] + [sep] + t;
      SplitAtSeparator(p[1..], t, sep);
      assert [p[0]] + p[1..] == p;
    }
  }

  /** Joining pieces free of the separator and splitting again gives the same pieces. */
  lemma {:induction false} SplitJoin(pieces: seq<string>, sep: char)
    requires |pieces| >= 1
    requires forall i :: 0 <= i < |pieces| ==> sep !in pieces[i]
    ensures Split(Join(pieces, sep), sep) == pieces
  {
    if |pieces| == 1 {
      SplitWithoutSeparator(pieces[0], sep);
    } else {
      SplitJoin(pieces[1..], sep);
      SplitAtSeparator(pieces[0], Join(pieces[1..], sep), sep);
    }
  }

  predicate IsDigit(c: char) {
    '0' <= c <= '9'
  }

  function DigitChar(d: int): char
    requires 0 <= d < 10
  {
    ('0' as int + d) as char
  }

  /** The decimal digits JavaScript prints for a non-negative integer. */
  function NatToString(n: nat): (s: string)
    ensures |s| >= 1
    ensures forall i :: 0 <= i < |s| ==> IsDigit(s[i])
    ensures s[0] == '0' ==> n == 0 && s == "0"
  {
    if n < 10 then [DigitChar(n)] else NatToString(n / 10) + [DigitChar(n % 10)]
  }

  /** `${i}` for an integer: a minus sign before the digits of a negative value. */
  function IntToString(i: int): string {
    if i < 0 then "-" + NatToString(-i) else NatToString(i)
  }

  function ParseDigits(s: string): nat
    requires forall i :: 0 <= i < |s| ==> IsDigit(s[i])
  {
    if s == [] then 0
    else
      var last := s[|s| - 1];
      assert IsDigit(last);
      ParseDigits(s[..|s| - 1]) * 10 + (last as int - '0' as int)
  }

  /** Reading the printed digits back gives the number: the rendering is injective. */
  lemma {:induction false} ParseNatToString(n: nat)
    ensures ParseDigits(NatToString(n)) == n
  {
    if n >= 10 {
      var s := NatToString(n);
      ParseNatToString(n / 10);
      assert s[..|s| - 1] == NatToString(n / 10);
    }
  }
}
