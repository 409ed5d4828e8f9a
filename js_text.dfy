/**
 * The JavaScript built-ins the quiz configuration rule relies on, over Dafny strings:
 * `String.prototype.trim`, `toLowerCase`, `includes`, the decimal rendering of an integer
 * inside a template literal, and `Math.ceil(seconds / 60)`.
 */
module JsText {

  /** WhiteSpace and LineTerminator code points of ECMA-262: what `trim` strips. */
  predicate IsWhiteSpace(ch: char) {
    var c := ch as int;
    c == 0x09 || c == 0x0A || c == 0x0B || c == 0x0C || c == 0x0D || c == 0x20
    || c == 0xA0 || c == 0x1680 || (0x2000 <= c <= 0x200A) || c == 0x2028 || c == 0x2029
    || c == 0x202F || c == 0x205F || c == 0x3000 || c == 0xFEFF
  }

  ghost predicate AllWhiteSpace(s: string) {
    forall k :: 0 <= k < |s| ==> IsWhiteSpace(s[k])
  }

  /** `r` is the piece of `s` starting at `i`, with only white space on either side of it. */
  ghost predicate IsInnerPiece(s: string, r: string, i: int) {
    && 0 <= i <= |s| - |r|
    && r == s[i..i + |r|]
    && (forall k :: 0 <= k < i ==> IsWhiteSpace(s[k]))
    && (forall k :: i + |r| <= k < |s| ==> IsWhiteSpace(s[k]))
  }

  /** The first position at or after `i` that holds no white space (or the end of `s`). */
  function SkipWhiteSpace(s: string, i: nat): (j: nat)
    requires i <= |s|
    ensures i <= j <= |s|
    ensures forall k :: i <= k < j ==> IsWhiteSpace(s[k])
    ensures j < |s| ==> !IsWhiteSpace(s[j])
    decreases |s| - i
  {
    if i == |s| || !IsWhiteSpace(s[i]) then i else SkipWhiteSpace(s, i + 1)
  }

  /** Moving left from `j`, no further than `lo`: the end of the last character that is not white space. */
  function SkipWhiteSpaceBack(s: string, lo: nat, j: nat): (e: nat)
    requires lo <= j <= |s|
    ensures lo <= e <= j
    ensures forall k :: e <= k < j ==> IsWhiteSpace(s[k])
    ensures e > lo ==> !IsWhiteSpace(s[e - 1])
    decreases j
  {
    if j == lo || !IsWhiteSpace(s[j - 1]) then j else SkipWhiteSpaceBack(s, lo, j - 1)
  }

  /**
   * `s.trim()`: the result is a contiguous piece of the input, everything around the piece
   * is white space, and the piece neither starts nor ends with white space.
   */
  function Trim(s: string): (r: string)
    ensures |r| <= |s|
    ensures exists i :: IsInnerPiece(s, r, i)
    ensures r != [] ==> !IsWhiteSpace(r[0]) && !IsWhiteSpace(r[|r| - 1])
  {
    var i := SkipWhiteSpace(s, 0);
    var j := SkipWhiteSpaceBack(s, i, |s|);
    assert IsInnerPiece(s, s[i..j], i);
    s[i..j]
  }

  /** Trimming yields the empty string exactly when the input is all white space. */
  lemma TrimEmptyIff(s: string)
    ensures Trim(s) == [] <==> AllWhiteSpace(s)
  {
    var i := SkipWhiteSpace(s, 0);
    if i < |s| {
      assert !IsWhiteSpace(s[i]);
      assert SkipWhiteSpaceBack(s, i, |s|) > i;
    }
  }

  /** Trimming twice is trimming once. */
  lemma TrimIdempotent(s: string)
    ensures Trim(Trim(s)) == Trim(s)
  {
    var r := Trim(s);
    if r != [] {
      assert SkipWhiteSpace(r, 0) == 0;
      assert SkipWhiteSpaceBack(r, 0, |r|) == |r|;
      assert r[0..|r|] == r;
    }
  }

  /** `ch.toLowerCase()` on the ASCII letters; every other character is left as it is. */
  function ToLowerChar(ch: char): (r: char)
    ensures 'A' <= ch <= 'Z' ==> r as int == ch as int + 32
    ensures !('A' <= ch <= 'Z') ==> r == ch
  {
    if 'A' <= ch <= 'Z' then (ch as int + 32) as char else ch
  }

  /** `s.toLowerCase()`: same length, each character lowered in place. */
  function ToLower(s: string): (r: string)
    ensures |r| == |s|
    ensures forall k :: 0 <= k < |s| ==> r[k] == ToLowerChar(s[k])
  {
    seq(|s|, k requires 0 <= k < |s| => ToLowerChar(s[k]))
  }

  /**
   * `s.includes(sub)`: `sub` occurs as a contiguous piece of `s`. Only a piece no longer
   * than `s` can occur, and a string always includes itself.
   */
  predicate Includes(s: string, sub: string)
    ensures Includes(s, sub) ==> |sub| <= |s|
    ensures s == sub ==> Includes(s, sub)
  {
    assert s == sub ==> OccursAt(s, sub, 0);
    exists i | 0 <= i <= |s| - |sub| :: OccursAt(s, sub, i)
  }

  predicate OccursAt(s: string, sub: string, i: int) {
    0 <= i <= |s| - |sub| && s[i..i + |sub|] == sub
  }

  /** A string includes whatever either of its two halves includes. */
  lemma IncludesAppended(s: string, t: string, x: string)
    ensures Includes(s, x) ==> Includes(s + t, x)
    ensures Includes(t, x) ==> Includes(s + t, x)
  {
    if Includes(s, x) {
      var i :| 0 <= i <= |s| - |x| && OccursAt(s, x, i);
      assert (s + t)[i..i + |x|] == s[i..i + |x|];
      assert OccursAt(s + t, x, i);
    }
    if Includes(t, x) {
      var i :| 0 <= i <= |t| - |x| && OccursAt(t, x, i);
      assert (s + t)[|s| + i..|s| + i + |x|] == t[i..i + |x|];
      assert OccursAt(s + t, x, |s| + i);
    }
  }

  /** A string includes the piece in its middle. */
  lemma IncludesPiece(before: string, piece: string, after: string)
    ensures Includes(before + piece + after, piece)
  {
    IncludesAppended(before, piece, piece);
    IncludesAppended(before + piece, after, piece);
  }

  /** The items of `parts` with `sep` between each two of them, as in a list of field names. */
  function Join(parts: seq<string>, sep: string): string {
    if |parts| <= 1 then (if parts == [] then "" else parts[0])
    else parts[0] + sep + Join(parts[1..], sep)
  }

  /** A joined list includes every item of the list. */
  lemma {:induction false} JoinIncludesEach(parts: seq<string>, sep: string)
    ensures forall i :: 0 <= i < |parts| ==> Includes(Join(parts, sep), parts[i])
  {
    if |parts| > 1 {
      var rest := Join(parts[1..], sep);
      JoinIncludesEach(parts[1..], sep);
      IncludesPiece("", parts[0], sep + rest);
      assert "" + parts[0] + (sep + rest) == Join(parts, sep);
      forall i | 1 <= i < |parts| ensures Includes(Join(parts, sep), parts[i]) {
        assert parts[i] == parts[1..][i - 1];
        IncludesAppended(parts[0] + sep, rest, parts[i]);
      }
    }
  }

  predicate IsDigit(ch: char) {
    '0' <= ch <= '9'
  }

  predicate IsDecimal(s: string) {
    s != [] && forall k :: 0 <= k < |s| ==> IsDigit(s[k])
  }

  function DigitChar(d: nat): (ch: char)
    requires d < 10
    ensures IsDigit(ch) && ch as int - '0' as int == d
  {
    ('0' as int + d) as char
  }

  /** The decimal digits of a natural number, most significant first, no leading zero. */
  function NatToDecimal(n: nat): (s: string)
    ensures IsDecimal(s)
    ensures n == 0 <==> s == "0"
    ensures n > 0 ==> s[0] != '0'
    decreases n
  {
    if n < 10 then [DigitChar(n)] else NatToDecimal(n / 10) + [DigitChar(n % 10)]
  }

  /** The value of a string of decimal digits. */
  function ParseDecimal(s: string): nat
    requires forall k :: 0 <= k < |s| ==> IsDigit(s[k])
  {
    if s == [] then 0
    else
      var last := s[|s| - 1];
      assert IsDigit(last);
      10 * ParseDecimal(s[..|s| - 1]) + (last as int - '0' as int)
  }

  /** Rendering a natural number in decimal loses nothing: parsing gives it back. */
  lemma {:induction false} ParseNatToDecimal(n: nat)
    ensures ParseDecimal(NatToDecimal(n)) == n
    decreases n
  {
    var s := NatToDecimal(n);
    if n >= 10 {
      ParseNatToDecimal(n / 10);
      assert s[..|s| - 1] == NatToDecimal(n / 10);
    }
  }

  /**
   * `${i}` for an integer-valued Number: the canonical decimal digits, with a minus sign in
   * front of a negative value; reading the digits back gives the magnitude.
   */
  function IntToDecimal(i: int): (s: string)
    ensures i >= 0 ==> s == NatToDecimal(i) && ParseDecimal(s) == i
    ensures i < 0 ==> |s| >= 2 && s[0] == '-' && s[1..] == NatToDecimal(-i) && ParseDecimal(s[1..]) == -i
  {
    if i < 0 then
      ParseNatToDecimal(-i);
      "-" + NatToDecimal(-i)
    else
      ParseNatToDecimal(i);
      NatToDecimal(i)
  }

  /** A text that ends in a joined list includes every item of the list. */
  lemma ListIncludesEach(head: string, parts: seq<string>, sep: string)
    ensures forall i :: 0 <= i < |parts| ==> Includes(head + Join(parts, sep), parts[i])
  {
    JoinIncludesEach(parts, sep);
    forall i | 0 <= i < |parts| ensures Includes(head + Join(parts, sep), parts[i]) {
      IncludesAppended(head, Join(parts, sep), parts[i]);
    }
  }

  /** The renderings of the small numbers that appear in fixed message texts. */
  lemma SmallDecimals()
    ensures IntToDecimal(1) == "1" && IntToDecimal(2) == "2"
    ensures IntToDecimal(20) == "20" && IntToDecimal(30) == "30"
  {
    assert NatToDecimal(2) == "2" && NatToDecimal(3) == "3" && DigitChar(0) == '0';
  }

  /** `Math.ceil(seconds / 60)`: the least whole number of minutes covering `seconds`. */
  function MinutesRoundedUp(seconds: int): (m: int)
    ensures 60 * (m - 1) < seconds <= 60 * m
  {
    -((-seconds) / 60)
  }
}
