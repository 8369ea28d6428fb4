/**
 * The Python string built-ins the core relies on, restated over `string`
 * (a sequence of Unicode scalar values): `split` with a one-character
 * separator, `join`, the character-set `lstrip`/`rstrip`, `lower`,
 * `replace` of one character, `str(int)`, `int(str)` and the hexadecimal
 * digest text used by the seed derivation.
 */
module PyStr {
  import opened Wrappers

  type Byte = x: int | 0 <= x < 256

  predicate StartsWith(s: string, prefix: string) {
    |prefix| <= |s| && s[..|prefix|] == prefix
  }

  predicate EndsWith(s: string, suffix: string) {
    |suffix| <= |s| && s[|s| - |suffix|..] == suffix
  }

  // ---------------------------------------------------------------- split / join

  /** `s.split(sep)` for a one-character separator: never empty, and an empty
      string splits into one empty piece. */
  function Split(s: string, sep: char): (pieces: seq<string>)
    ensures |pieces| >= 1
    ensures forall i :: 0 <= i < |pieces| ==> sep !in pieces[i]
  {
    if |s| == 0 then [""]
    else
      var rest := Split(s[1..], sep);
      if s[0] == sep then [""] + rest else [[s[0]] + rest[0]] + rest[1..]
  }

  /** `sep.join(pieces)`. */
  function Join(pieces: seq<string>, sep: char): string {
    if |pieces| == 0 then ""
    else if |pieces| == 1 then pieces[0]
    else pieces[0] + [sep] + Join(pieces[1..], sep)
  }

  /** Splitting and joining again on the same separator gives back the text. */
  lemma {:induction false} JoinSplit(s: string, sep: char)
    ensures Join(Split(s, sep), sep) == s
  {
    if |s| > 0 {
      JoinSplit(s[1..], sep);
      var rest := Split(s[1..], sep);
      if s[0] != sep {
        if |rest| == 1 {
          assert Split(s, sep) == [[s[0]] + rest[0]];
        } else {
          assert Split(s, sep)[1..] == rest[1..];
        }
      }
    }
  }

  /** Joining pieces that do not contain the separator and splitting again
      gives back the pieces. */
  lemma {:induction false} SplitJoin(pieces: seq<string>, sep: char)
    requires |pieces| >= 1
    requires forall i :: 0 <= i < |pieces| ==> sep !in pieces[i]
    ensures Split(Join(pieces, sep), sep) == pieces
  {
    if |pieces| == 1 {
      SplitPiece(pieces[0], sep);
    } else {
      SplitJoin(pieces[1..], sep);
      SplitConcat(pieces[0], Join(pieces[1..], sep), sep);
      assert [pieces[0]] + pieces[1..] == pieces;
    }
  }

  lemma {:induction false} SplitPiece(p: string, sep: char)
    requires sep !in p
    ensures Split(p, sep) == [p]
  {
    if |p| > 0 {
      SplitPiece(p[1..], sep);
      assert [p[0]] + p[1..] == p;
    }
  }

  lemma {:induction false} SplitConcat(p: string, t: string, sep: char)
    requires sep !in p
    ensures Split(p + [sep] + t, sep) == [p] + Split(t, sep)
  {
    if |p| == 0 {
      assert p + [sep] + t == [sep] + t;
      assert ([sep] + t)[1..] == t;
    } else {
      SplitConcat(p[1..], t, sep);
      assert (p + [sep] + t)[1..] == p[1..] + [sep] + t;
      assert [p[0]] + p[1..] == p;
    }
  }

  lemma {:induction false} JoinSnoc(pieces: seq<string>, last: string, sep: char)
    requires |pieces| >= 1
    ensures Join(pieces + [last], sep) == Join(pieces, sep) + [sep] + last
  {
    if |pieces| == 1 {
      assert (pieces + [last])[1..] == [last];
    } else {
      JoinSnoc(pieces[1..], last, sep);
      assert (pieces + [last])[1..] == pieces[1..] + [last];
    }
  }

  /** A text holding the separator splits into at least two pieces. */
  lemma SplitHasSep(s: string, sep: char)
    requires sep in s
    ensures |Split(s, sep)| >= 2
  {
    JoinSplit(s, sep);
  }

  /** `s.split(sep)[-1]`. */
  function LastSegment(s: string, sep: char): string {
    var pieces := Split(s, sep);
    pieces[|pieces| - 1]
  }

  /** `sep.join(s.split(sep)[:-1])`: everything before the last separator,
      or "" when there is none. */
  function BeforeLast(s: string, sep: char): string {
    var pieces := Split(s, sep);
    Join(pieces[..|pieces| - 1], sep)
  }

  /** The last segment holds no separator and ends the text; when the text
      has a separator, the part before it, the separator and the last segment
      make up the whole text. */
  lemma LastSegmentShape(s: string, sep: char)
    ensures sep !in LastSegment(s, sep)
    ensures EndsWith(s, LastSegment(s, sep))
    ensures sep in s ==> BeforeLast(s, sep) + [sep] + LastSegment(s, sep) == s
    ensures sep !in s ==> BeforeLast(s, sep) == "" && LastSegment(s, sep) == s
  {
    var pieces := Split(s, sep);
    JoinSplit(s, sep);
    var n := |pieces|;
    if n == 1 {
      assert Join(pieces, sep) == pieces[0];
      assert s == pieces[0];
    } else {
      assert pieces == pieces[..n - 1] + [pieces[n - 1]];
      JoinSnoc(pieces[..n - 1], pieces[n - 1], sep);
      assert sep in s by {
        assert s[|Join(pieces[..n - 1], sep)|] == sep;
      }
    }
  }

  /** Appending a separator and a separator-free segment adds exactly that
      segment to the split, so it becomes the last segment and everything
      before it is the original text. */
  lemma SplitSnoc(s: string, sep: char, t: string)
    requires sep !in t
    ensures Split(s + [sep] + t, sep) == Split(s, sep) + [t]
    ensures LastSegment(s + [sep] + t, sep) == t
    ensures BeforeLast(s + [sep] + t, sep) == s
  {
    var ps := Split(s, sep);
    JoinSplit(s, sep);
    JoinSnoc(ps, t, sep);
    SplitJoin(ps + [t], sep);
    assert (ps + [t])[..|ps|] == ps;
  }

  // ---------------------------------------------------------------- strip

  /** `s.rstrip(chars)`: drops trailing characters that belong to the SET
      `chars`; it does not remove a suffix. */
  function RStrip(s: string, chars: set<char>): (r: string)
    ensures |r| <= |s| && r == s[..|r|]
    ensures r == [] || r[|r| - 1] !in chars
    ensures forall i :: |r| <= i < |s| ==> s[i] in chars
  {
    if |s| == 0 then s
    else if s[|s| - 1] in chars then RStrip(s[..|s| - 1], chars)
    else s
  }

  /** `s.lstrip(chars)`: drops leading characters that belong to `chars`. */
  function LStrip(s: string, chars: set<char>): (r: string)
    ensures |r| <= |s| && r == s[|s| - |r|..]
    ensures r == [] || r[0] !in chars
    ensures forall i :: 0 <= i < |s| - |r| ==> s[i] in chars
  {
    if |s| == 0 then s
    else if s[0] in chars then LStrip(s[1..], chars)
    else s
  }

  /** Stripping characters from the left removes a leading part made only
      of them, up to the first character outside the set. */
  lemma {:induction false} LStripPrefix(p: string, t: string, chars: set<char>)
    requires forall i :: 0 <= i < |p| ==> p[i] in chars
    requires t == [] || t[0] !in chars
    ensures LStrip(p + t, chars) == t
  {
    if |p| == 0 {
      assert p + t == t;
    } else {
      assert (p + t)[1..] == p[1..] + t;
      LStripPrefix(p[1..], t, chars);
    }
  }

  /** Stripping characters from the right removes a trailing part made only
      of them, back to the last character outside the set. */
  lemma {:induction false} RStripSuffix(p: string, t: string, chars: set<char>)
    requires forall i :: 0 <= i < |t| ==> t[i] in chars
    requires p == [] || p[|p| - 1] !in chars
    ensures RStrip(p + t, chars) == p
  {
    if |t| == 0 {
      assert p + t == p;
    } else {
      assert (p + t)[..|p + t| - 1] == p + t[..|t| - 1];
      RStripSuffix(p, t[..|t| - 1], chars);
    }
  }

  // ---------------------------------------------------------------- case, replace

  function LowerChar(c: char): char {
    if 'A' <= c <= 'Z' then (c as int + 32) as char else c
  }

  /** `s.lower()` restricted to ASCII letters. */
  function Lower(s: string): (r: string)
    ensures |r| == |s|
    ensures forall i :: 0 <= i < |s| ==> r[i] == LowerChar(s[i])
  {
    seq(|s|, i requires 0 <= i < |s| => LowerChar(s[i]))
  }

  /** A text without upper-case ASCII letters is its own lower case. */
  lemma LowerNoUpper(s: string)
    requires forall i :: 0 <= i < |s| ==> !('A' <= s[i] <= 'Z')
    ensures Lower(s) == s
  {
  }

  /** `s.replace(from, to)` for one-character texts. */
  function ReplaceChar(s: string, from: char, to: char): (r: string)
    ensures |r| == |s|
    ensures forall i :: 0 <= i < |s| ==> r[i] == if s[i] == from then to else s[i]
  {
    seq(|s|, i requires 0 <= i < |s| => if s[i] == from then to else s[i])
  }

  // ---------------------------------------------------------------- str(int), int(str)

  predicate IsDigit(c: char) { '0' <= c <= '9' }

  function DigitChar(d: nat): char
    requires d < 10
  {
    ('0' as int + d) as char
  }

  function NatToString(n: nat): (r: string)
    ensures |r| >= 1
    ensures forall i :: 0 <= i < |r| ==> IsDigit(r[i])
  {
    if n < 10 then [DigitChar(n)] else NatToString(n / 10) + [DigitChar(n % 10)]
  }

  /** `str(n)` for an int. */
  function IntToString(n: int): string {
    if n < 0 then "-" + NatToString(-n) else NatToString(n)
  }

  /** Python's `str(b)` for a bool. */
  function BoolToString(b: bool): string {
    if b then "True" else "False"
  }

  /** `int(x)` for a float: truncation toward zero. */
  function FloatToInt(r: real): (n: int)
    ensures r >= 0.0 ==> n as real <= r < n as real + 1.0
    ensures r < 0.0 ==> n as real - 1.0 < r <= n as real
  {
    if r >= 0.0 then r.Floor else -((-r).Floor)
  }

  /** The whitespace `int()` ignores around its argument (ASCII part). */
  const Whitespace: set<char> := {' ', '\t', '\n', '\r', '\U{000B}', '\U{000C}'}

  /** Digits with single underscores between them, as `int()` accepts. */
  predicate ValidDigits(s: string) {
    && |s| > 0
    && IsDigit(s[0])
    && IsDigit(s[|s| - 1])
    && (forall i :: 0 <= i < |s| ==> IsDigit(s[i]) || s[i] == '_')
    && (forall i :: 0 <= i < |s| - 1 ==> UnderscoreBeforeDigit(s, i))
  }

  /** An underscore at position `i` is followed by a digit. */
  predicate UnderscoreBeforeDigit(s: string, i: nat)
    requires i < |s| - 1
  {
    s[i] == '_' ==> IsDigit(s[i + 1])
  }

  function DigitsValue(s: string): nat {
    if |s| == 0 then 0
    else if IsDigit(s[|s| - 1]) then
      10 * DigitsValue(s[..|s| - 1]) + (s[|s| - 1] as int - '0' as int)
    else DigitsValue(s[..|s| - 1])
  }

  /** `int(s)` for a text: None where Python raises ValueError. */
  function ParseInt(s: string): Option<int> {
    ParseStripped(RStrip(LStrip(s, Whitespace), Whitespace))
  }

  /** `int()` once the surrounding whitespace is gone: an optional sign,
      then digits. */
  function ParseStripped(t: string): Option<int> {
    if |t| > 0 && (t[0] == '-' || t[0] == '+') then
      if ValidDigits(t[1..]) then
        var v: int := DigitsValue(t[1..]);
        Some(if t[0] == '-' then -v else v)
      else None
    else if ValidDigits(t) then Some(DigitsValue(t) as int)
    else None
  }

  lemma {:induction false} DigitsValueOfNat(n: nat)
    ensures DigitsValue(NatToString(n)) == n
  {
    if n >= 10 {
      DigitsValueOfNat(n / 10);
      var s := NatToString(n);
      assert s[..|s| - 1] == NatToString(n / 10);
    }
  }

  /** `int(str(n)) == n`: the text of an integer parses back to it. */
  lemma ParseIntToString(n: int)
    ensures ParseInt(IntToString(n)) == Some(n)
  {
    if n < 0 {
      NegativeText(n);
      ParseSignedText(IntToString(n), NatToString(-n));
    } else {
      NatText(n);
      ParseUnsignedText(IntToString(n), n);
    }
  }

  /** The decimal text of a natural number is a digit string of that value. */
  lemma NatText(m: nat)
    ensures ValidDigits(NatToString(m)) && DigitsValue(NatToString(m)) == m
  {
    DigitsValueOfNat(m);
  }

  /** The digits of the text of a negative number, negated, give it back. */
  lemma NegativeText(n: int)
    requires n < 0
    ensures IntToString(n) == "-" + NatToString(-n)
    ensures ValidDigits(NatToString(-n)) && -(DigitsValue(NatToString(-n)) as int) == n
  {
    NatText(-n);
  }

  /** Digits alone parse to their value. */
  lemma ParseUnsignedText(t: string, v: int)
    requires ValidDigits(t) && DigitsValue(t) == v
    ensures ParseInt(t) == Some(v)
  {
    StripNoop(t);
    StrippedUnsigned(t);
  }

  /** Digits after a minus sign parse to the negated value. */
  lemma ParseSignedText(t: string, d: string)
    requires t == "-" + d && ValidDigits(d)
    ensures ParseInt(t) == Some(-(DigitsValue(d) as int))
  {
    SignedShape(d);
    StripNoop(t);
    StrippedSigned(d);
  }

  lemma SignedShape(d: string)
    requires ValidDigits(d)
    ensures var t := "-" + d; |t| > 0 && t[0] == '-' && IsDigit(t[|t| - 1])
  {
    var t := "-" + d;
    assert t[|t| - 1] == d[|d| - 1];
  }

  lemma StrippedUnsigned(s: string)
    requires ValidDigits(s)
    ensures ParseStripped(s) == Some(DigitsValue(s) as int)
  {
  }

  lemma StrippedSigned(d: string)
    requires ValidDigits(d)
    ensures ParseStripped("-" + d) == Some(-(DigitsValue(d) as int))
  {
    assert ("-" + d)[1..] == d;
  }

  /** Text that starts with a sign or a digit and ends in a digit has no
      surrounding whitespace. */
  lemma StripNoop(s: string)
    requires |s| > 0
    requires s[0] == '-' || IsDigit(s[0])
    requires IsDigit(s[|s| - 1])
    ensures ParseInt(s) == ParseStripped(s)
  {
    assert s[0] !in Whitespace;
    assert LStrip(s, Whitespace) == s;
    assert s[|s| - 1] !in Whitespace;
    assert RStrip(s, Whitespace) == s;
  }

  // ---------------------------------------------------------------- hexadecimal

  const HexAlphabet: string := "0123456789abcdef"

  /** `hexdigest()` of a byte string: two lower-case hex digits per byte. */
  function HexDigest(bytes: seq<Byte>): (r: string)
    ensures |r| == 2 * |bytes|
    ensures forall i :: 0 <= i < |bytes| ==>
      r[2 * i] == HexAlphabet[bytes[i] / 16] && r[2 * i + 1] == HexAlphabet[bytes[i] % 16]
  {
    if |bytes| == 0 then ""
    else [HexAlphabet[bytes[0] / 16], HexAlphabet[bytes[0] % 16]] + HexDigest(bytes[1..])
  }

  function HexDigitValue(c: char): nat {
    if '0' <= c <= '9' then c as int - '0' as int
    else if 'a' <= c <= 'f' then c as int - 'a' as int + 10
    else 0
  }

  predicate IsHexText(s: string) {
    forall i :: 0 <= i < |s| ==> s[i] in HexAlphabet
  }

  /** `int(s, 16)` for a text of lower-case hex digits. */
  function HexValue(s: string): nat
    requires IsHexText(s)
  {
    if |s| == 0 then 0 else 16 * HexValue(s[..|s| - 1]) + HexDigitValue(s[|s| - 1])
  }

  function Pow16(k: nat): nat {
    if k == 0 then 1 else 16 * Pow16(k - 1)
  }

  lemma {:induction false} HexValueBound(s: string)
    requires IsHexText(s)
    ensures HexValue(s) < Pow16(|s|)
  {
    if |s| > 0 {
      HexValueBound(s[..|s| - 1]);
      assert HexDigitValue(s[|s| - 1]) < 16;
    }
  }
}
