/**
 * Hexadecimal rendering of byte sequences for display and for the log:
 * `QByteArray::toHex` (two lower-case digits per byte, no separator),
 * `QByteArray::toUpper` on such text, and the spaced upper-case form that
 * `hexBytesSerial` and `hexBytes` build from them, together with a parser
 * that reads the spaced form back.
 */
module Hex {
  import opened Bytes

  /** The digit for a nibble, as `toHex` writes it. */
  function LowerDigit(n: nat): char
    requires n < 16
  {
    if n < 10 then ('0' as int + n) as char else ('a' as int + n - 10) as char
  }

  /** The digit for a nibble in upper case. */
  function UpperDigit(n: nat): char
    requires n < 16
  {
    if n < 10 then ('0' as int + n) as char else ('A' as int + n - 10) as char
  }

  /** The nibble an upper-case hex digit stands for; 0 for any other character. */
  function DigitValue(c: char): (v: nat)
    ensures v < 16
  {
    if '0' <= c <= '9' then c as int - '0' as int
    else if 'A' <= c <= 'F' then c as int - 'A' as int + 10
    else 0
  }

  /** The two `toHex` digits of one byte, high nibble first. */
  function LowerPair(b: byte): string
  {
    [LowerDigit(b as int / 16), LowerDigit(b as int % 16)]
  }

  /** The two upper-case digits of one byte; reading them back gives the byte. */
  function UpperPair(b: byte): (p: string)
    ensures |p| == 2
    ensures DigitValue(p[0]) * 16 + DigitValue(p[1]) == b as int
  {
    [UpperDigit(b as int / 16), UpperDigit(b as int % 16)]
  }

  /** `QByteArray::toHex()`. */
  function ToHex(s: seq<byte>): string
  {
    if |s| == 0 then "" else ToHex(s[..|s| - 1]) + LowerPair(s[|s| - 1])
  }

  /** `QByteArray::toUpper()` as it acts on hex text: `a`-`f` become `A`-`F`, digits are kept. */
  function UpperChar(c: char): char
  {
    if 'a' <= c <= 'z' then (c as int - 32) as char else c
  }

  function ToUpper(t: string): string
  {
    seq(|t|, i requires 0 <= i < |t| => UpperChar(t[i]))
  }

  /**
   * The display form: one upper-case pair per byte, pairs separated by a
   * single space, nothing before the first pair or after the last.
   */
  function Spaced(s: seq<byte>): string
  {
    if |s| == 0 then ""
    else if |s| == 1 then UpperPair(s[0])
    else Spaced(s[..|s| - 1]) + " " + UpperPair(s[|s| - 1])
  }

  /** Reads a spaced rendering back: the pair starting at every third character. */
  function ParseSpaced(t: string): seq<byte>
  {
    seq((|t| + 1) / 3, k requires 0 <= k < (|t| + 1) / 3 =>
      (DigitValue(t[3 * k]) * 16 + DigitValue(t[3 * k + 1])) as byte)
  }

  /** `toHex` writes exactly two characters per byte. */
  lemma {:induction false} ToHexLength(s: seq<byte>)
    ensures |ToHex(s)| == 2 * |s|
  {
    if |s| > 0 {
      ToHexLength(s[..|s| - 1]);
    }
  }

  /** The `toHex` digits of byte `k` sit at positions `2k` and `2k + 1`. */
  lemma {:induction false} ToHexAt(s: seq<byte>, k: nat)
    requires k < |s|
    ensures |ToHex(s)| == 2 * |s|
    ensures ToHex(s)[2 * k..2 * k + 2] == LowerPair(s[k])
  {
    ToHexLength(s);
    var front := s[..|s| - 1];
    ToHexLength(front);
    if k < |s| - 1 {
      ToHexAt(front, k);
      assert ToHex(s)[..2 * |front|] == ToHex(front);
    }
  }

  /** Upper-casing the `toHex` digits of a byte gives its upper-case pair. */
  lemma UpperOfLowerPair(b: byte)
    ensures ToUpper(LowerPair(b)) == UpperPair(b)
  {
  }

  /** After upper-casing, the digits of byte `k` are still at `2k` and `2k + 1`. */
  lemma UpperHexAt(s: seq<byte>, k: nat)
    requires k < |s|
    ensures |ToUpper(ToHex(s))| == 2 * |s|
    ensures ToUpper(ToHex(s))[2 * k..2 * k + 2] == UpperPair(s[k])
  {
    ToHexAt(s, k);
    UpperOfLowerPair(s[k]);
    assert ToUpper(ToHex(s))[2 * k..2 * k + 2] == ToUpper(ToHex(s)[2 * k..2 * k + 2]);
  }

  /** The rendering of n bytes is 3n - 1 characters long, and empty for none. */
  lemma {:induction false} SpacedLength(s: seq<byte>)
    ensures |Spaced(s)| == if |s| == 0 then 0 else 3 * |s| - 1
  {
    if |s| > 1 {
      SpacedLength(s[..|s| - 1]);
    }
  }

  /**
   * The shape of the rendering: byte `k` occupies positions `3k` and `3k + 1`
   * as its upper-case pair, and position `3k + 2` is a space exactly when
   * another byte follows.
   */
  lemma {:induction false} SpacedShape(s: seq<byte>, k: nat)
    requires k < |s|
    ensures |Spaced(s)| == 3 * |s| - 1
    ensures Spaced(s)[3 * k..3 * k + 2] == UpperPair(s[k])
    ensures k + 1 < |s| ==> Spaced(s)[3 * k + 2] == ' '
  {
    SpacedLength(s);
    if |s| > 1 {
      var front := s[..|s| - 1];
      SpacedLength(front);
      if k < |s| - 1 {
        SpacedShape(front, k);
        assert Spaced(s)[..|Spaced(front)|] == Spaced(front);
      }
    }
  }

  /** Neither the first nor the last character of a rendering is a space. */
  lemma SpacedHasNoOuterSpaces(s: seq<byte>)
    requires |s| > 0
    ensures Spaced(s)[0] != ' '
    ensures Spaced(s)[|Spaced(s)| - 1] != ' '
  {
  }

  /** The rendering loses nothing: parsing it gives back the bytes. */
  lemma SpacedRoundTrip(s: seq<byte>)
    ensures ParseSpaced(Spaced(s)) == s
  {
    SpacedLength(s);
    var t := Spaced(s);
    forall k | 0 <= k < |s|
      ensures ParseSpaced(t)[k] == s[k]
    {
      SpacedShape(s, k);
      assert t[3 * k] == UpperPair(s[k])[0] && t[3 * k + 1] == UpperPair(s[k])[1];
    }
  }
}
