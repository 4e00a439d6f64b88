/** The text encodings that `decrypt_grummer` reads: hexadecimal keys and base64 (section 4 of RFC 4648). */
module Codecs {
  import opened Wrappers

  type Byte = x: int | 0 <= x < 256

  // -- Hexadecimal, as `bytes.fromhex` reads it ---------------------------------------------------------

  predicate IsSpace(c: char) {
    c == ' ' || '\t' <= c <= '\r'
  }

  function HexValue(c: char): Option<int> {
    if '0' <= c <= '9' then Some((c as int) - ('0' as int))
    else if 'a' <= c <= 'f' then Some((c as int) - ('a' as int) + 10)
    else if 'A' <= c <= 'F' then Some((c as int) - ('A' as int) + 10)
    else None
  }

  function HexSymbol(n: int): char
    requires 0 <= n < 16
  {
    if n < 10 then (n + ('0' as int)) as char else (n - 10 + ('a' as int)) as char
  }

  /** White space is skipped between bytes; the two digits of a byte are adjacent. */
  function FromHex(s: string): Option<seq<Byte>> {
    if s == "" then Some([])
    else if IsSpace(s[0]) then FromHex(s[1..])
    else if |s| == 1 then None
    else
      match (HexValue(s[0]), HexValue(s[1]), FromHex(s[2..]))
      case (Some(h), Some(l), Some(rest)) => if 0 <= h < 16 && 0 <= l < 16 then Some([h * 16 + l] + rest) else None
      case _ => None
  }

  function ToHex(b: seq<Byte>): string {
    if b == [] then "" else [HexSymbol(b[0] / 16), HexSymbol(b[0] % 16)] + ToHex(b[1..])
  }

  lemma HexSymbolValue(n: int)
    requires 0 <= n < 16
    ensures HexValue(HexSymbol(n)) == Some(n) && !IsSpace(HexSymbol(n))
  {
  }

  lemma {:induction false} HexRoundTrip(b: seq<Byte>)
    ensures FromHex(ToHex(b)) == Some(b)
  {
    if b == [] {
    } else {
      HexRoundTrip(b[1..]);
      HexSymbolValue(b[0] / 16);
      HexSymbolValue(b[0] % 16);
      assert ToHex(b)[2..] == ToHex(b[1..]);
      assert b == [b[0] / 16 * 16 + b[0] % 16] + b[1..];
    }
  }

  /** The digits, in both cases, and no others; two of them make a byte, the first counting sixteen times. */
  lemma HexDigits(c: char, n: nat)
    requires n < 16
    ensures HexValue(c) == Some(n) <==> c == "0123456789abcdef"[n] || c == "0123456789ABCDEF"[n]
  {
  }

  lemma HexDigitRange(c: char)
    ensures HexValue(c).Some? ==> 0 <= HexValue(c).value < 16 && !IsSpace(c)
  {
  }

  lemma FirstByte(s: string, h: nat, l: nat)
    requires |s| >= 2 && HexValue(s[0]) == Some(h) && HexValue(s[1]) == Some(l) && h < 16 && l < 16
    ensures FromHex(s) == if FromHex(s[2..]).None? then None else Some([h * 16 + l] + FromHex(s[2..]).value)
  {
    HexDigitRange(s[0]);
    hide HexValue, IsSpace;
  }

  /** White space in front of a byte is skipped; anything else that is not two digits is refused. */
  lemma NotAByte(s: string)
    requires s != ""
    ensures var space := s[0] in " \t\n\r" || s[0] as int in {11, 12};
            && (space ==> FromHex(s) == FromHex(s[1..]))
            && (!space && (|s| == 1 || HexValue(s[0]).None? || HexValue(s[1]).None?) ==> FromHex(s) == None)
  {
    hide HexValue;
  }

  function LowerCase(c: char): char {
    if 'A' <= c <= 'Z' then ((c as int) - ('A' as int) + ('a' as int)) as char else c
  }

  function Lowered(s: string): (r: string)
    ensures |r| == |s| && forall i | 0 <= i < |s| :: r[i] == LowerCase(s[i])
  {
    seq(|s|, i requires 0 <= i < |s| => LowerCase(s[i]))
  }

  /** An upper-case key reads as its lower-case form. */
  lemma {:induction false} HexIgnoresCase(s: string)
    ensures FromHex(Lowered(s)) == FromHex(s)
  {
    hide HexValue, IsSpace, LowerCase, Lowered;
    if s == "" {
    } else {
      CharIgnoresCase(s[0]);
      HexIgnoresCase(s[1..]);
      assert Lowered(s)[1..] == Lowered(s[1..]);
      if |s| >= 2 {
        CharIgnoresCase(s[1]);
        HexIgnoresCase(s[2..]);
        assert Lowered(s)[2..] == Lowered(s[2..]);
      }
    }
  }

  lemma CharIgnoresCase(c: char)
    ensures HexValue(LowerCase(c)) == HexValue(c) && IsSpace(LowerCase(c)) == IsSpace(c)
  {
  }

  // -- Base64 --------------------------------------------------------------------------------------------

  function Digit(c: char): Option<int> {
    if 'A' <= c <= 'Z' then Some((c as int) - ('A' as int))
    else if 'a' <= c <= 'z' then Some((c as int) - ('a' as int) + 26)
    else if '0' <= c <= '9' then Some((c as int) - ('0' as int) + 52)
    else if c == '+' then Some(62)
    else if c == '/' then Some(63)
    else None
  }

  function Symbol(n: int): char
    requires 0 <= n < 64
  {
    if n < 26 then (n + ('A' as int)) as char
    else if n < 52 then (n - 26 + ('a' as int)) as char
    else if n < 62 then (n - 52 + ('0' as int)) as char
    else if n == 62 then '+'
    else '/'
  }

  lemma DigitRange(c: char)
    ensures Digit(c).Some? ==> 0 <= Digit(c).value < 64
  {
  }

  lemma SymbolDigit(n: int)
    requires 0 <= n < 64
    ensures Digit(Symbol(n)) == Some(n) && Symbol(n) != '='
  {
  }

  function First(d0: int, d1: int): Byte
    requires 0 <= d0 < 64 && 0 <= d1 < 64
  {
    d0 * 4 + d1 / 16
  }

  function Second(d1: int, d2: int): Byte
    requires 0 <= d1 < 64 && 0 <= d2 < 64
  {
    d1 % 16 * 16 + d2 / 4
  }

  function Third(d2: int, d3: int): Byte
    requires 0 <= d2 < 64 && 0 <= d3 < 64
  {
    d2 % 4 * 64 + d3
  }

  function Encode(b: seq<Byte>): string {
    if |b| == 0 then ""
    else if |b| == 1 then [Symbol(b[0] / 4), Symbol(b[0] % 4 * 16), '=', '=']
    else if |b| == 2 then [Symbol(b[0] / 4), Symbol(b[0] % 4 * 16 + b[1] / 16), Symbol(b[1] % 16 * 4), '=']
    else [Symbol(b[0] / 4), Symbol(b[0] % 4 * 16 + b[1] / 16), Symbol(b[1] % 16 * 4 + b[2] / 64), Symbol(b[2] % 64)]
         + Encode(b[3..])
  }

  /** Strict decoding: groups of four symbols; padding only to complete the last group. The bits a padded
      group leaves over are not looked at. */
  function Decode(s: string): Option<seq<Byte>> {
    if s == "" then Some([])
    else if |s| < 4 then None
    else
      DigitRange(s[0]); DigitRange(s[1]); DigitRange(s[2]); DigitRange(s[3]);
      match (Digit(s[0]), Digit(s[1]), Digit(s[2]), Digit(s[3]))
      case (Some(d0), Some(d1), Some(d2), Some(d3)) => (
        match Decode(s[4..])
        case None => None
        case Some(rest) => Some([First(d0, d1), Second(d1, d2), Third(d2, d3)] + rest)
      )
      case (Some(d0), Some(d1), Some(d2), None) =>
        if |s| == 4 && s[3] == '=' then Some([First(d0, d1), Second(d1, d2)]) else None
      case (Some(d0), Some(d1), None, None) =>
        if |s| == 4 && s[2] == s[3] == '=' then Some([First(d0, d1)]) else None
      case _ => None
  }

  lemma SplitByte(x: Byte, y: Byte)
    ensures First(x / 4, x % 4 * 16 + y / 16) == x
    ensures Second(x % 4 * 16 + y / 16, y % 16 * 4) == y
  {
  }

  lemma SplitTriple(x: Byte, y: Byte, z: Byte)
    ensures First(x / 4, x % 4 * 16 + y / 16) == x
    ensures Second(x % 4 * 16 + y / 16, y % 16 * 4 + z / 64) == y
    ensures Third(y % 16 * 4 + z / 64, z % 64) == z
  {
  }

  lemma LastOne(x: Byte)
    ensures Decode(Encode([x])) == Some([x])
  {
    SplitByte(x, 0);
    SymbolDigit(x / 4);
    SymbolDigit(x % 4 * 16);
    hide Symbol, First;
  }

  lemma LastTwo(x: Byte, y: Byte)
    ensures Decode(Encode([x, y])) == Some([x, y])
  {
    SplitByte(x, y);
    SymbolDigit(x / 4);
    SymbolDigit(x % 4 * 16 + y / 16);
    SymbolDigit(y % 16 * 4);
    hide Symbol, First, Second;
  }

  lemma DecodeGroup(s: string, d0: int, d1: int, d2: int, d3: int, rest: seq<Byte>)
    requires |s| >= 4
    requires Digit(s[0]) == Some(d0) && Digit(s[1]) == Some(d1) && Digit(s[2]) == Some(d2) && Digit(s[3]) == Some(d3)
    requires 0 <= d0 < 64 && 0 <= d1 < 64 && 0 <= d2 < 64 && 0 <= d3 < 64
    requires Decode(s[4..]) == Some(rest)
    ensures Decode(s) == Some([First(d0, d1), Second(d1, d2), Third(d2, d3)] + rest)
  {
    hide Digit, First, Second, Third;
  }

  lemma DecodeEmpty()
    ensures Decode("") == Some([])
  {
  }

  lemma {:induction false} Base64RoundTrip(b: seq<Byte>)
    ensures Decode(Encode(b)) == Some(b)
  {
    hide Symbol, Digit, First, Second, Third, Decode;
    if |b| == 0 {
      DecodeEmpty();
    } else if |b| == 1 {
      LastOne(b[0]);
      assert b == [b[0]];
    } else if |b| == 2 {
      LastTwo(b[0], b[1]);
      assert b == [b[0], b[1]];
    } else {
      SplitTriple(b[0], b[1], b[2]);
      var (d0, d1, d2, d3) := (b[0] / 4, b[0] % 4 * 16 + b[1] / 16, b[1] % 16 * 4 + b[2] / 64, b[2] % 64);
      SymbolDigit(d0);
      SymbolDigit(d1);
      SymbolDigit(d2);
      SymbolDigit(d3);
      Base64RoundTrip(b[3..]);
      assert Encode(b)[4..] == Encode(b[3..]);
      DecodeGroup(Encode(b), d0, d1, d2, d3, b[3..]);
      assert b == [b[0], b[1], b[2]] + b[3..];
    }
  }

  /** The alphabet of section 4 of RFC 4648, by ASCII code: A to Z, a to z, 0 to 9, '+' and '/'. */
  lemma Base64Digits(c: char, n: nat)
    requires n < 64
    ensures Digit(c) == Some(n) <==>
            c as int == if n < 26 then 65 + n else if n < 52 then 97 + n - 26 else if n < 62 then 48 + n - 52
                        else if n == 62 then 43 else 47
  {
  }

  /** Four digits are three bytes: the same 24-bit number. */
  lemma GroupIsNumber(d0: int, d1: int, d2: int, d3: int)
    requires 0 <= d0 < 64 && 0 <= d1 < 64 && 0 <= d2 < 64 && 0 <= d3 < 64
    ensures First(d0, d1) * 65536 + Second(d1, d2) * 256 + Third(d2, d3) == d0 * 262144 + d1 * 4096 + d2 * 64 + d3
  {
  }

  predicate IsAscii(s: string) {
    forall i | 0 <= i < |s| :: s[i] as int < 128
  }

  lemma AsciiIs(s: string)
    ensures IsAscii(s) <==> forall c | c in s :: c as int <= 127
  {
    if forall c | c in s :: c as int <= 127 {
      assert forall i | 0 <= i < |s| :: s[i] in s;
    }
  }

  lemma {:induction false} EncodeIsAscii(b: seq<Byte>)
    ensures IsAscii(Encode(b))
  {
    if |b| < 3 {
    } else {
      EncodeIsAscii(b[3..]);
    }
  }
}
