/** UTF-8 as TextEncoder writes it and TextDecoder (or a Node buffer) reads it: RFC 3629 section 3, with
    every maximal ill-formed prefix read as U+FFFD. Text is a sequence of Unicode scalar values. */
module Utf8 {
  type Byte = b: nat | b < 256

  const REPLACEMENT: char := '\U{FFFD}'
  const BOM: char := '\U{FEFF}'

  function EncodeChar(c: char): (r: seq<Byte>)
    ensures 1 <= |r| <= 4
  {
    var n := c as int;
    if n < 0x80 then [n]
    else if n < 0x800 then [0xC0 + n / 0x40, 0x80 + n % 0x40]
    else if n < 0x10000 then [0xE0 + n / 0x1000, 0x80 + n / 0x40 % 0x40, 0x80 + n % 0x40]
    else [0xF0 + n / 0x40000, 0x80 + n / 0x1000 % 0x40, 0x80 + n / 0x40 % 0x40, 0x80 + n % 0x40]
  }

  function Encode(text: string): seq<Byte> {
    if text == [] then [] else EncodeChar(text[0]) + Encode(text[1..])
  }

  /** A decoded character and the number of bytes it used up. */
  datatype Read = Read(c: char, used: nat)

  /** Reads `need` continuation bytes from position `k`; the first must lie in `lower..upper`. */
  function Continue(bytes: seq<Byte>, k: nat, need: nat, lower: Byte, upper: Byte, value: nat): (r: Read)
    requires 0 < k <= |bytes|
    ensures 0 < r.used <= |bytes|
    decreases need
  {
    if need == 0 then
      if value < 0xD800 || 0xDFFF < value < 0x110000 then Read(value as char, k) else Read(REPLACEMENT, k)
    else if k == |bytes| || bytes[k] < lower || bytes[k] > upper then Read(REPLACEMENT, k)
    else Continue(bytes, k + 1, need - 1, 0x80, 0xBF, value * 0x40 + bytes[k] % 0x40)
  }

  function ReadChar(bytes: seq<Byte>): (r: Read)
    requires bytes != []
    ensures 0 < r.used <= |bytes|
  {
    var b := bytes[0];
    if b < 0x80 then Read(b as char, 1)
    else if 0xC2 <= b <= 0xDF then Continue(bytes, 1, 1, 0x80, 0xBF, b - 0xC0)
    else if 0xE0 <= b <= 0xEF then
      Continue(bytes, 1, 2, if b == 0xE0 then 0xA0 else 0x80, if b == 0xED then 0x9F else 0xBF, b - 0xE0)
    else if 0xF0 <= b <= 0xF4 then
      Continue(bytes, 1, 3, if b == 0xF0 then 0x90 else 0x80, if b == 0xF4 then 0x8F else 0xBF, b - 0xF0)
    else Read(REPLACEMENT, 1)
  }

  function Decode(bytes: seq<Byte>): string
    decreases |bytes|
  {
    if bytes == [] then []
    else
      var r := ReadChar(bytes);
      [r.c] + Decode(bytes[r.used..])
  }

  predicate StartsWithMark(bytes: seq<Byte>) {
    |bytes| >= 3 && bytes[0] == 0xEF && bytes[1] == 0xBB && bytes[2] == 0xBF
  }

  /** TextDecoder drops a leading byte order mark; a Node buffer's toString does not. */
  function DecodeText(bytes: seq<Byte>): string {
    if StartsWithMark(bytes) then Decode(bytes[3..]) else Decode(bytes)
  }

  lemma ReadsBackTwo(n: nat, rest: seq<Byte>)
    requires 0x80 <= n < 0x800
    ensures ReadChar([0xC0 + n / 0x40, 0x80 + n % 0x40] + rest) == Read(n as char, 2)
  {
    var bytes := [0xC0 + n / 0x40, 0x80 + n % 0x40] + rest;
    assert Continue(bytes, 2, 0, 0x80, 0xBF, n) == Read(n as char, 2);
  }

  lemma ReadsBackThree(n: nat, rest: seq<Byte>)
    requires 0x800 <= n < 0x10000 && !(0xD800 <= n <= 0xDFFF)
    ensures ReadChar([0xE0 + n / 0x1000, 0x80 + n / 0x40 % 0x40, 0x80 + n % 0x40] + rest) == Read(n as char, 3)
  {
    var bytes := [0xE0 + n / 0x1000, 0x80 + n / 0x40 % 0x40, 0x80 + n % 0x40] + rest;
    assert bytes[0] == 0xE0 + n / 0x1000 && bytes[1] == 0x80 + n / 0x40 % 0x40 && bytes[2] == 0x80 + n % 0x40;
    assert Continue(bytes, 3, 0, 0x80, 0xBF, n) == Read(n as char, 3);
    assert n / 0x40 * 0x40 + n % 0x40 == n;
    assert Continue(bytes, 2, 1, 0x80, 0xBF, n / 0x40) == Read(n as char, 3);
    assert n / 0x1000 * 0x40 + n / 0x40 % 0x40 == n / 0x40;
  }

  /** Four bytes given by the digits of the code point in base 64. */
  lemma ReadsFour(a: nat, b: nat, c: nat, d: nat, rest: seq<Byte>)
    requires a < 5 && b < 64 && c < 64 && d < 64
    requires 0x10000 <= ((a * 64 + b) * 64 + c) * 64 + d < 0x110000
    ensures ReadChar([0xF0 + a, 0x80 + b, 0x80 + c, 0x80 + d] + rest) == Read((((a * 64 + b) * 64 + c) * 64 + d) as char, 4)
  {
    var bytes := [0xF0 + a, 0x80 + b, 0x80 + c, 0x80 + d] + rest;
    var n := ((a * 64 + b) * 64 + c) * 64 + d;
    assert bytes[0] == 0xF0 + a && bytes[1] == 0x80 + b && bytes[2] == 0x80 + c && bytes[3] == 0x80 + d;
    assert Continue(bytes, 4, 0, 0x80, 0xBF, n) == Read(n as char, 4);
    assert Continue(bytes, 3, 1, 0x80, 0xBF, (a * 64 + b) * 64 + c) == Read(n as char, 4);
    assert Continue(bytes, 2, 2, 0x80, 0xBF, a * 64 + b) == Read(n as char, 4);
  }

  lemma Base64Digits(n: nat)
    requires n < 0x110000
    ensures var a, b, c, d := n / 0x40000, n / 0x1000 % 0x40, n / 0x40 % 0x40, n % 0x40;
            a < 5 && ((a * 64 + b) * 64 + c) * 64 + d == n
  {
    assert n / 0x1000 == n / 0x40 / 0x40 && n / 0x40000 == n / 0x1000 / 0x40;
  }

  lemma ReadsBackFour(n: nat, rest: seq<Byte>)
    requires 0x10000 <= n < 0x110000
    ensures ReadChar([0xF0 + n / 0x40000, 0x80 + n / 0x1000 % 0x40, 0x80 + n / 0x40 % 0x40, 0x80 + n % 0x40] + rest)
            == Read(n as char, 4)
  {
    Base64Digits(n);
    ReadsFour(n / 0x40000, n / 0x1000 % 0x40, n / 0x40 % 0x40, n % 0x40, rest);
  }

  lemma ReadsBackChar(c: char, rest: seq<Byte>)
    ensures ReadChar(EncodeChar(c) + rest) == Read(c, |EncodeChar(c)|)
  {
    var n := c as int;
    if n < 0x80 {
    } else if n < 0x800 {
      ReadsBackTwo(n, rest);
    } else if n < 0x10000 {
      ReadsBackThree(n, rest);
    } else {
      ReadsBackFour(n, rest);
    }
  }

  /** Decoding undoes encoding, for every text. */
  lemma {:induction false} DecodesBack(text: string)
    ensures Decode(Encode(text)) == text
    decreases |text|
  {
    if text != [] {
      var head, rest := EncodeChar(text[0]), Encode(text[1..]);
      ReadsBackChar(text[0], rest);
      assert (head + rest)[|head|..] == rest;
      DecodesBack(text[1..]);
    }
  }

  lemma OnlyMarkEncodesSo(c: char, rest: seq<Byte>)
    requires StartsWithMark(EncodeChar(c) + rest)
    ensures c == BOM
  {
    assert EncodeChar(BOM) == [0xEF, 0xBB, 0xBF];
    var bytes := EncodeChar(c) + rest;
    assert bytes == EncodeChar(BOM) + bytes[3..];
    ReadsBackChar(BOM, bytes[3..]);
    ReadsBackChar(c, rest);
  }

  /** What TextDecoder gives back: the text, less one leading byte order mark. */
  lemma TextDecodesBack(text: string)
    ensures DecodeText(Encode(text)) == if text != [] && text[0] == BOM then text[1..] else text
  {
    DecodesBack(text);
    if StartsWithMark(Encode(text)) {
      var rest := Encode(text[1..]);
      OnlyMarkEncodesSo(text[0], rest);
      assert EncodeChar(BOM) == [0xEF, 0xBB, 0xBF];
      assert Encode(text)[3..] == rest;
      DecodesBack(text[1..]);
    }
  }

  // ----- What is not well-formed -----

  lemma OnlyTwoIsWellFormed(bytes: seq<Byte>)
    requires bytes != [] && 0xC2 <= bytes[0] <= 0xDF && ReadChar(bytes).c != REPLACEMENT
    ensures var r := ReadChar(bytes); EncodeChar(r.c) == bytes[..r.used]
  {
    if |bytes| > 1 && 0x80 <= bytes[1] <= 0xBF {
      var high: nat, low: nat := bytes[0] - 0xC0, bytes[1] - 0x80;
      var n := high * 0x40 + low;
      assert bytes[1] % 0x40 == low;
      assert Continue(bytes, 2, 0, 0x80, 0xBF, n) == Read(n as char, 2);
      assert n / 0x40 == high && n % 0x40 == low;
      assert bytes[..2] == [bytes[0], bytes[1]];
    }
  }

  /** The digits of a number in base 64. */
  lemma DigitsOfThree(a: nat, b: nat, c: nat)
    requires b < 64 && c < 64
    ensures var n := (a * 64 + b) * 64 + c; n / 0x1000 == a && n / 0x40 % 0x40 == b && n % 0x40 == c
  {
    var m := a * 64 + b;
    assert (m * 64 + c) / 64 == m && (m * 64 + c) % 64 == c;
    assert m / 64 == a && m % 64 == b;
    assert (m * 64 + c) / 0x1000 == (m * 64 + c) / 64 / 64;
  }

  predicate IsScalar(n: nat) {
    n < 0xD800 || 0xDFFF < n < 0x110000
  }

  /** What a continuation byte that is read must be, the last one */
  lemma LastByteIs(bytes: seq<Byte>, k: nat, lower: Byte, upper: Byte, value: nat)
    requires 0 < k <= |bytes| && Continue(bytes, k, 1, lower, upper, value).c != REPLACEMENT
    ensures k < |bytes| && lower <= bytes[k] <= upper && IsScalar(value * 64 + bytes[k] % 64)
    ensures Continue(bytes, k, 1, lower, upper, value) == Read((value * 64 + bytes[k] % 64) as char, k + 1)
  {
  }

  /** and an earlier one. */
  lemma NextByteIs(bytes: seq<Byte>, k: nat, need: nat, lower: Byte, upper: Byte, value: nat)
    requires 0 < k <= |bytes| && need > 1 && Continue(bytes, k, need, lower, upper, value).c != REPLACEMENT
    ensures k < |bytes| && lower <= bytes[k] <= upper
    ensures Continue(bytes, k, need, lower, upper, value)
            == Continue(bytes, k + 1, need - 1, 0x80, 0xBF, value * 64 + bytes[k] % 64)
  {
  }

  lemma ThreeBytesOf(a: nat, b: nat, c: nat)
    requires a < 16 && b < 64 && c < 64 && (a == 0 ==> b >= 32)
    ensures var n := (a * 64 + b) * 64 + c;
            IsScalar(n) ==> EncodeChar(n as char) == [0xE0 + a, 0x80 + b, 0x80 + c]
  {
    DigitsOfThree(a, b, c);
  }

  lemma FourBytesOf(a: nat, b: nat, c: nat, d: nat)
    requires a < 5 && b < 64 && c < 64 && d < 64 && (a == 0 ==> b >= 16)
    ensures var n := ((a * 64 + b) * 64 + c) * 64 + d;
            IsScalar(n) ==> EncodeChar(n as char) == [0xF0 + a, 0x80 + b, 0x80 + c, 0x80 + d]
  {
    DigitsOfFour(a, b, c, d);
  }

  lemma OnlyThreeIsWellFormed(bytes: seq<Byte>)
    requires bytes != [] && 0xE0 <= bytes[0] <= 0xEF && ReadChar(bytes).c != REPLACEMENT
    ensures var r := ReadChar(bytes); EncodeChar(r.c) == bytes[..r.used]
  {
    var lower := if bytes[0] == 0xE0 then 0xA0 else 0x80;
    var upper := if bytes[0] == 0xED then 0x9F else 0xBF;
    var a: nat := bytes[0] - 0xE0;
    NextByteIs(bytes, 1, 2, lower, upper, a);
    var b: nat := bytes[1] - 0x80;
    LastByteIs(bytes, 2, 0x80, 0xBF, a * 64 + b);
    ThreeBytesOf(a, b, bytes[2] - 0x80);
    assert bytes[..3] == [bytes[0], bytes[1], bytes[2]];
  }

  lemma LowBits(b: Byte)
    requires 0x80 <= b <= 0xBF
    ensures b % 64 == b - 0x80
  {
  }

  lemma ThreeMoreAre(bytes: seq<Byte>, lower: Byte, upper: Byte, a: nat)
    requires bytes != [] && 0x80 <= lower && upper <= 0xBF && Continue(bytes, 1, 3, lower, upper, a).c != REPLACEMENT
    ensures |bytes| >= 4 && lower <= bytes[1] <= upper && 0x80 <= bytes[2] <= 0xBF && 0x80 <= bytes[3] <= 0xBF
    ensures var n := ((a * 64 + (bytes[1] - 0x80)) * 64 + (bytes[2] - 0x80)) * 64 + (bytes[3] - 0x80);
            n >= 0 && IsScalar(n) && Continue(bytes, 1, 3, lower, upper, a) == Read(n as char, 4)
  {
    NextByteIs(bytes, 1, 3, lower, upper, a);
    LowBits(bytes[1]);
    var b: nat := bytes[1] - 0x80;
    NextByteIs(bytes, 2, 2, 0x80, 0xBF, a * 64 + b);
    LowBits(bytes[2]);
    var c: nat := bytes[2] - 0x80;
    LastByteIs(bytes, 3, 0x80, 0xBF, (a * 64 + b) * 64 + c);
    LowBits(bytes[3]);
  }

  lemma FourIsContinued(bytes: seq<Byte>)
    requires bytes != [] && 0xF0 <= bytes[0] <= 0xF4
    ensures ReadChar(bytes) == Continue(bytes, 1, 3, if bytes[0] == 0xF0 then 0x90 else 0x80,
                                        if bytes[0] == 0xF4 then 0x8F else 0xBF, bytes[0] - 0xF0)
  {
  }

  lemma OnlyFourIsWellFormed(bytes: seq<Byte>)
    requires bytes != [] && 0xF0 <= bytes[0] <= 0xF4 && ReadChar(bytes).c != REPLACEMENT
    ensures var r := ReadChar(bytes); EncodeChar(r.c) == bytes[..r.used]
  {
    FourIsContinued(bytes);
    ThreeMoreAre(bytes, if bytes[0] == 0xF0 then 0x90 else 0x80, if bytes[0] == 0xF4 then 0x8F else 0xBF, bytes[0] - 0xF0);
    FourBytesOf(bytes[0] - 0xF0, bytes[1] - 0x80, bytes[2] - 0x80, bytes[3] - 0x80);
    assert bytes[..4] == [bytes[0], bytes[1], bytes[2], bytes[3]];
  }

  lemma DigitsOfFour(a: nat, b: nat, c: nat, d: nat)
    requires b < 64 && c < 64 && d < 64
    ensures var n := ((a * 64 + b) * 64 + c) * 64 + d;
            n / 0x40000 == a && n / 0x1000 % 0x40 == b && n / 0x40 % 0x40 == c && n % 0x40 == d
  {
    var m := (a * 64 + b) * 64 + c;
    DigitsOfThree(a, b, c);
    assert (m * 64 + d) / 64 == m && (m * 64 + d) % 64 == d;
    assert (m * 64 + d) / 0x1000 == m / 64 && (m * 64 + d) / 0x40000 == m / 0x1000;
  }

  /** The decoder reads a character only from that character's own bytes: no overlong form, no surrogate and
      nothing beyond the last code point passes as one. */
  lemma OnlyWellFormedIsRead(bytes: seq<Byte>)
    requires bytes != [] && ReadChar(bytes).c != REPLACEMENT
    ensures var r := ReadChar(bytes); EncodeChar(r.c) == bytes[..r.used]
  {
    var b := bytes[0];
    if 0xC2 <= b <= 0xDF {
      OnlyTwoIsWellFormed(bytes);
    } else if 0xE0 <= b <= 0xEF {
      OnlyThreeIsWellFormed(bytes);
    } else if 0xF0 <= b <= 0xF4 {
      OnlyFourIsWellFormed(bytes);
    }
  }

  lemma EncodeOnto(c: char, text: string)
    ensures Encode([c] + text) == EncodeChar(c) + Encode(text)
  {
    assert ([c] + text)[1..] == text;
  }

  lemma DecodeHead(bytes: seq<Byte>)
    requires bytes != []
    ensures var r := ReadChar(bytes); Decode(bytes) == [r.c] + Decode(bytes[r.used..])
    ensures REPLACEMENT !in Decode(bytes) ==>
              ReadChar(bytes).c != REPLACEMENT && REPLACEMENT !in Decode(bytes[ReadChar(bytes).used..])
  {
  }

  /** Hence bytes whose text has no replacement character are exactly the encoding of that text. */
  lemma {:induction false} CleanTextEncodesBack(bytes: seq<Byte>)
    requires REPLACEMENT !in Decode(bytes)
    ensures Encode(Decode(bytes)) == bytes
    decreases |bytes|
  {
    if bytes != [] {
      var r := ReadChar(bytes);
      var c, used := r.c, r.used;
      DecodeHead(bytes);
      OnlyWellFormedIsRead(bytes);
      CleanTextEncodesBack(bytes[used..]);
      EncodeOnto(c, Decode(bytes[used..]));
      Rejoins(bytes, used);
    }
  }

  lemma Rejoins(bytes: seq<Byte>, used: nat)
    requires used <= |bytes|
    ensures bytes[..used] + bytes[used..] == bytes
  {
  }

  /** A character cut short reads as one replacement character, not as one per byte; a stray byte as one. */
  lemma CutShortReadsAsOne(c: char, k: nat)
    requires 0 < k < |EncodeChar(c)|
    ensures Decode(EncodeChar(c)[..k]) == [REPLACEMENT]
  {
    var bytes := EncodeChar(c)[..k];
    CutShortIsRead(c, k);
    assert bytes[k..] == [];
  }

  lemma CutShortIsRead(c: char, k: nat)
    requires 0 < k < |EncodeChar(c)|
    ensures ReadChar(EncodeChar(c)[..k]) == Read(REPLACEMENT, k)
  {
    var n, bytes := c as int, EncodeChar(c)[..k];
    if n < 0x800 {
      assert bytes == [0xC0 + n / 0x40];
    } else if n < 0x10000 {
      CutThreeIsRead(n, k);
    } else {
      CutFourIsRead(n, k);
    }
  }

  lemma CutThreeIsRead(n: nat, k: nat)
    requires 0x800 <= n < 0x10000 && !(0xD800 <= n <= 0xDFFF) && 0 < k < 3
    ensures ReadChar([0xE0 + n / 0x1000, 0x80 + n / 0x40 % 0x40, 0x80 + n % 0x40][..k]) == Read(REPLACEMENT, k)
  {
    var bytes := [0xE0 + n / 0x1000, 0x80 + n / 0x40 % 0x40, 0x80 + n % 0x40][..k];
    assert n / 0x1000 * 0x40 + n / 0x40 % 0x40 == n / 0x40;
    if k == 2 {
      assert Continue(bytes, 2, 1, 0x80, 0xBF, n / 0x40) == Read(REPLACEMENT, 2);
    }
  }

  lemma CutFourIsRead(n: nat, k: nat)
    requires 0x10000 <= n < 0x110000 && 0 < k < 4
    ensures ReadChar([0xF0 + n / 0x40000, 0x80 + n / 0x1000 % 0x40, 0x80 + n / 0x40 % 0x40, 0x80 + n % 0x40][..k])
            == Read(REPLACEMENT, k)
  {
    var bytes := [0xF0 + n / 0x40000, 0x80 + n / 0x1000 % 0x40, 0x80 + n / 0x40 % 0x40, 0x80 + n % 0x40][..k];
    Base64Digits(n);
    var a, b := n / 0x40000, n / 0x1000 % 0x40;
    if k == 3 {
      assert Continue(bytes, 3, 1, 0x80, 0xBF, (a * 64 + b) * 64 + n / 0x40 % 0x40) == Read(REPLACEMENT, 3);
    }
    if k >= 2 {
      assert Continue(bytes, 2, 2, 0x80, 0xBF, a * 64 + b) == Read(REPLACEMENT, k);
    }
  }

  lemma StrayReadsAsOne(b: Byte)
    requires 0x80 <= b <= 0xBF || b == 0xC0 || b == 0xC1 || b >= 0xF5
    ensures Decode([b]) == [REPLACEMENT]
  {
    assert [b][1..] == [];
  }
}
