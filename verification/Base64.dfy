/** Base64 as btoa writes it and atob reads it: RFC 4648 section 4, with atob's forgiving treatment of
    whitespace and missing padding. A binary string stands for its byte values. */
module Base64 {
  import opened Prelude
  import opened Utf8

  type Sextet = s: nat | s < 64

  function CharOf(s: Sextet): char {
    if s < 26 then 'A' + (s as char)
    else if s < 52 then 'a' + ((s - 26) as char)
    else if s < 62 then '0' + ((s - 52) as char)
    else if s == 62 then '+'
    else '/'
  }

  function SextetOf(c: char): Option<Sextet> {
    if 'A' <= c <= 'Z' then Some(c as int - 'A' as int)
    else if 'a' <= c <= 'z' then Some(c as int - 'a' as int + 26)
    else if '0' <= c <= '9' then Some(c as int - '0' as int + 52)
    else if c == '+' then Some(62)
    else if c == '/' then Some(63)
    else None
  }

  lemma CharReadsBack(s: Sextet)
    ensures SextetOf(CharOf(s)) == Some(s)
  {
  }

  predicate IsSpace(c: char) {
    c == ' ' || c == '\t' || c == '\n' || c == '\r' || c == '\U{000C}'
  }

  // ----- Bytes and sextets -----

  function ToSextets(bytes: seq<Byte>): seq<Sextet> {
    if bytes == [] then []
    else if |bytes| == 1 then [bytes[0] / 4, bytes[0] % 4 * 16]
    else if |bytes| == 2 then [bytes[0] / 4, bytes[0] % 4 * 16 + bytes[1] / 16, bytes[1] % 16 * 4]
    else
      [bytes[0] / 4, bytes[0] % 4 * 16 + bytes[1] / 16, bytes[1] % 16 * 4 + bytes[2] / 64, bytes[2] % 64]
        + ToSextets(bytes[3..])
  }

  function First(a: nat, b: nat): nat { a * 4 + b / 16 }
  function Second(b: nat, c: nat): nat { b % 16 * 16 + c / 4 }
  function Third(c: nat, d: nat): nat { c % 4 * 64 + d }

  /** Left over bits of an incomplete last group are dropped. */
  function FromSextets(ss: seq<Sextet>): seq<Byte> {
    if |ss| <= 1 then []
    else if |ss| == 2 then [First(ss[0], ss[1])]
    else if |ss| == 3 then [First(ss[0], ss[1]), Second(ss[1], ss[2])]
    else [First(ss[0], ss[1]), Second(ss[1], ss[2]), Third(ss[2], ss[3])] + FromSextets(ss[4..])
  }

  // ----- btoa and atob -----

  function Chars(ss: seq<Sextet>): string {
    if ss == [] then [] else [CharOf(ss[0])] + Chars(ss[1..])
  }

  function Unpadded(bytes: seq<Byte>): string {
    Chars(ToSextets(bytes))
  }

  function Pad(n: nat): string {
    if n == 0 then [] else ['='] + Pad(n - 1)
  }

  function Btoa(bytes: seq<Byte>): string {
    Unpadded(bytes) + Pad((3 - |bytes| % 3) % 3)
  }

  function NoSpaces(s: string): string {
    if s == [] then [] else if IsSpace(s[0]) then NoSpaces(s[1..]) else [s[0]] + NoSpaces(s[1..])
  }

  function StripPadding(s: string): string {
    if |s| % 4 != 0 then s
    else if |s| >= 2 && s[|s| - 1] == '=' && s[|s| - 2] == '=' then s[..|s| - 2]
    else if |s| >= 1 && s[|s| - 1] == '=' then s[..|s| - 1]
    else s
  }

  function Sextets(s: string): Option<seq<Sextet>> {
    if s == [] then Some([])
    else
      var head := SextetOf(s[0]);
      var rest := Sextets(s[1..]);
      if head.None? || rest.None? then None else Some([head.value] + rest.value)
  }

  /** None where atob throws. */
  function Atob(s: string): Option<seq<Byte>> {
    var data := StripPadding(NoSpaces(s));
    if |data| % 4 == 1 || Sextets(data).None? then None else Some(FromSextets(Sextets(data).value))
  }

  // ----- Decoding undoes encoding -----

  lemma GroupReadsBack(a: Byte, b: Byte, c: Byte)
    ensures First(a / 4, a % 4 * 16 + b / 16) == a
    ensures Second(a % 4 * 16 + b / 16, b % 16 * 4 + c / 64) == b
    ensures Third(b % 16 * 4 + c / 64, c % 64) == c
  {
  }

  lemma {:induction false} BytesReadBack(bytes: seq<Byte>)
    ensures FromSextets(ToSextets(bytes)) == bytes
    decreases |bytes|
  {
    if |bytes| == 1 {
      GroupReadsBack(bytes[0], 0, 0);
    } else if |bytes| == 2 {
      GroupReadsBack(bytes[0], bytes[1], 0);
    } else if |bytes| >= 3 {
      GroupReadsBack(bytes[0], bytes[1], bytes[2]);
      BytesReadBack(bytes[3..]);
      var ss := ToSextets(bytes);
      assert ss[4..] == ToSextets(bytes[3..]);
      assert bytes == [bytes[0], bytes[1], bytes[2]] + bytes[3..];
    }
  }

  lemma {:induction false} SextetCount(bytes: seq<Byte>)
    ensures |ToSextets(bytes)| == |bytes| / 3 * 4 + (if |bytes| % 3 == 0 then 0 else |bytes| % 3 + 1)
    decreases |bytes|
  {
    if |bytes| >= 3 {
      SextetCount(bytes[3..]);
      assert |bytes| / 3 == |bytes[3..]| / 3 + 1 && |bytes| % 3 == |bytes[3..]| % 3;
    }
  }

  lemma {:induction false} CharsReadBack(ss: seq<Sextet>)
    ensures |Chars(ss)| == |ss| && Sextets(Chars(ss)) == Some(ss)
    ensures forall c :: c in Chars(ss) ==> SextetOf(c).Some?
    decreases |ss|
  {
    if ss != [] {
      CharsReadBack(ss[1..]);
      CharReadsBack(ss[0]);
      assert Chars(ss)[0] == CharOf(ss[0]) && Chars(ss)[1..] == Chars(ss[1..]);
      assert ss == [ss[0]] + ss[1..];
    }
  }

  lemma {:induction false} NoSpacesIsIdentity(s: string)
    requires forall c :: c in s ==> !IsSpace(c)
    ensures NoSpaces(s) == s
    decreases |s|
  {
    if s != [] {
      assert s[0] in s && forall c :: c in s[1..] ==> c in s;
      NoSpacesIsIdentity(s[1..]);
    }
  }

  lemma {:induction false} PadIsSigns(n: nat)
    ensures |Pad(n)| == n && forall c :: c in Pad(n) ==> c == '='
  {
    if n > 0 {
      PadIsSigns(n - 1);
    }
  }

  lemma PadArithmetic(q: nat, r: nat)
    requires r < 3
    ensures var n := q * 4 + if r == 0 then 0 else r + 1;
            n % 4 != 1 && (n + (3 - r) % 3) % 4 == 0 && (3 - r) % 3 == (4 - n % 4) % 4 <= 2
  {
  }

  lemma UnpaddedLength(bytes: seq<Byte>)
    ensures |Unpadded(bytes)| % 4 != 1
    ensures (3 - |bytes| % 3) % 3 == (4 - |Unpadded(bytes)| % 4) % 4 <= 2
    ensures (|Unpadded(bytes)| + (3 - |bytes| % 3) % 3) % 4 == 0
  {
    SextetCount(bytes);
    CharsReadBack(ToSextets(bytes));
    PadArithmetic(|bytes| / 3, |bytes| % 3);
  }

  lemma BtoaHasNoSpaces(bytes: seq<Byte>)
    ensures NoSpaces(Btoa(bytes)) == Btoa(bytes)
  {
    CharsReadBack(ToSextets(bytes));
    PadIsSigns((3 - |bytes| % 3) % 3);
    forall c | c in Btoa(bytes)
      ensures !IsSpace(c)
    {
      assert c in Unpadded(bytes) || c in Pad((3 - |bytes| % 3) % 3);
    }
    NoSpacesIsIdentity(Btoa(bytes));
  }

  /** atob undoes btoa, for all byte strings. */
  lemma AtobUndoesBtoa(bytes: seq<Byte>)
    ensures Atob(Btoa(bytes)) == Some(bytes)
  {
    BytesReadBack(bytes);
    CharsReadBack(ToSextets(bytes));
    UnpaddedLength(bytes);
    BtoaHasNoSpaces(bytes);
    StripsOwnPadding(Unpadded(bytes), (3 - |bytes| % 3) % 3);
  }

  lemma {:induction false} SpaceIsSkipped(a: string, space: char, b: string)
    requires IsSpace(space)
    ensures NoSpaces(a + [space] + b) == NoSpaces(a + b)
    decreases |a|
  {
    if a == [] {
      assert ([space] + b)[1..] == b && a + [space] + b == [space] + b && a + b == b;
    } else {
      assert (a + [space] + b)[1..] == a[1..] + [space] + b && (a + b)[1..] == a[1..] + b;
      SpaceIsSkipped(a[1..], space, b);
    }
  }

  /** atob is forgiving: white space anywhere does not matter, */
  lemma AtobSkipsSpace(a: string, space: char, b: string)
    requires space in {' ', '\t', '\n', '\r', '\U{000C}'}
    ensures Atob(a + [space] + b) == Atob(a + b)
  {
    SpaceIsSkipped(a, space, b);
  }

  lemma NothingToStrip(data: string)
    requires forall c :: c in data ==> SextetOf(c).Some?
    ensures NoSpaces(data) == data && StripPadding(data) == data
  {
    assert forall k :: 0 <= k < |data| ==> data[k] in data;
    NoSpacesIsIdentity(data);
  }

  /** and its own padding may be missing. */
  lemma AtobNeedsNoPadding(bytes: seq<Byte>)
    ensures Atob(Unpadded(bytes)) == Some(bytes)
  {
    var data := Unpadded(bytes);
    BytesReadBack(bytes);
    CharsReadBack(ToSextets(bytes));
    UnpaddedLength(bytes);
    NothingToStrip(data);
  }

  lemma StripsOwnPadding(data: string, n: nat)
    requires n <= 2 && (|data| + n) % 4 == 0 && forall c :: c in data ==> SextetOf(c).Some?
    ensures StripPadding(data + Pad(n)) == data
  {
    PadIsSigns(n);
    var s := data + Pad(n);
    assert forall k :: 0 <= k < n ==> Pad(n)[k] in Pad(n);
    assert forall k :: 0 <= k < |data| ==> s[k] == data[k] && data[k] in data;
    assert forall k :: |data| <= k < |s| ==> s[k] == Pad(n)[k - |data|];
    assert s[..|data|] == data;
  }
}
