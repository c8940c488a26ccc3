/** The server's side of a command: parts are taken by their announced byte length, as the Redis serialization
    protocol has it under "Bulk strings" (exactly that many bytes, then CRLF). It recovers every command the
    encoder writes, whatever the parts contain. */
module RespServer {
  import opened Numerals
  import opened Prelude
  import opened Resp
  import opened Utf8

  const CR: Byte := 13
  const LF: Byte := 10

  /** A number, ended by CRLF, and the bytes after it. */
  datatype Count = Count(n: nat, rest: seq<Byte>)

  predicate IsDigitByte(b: Byte) {
    48 <= b <= 57
  }

  /** Reads on a number of which `n` has been read. */
  function TakeCount(n: nat, bytes: seq<Byte>): Option<Count>
    decreases |bytes|
  {
    if bytes == [] then None
    else if IsDigitByte(bytes[0]) then TakeCount(n * 10 + (bytes[0] - 48), bytes[1..])
    else if |bytes| >= 2 && bytes[0] == CR && bytes[1] == LF then Some(Count(n, bytes[2..]))
    else None
  }

  datatype Parts = Parts(parts: seq<seq<Byte>>, rest: seq<Byte>)

  /** `$`, the length, exactly that many bytes, CRLF. */
  function TakeBulk(bytes: seq<Byte>): Option<(seq<Byte>, seq<Byte>)> {
    if bytes == [] || bytes[0] != '$' as int then None
    else
      var length := TakeCount(0, bytes[1..]);
      if length.None? then None
      else
        var n, rest := length.value.n, length.value.rest;
        if |rest| < n + 2 || rest[n] != CR || rest[n + 1] != LF then None
        else Some((rest[..n], rest[n + 2..]))
  }

  function TakeBulks(n: nat, bytes: seq<Byte>): Option<Parts> {
    if n == 0 then Some(Parts([], bytes))
    else
      var first := TakeBulk(bytes);
      if first.None? then None
      else
        var others := TakeBulks(n - 1, first.value.1);
        if others.None? then None else Some(Parts([first.value.0] + others.value.parts, others.value.rest))
  }

  function TakeCommand(bytes: seq<Byte>): Option<Parts> {
    if bytes == [] || bytes[0] != '*' as int then None
    else
      var count := TakeCount(0, bytes[1..]);
      if count.None? then None else TakeBulks(count.value.n, count.value.rest)
  }

  // ----- What the encoder writes, in bytes -----

  lemma ThreeInARow<T>(x: seq<T>, y: seq<T>, z: seq<T>)
    ensures x + (y + z) == x + y + z
  {
  }

  lemma {:induction false} EncodeAppend(a: string, b: string)
    ensures Encode(a + b) == Encode(a) + Encode(b)
    decreases |a|
  {
    if a == [] {
      assert a + b == b;
    } else {
      EncodeAppend(a[1..], b);
      EncodeOnto(a[0], a[1..] + b);
      EncodeOnto(a[0], a[1..]);
      ThreeInARow(EncodeChar(a[0]), Encode(a[1..]), Encode(b));
      assert a == [a[0]] + a[1..] && a + b == [a[0]] + (a[1..] + b);
    }
  }

  lemma EncodeOne(c: char)
    requires c as int < 128
    ensures Encode([c]) == [c as int]
  {
    assert Encode([c]) == EncodeChar(c) + Encode([c][1..]);
  }

  lemma EncodeBreak()
    ensures Encode(CRLF) == [CR, LF]
  {
    EncodeOne('\r');
    EncodeOne('\n');
    EncodeAppend(['\r'], ['\n']);
    assert CRLF == ['\r'] + ['\n'];
  }

  lemma TakesDigit(n: nat, d: nat, rest: seq<Byte>)
    requires d < 10
    ensures Encode([DigitOf(d)]) == [48 + d]
    ensures TakeCount(n, Encode([DigitOf(d)]) + rest) == TakeCount(n * 10 + d, rest)
  {
    EncodeOne(DigitOf(d));
    assert ([48 + d] + rest)[1..] == rest;
  }

  lemma {:induction false} TakesDigits(n: nat, rest: seq<Byte>)
    ensures TakeCount(0, Encode(Digits(n)) + rest) == TakeCount(n, rest)
    decreases n
  {
    if n < 10 {
      TakesDigit(0, n, rest);
    } else {
      var last := Encode([DigitOf(n % 10)]);
      EncodeAppend(Digits(n / 10), [DigitOf(n % 10)]);
      ThreeInARow(Encode(Digits(n / 10)), last, rest);
      TakesDigits(n / 10, last + rest);
      TakesDigit(n / 10, n % 10, rest);
    }
  }

  /** A printed number with its line break is read back. */
  lemma TakesCount(n: nat, rest: seq<Byte>)
    ensures TakeCount(0, Encode(Digits(n) + CRLF) + rest) == Some(Count(n, rest))
  {
    EncodeAppend(Digits(n), CRLF);
    EncodeBreak();
    assert Encode(Digits(n) + CRLF) + rest == Encode(Digits(n)) + ([CR, LF] + rest);
    TakesDigits(n, [CR, LF] + rest);
    assert ([CR, LF] + rest)[2..] == rest;
  }

  lemma BulkBytes(part: string)
    ensures Encode(BulkWire(part)) ==
            ['$' as int] + (Encode(Digits(|Encode(part)|) + CRLF) + (Encode(part) + [CR, LF]))
  {
    var length := Digits(|Encode(part)|) + CRLF;
    EncodeOne('$');
    EncodeBreak();
    BulkWireIs(part, length);
    EncodeAppend(['$'], length + (part + CRLF));
    EncodeAppend(length, part + CRLF);
    EncodeAppend(part, CRLF);
  }

  lemma BulkWireIs(part: string, length: string)
    requires length == Digits(|Encode(part)|) + CRLF
    ensures BulkWire(part) == ['$'] + (length + (part + CRLF))
  {
    ThreeInARow(['$'], Digits(|Encode(part)|), CRLF);
    ThreeInARow(['$'] + length, part, CRLF);
    ThreeInARow(['$'], length, part + CRLF);
  }

  /** The reader takes a bulk string apart as it is put together. */
  lemma TakesBytes(length: seq<Byte>, body: seq<Byte>, rest: seq<Byte>)
    requires forall after :: TakeCount(0, length + after) == Some(Count(|body|, after))
    ensures TakeBulk(['$' as int] + (length + (body + [CR, LF])) + rest) == Some((body, rest))
  {
    var after := body + [CR, LF] + rest;
    var bytes := ['$' as int] + (length + (body + [CR, LF])) + rest;
    assert bytes[1..] == length + after;
    assert TakeCount(0, length + after) == Some(Count(|body|, after));
    assert after[..|body|] == body && after[|body| + 2..] == rest;
  }

  lemma TakesBulk(part: string, rest: seq<Byte>)
    ensures TakeBulk(Encode(BulkWire(part)) + rest) == Some((Encode(part), rest))
  {
    BulkBytes(part);
    forall after
      ensures TakeCount(0, Encode(Digits(|Encode(part)|) + CRLF) + after) == Some(Count(|Encode(part)|, after))
    {
      TakesCount(|Encode(part)|, after);
    }
    TakesBytes(Encode(Digits(|Encode(part)|) + CRLF), Encode(part), rest);
  }

  function Encodings(parts: seq<string>): seq<seq<Byte>> {
    if parts == [] then [] else [Encode(parts[0])] + Encodings(parts[1..])
  }

  lemma {:induction false} TakesBulks(parts: seq<string>, rest: seq<Byte>)
    ensures TakeBulks(|parts|, Encode(BulkWires(parts)) + rest) == Some(Parts(Encodings(parts), rest))
    decreases |parts|
  {
    if parts == [] {
      assert Encode(BulkWires(parts)) + rest == rest;
    } else {
      var others := Encode(BulkWires(parts[1..]));
      EncodeAppend(BulkWire(parts[0]), BulkWires(parts[1..]));
      assert Encode(BulkWires(parts)) + rest == Encode(BulkWire(parts[0])) + (others + rest);
      TakesBulk(parts[0], others + rest);
      TakesBulks(parts[1..], rest);
    }
  }

  lemma {:induction false} EncodingsReadBack(parts: seq<string>, k: int)
    requires 0 <= k < |parts|
    ensures |Encodings(parts)| == |parts| && Decode(Encodings(parts)[k]) == parts[k]
    decreases |parts|
  {
    DecodesBack(parts[0]);
    if |parts| == 1 {
      assert Encodings(parts[1..]) == [];
    } else {
      EncodingsReadBack(parts[1..], if k > 0 then k - 1 else 0);
    }
  }

  /** The server takes from an encoded command exactly its parts, byte for byte, and nothing is left over: for
      all parts, with line breaks and characters of any length in them. */
  lemma ServerTakesCommand(parts: seq<string>)
    ensures TakeCommand(Encode(CommandText(parts))) == Some(Parts(Encodings(parts), []))
    ensures |Encodings(parts)| == |parts| && forall k :: 0 <= k < |parts| ==> Decode(Encodings(parts)[k]) == parts[k]
  {
    var count := Digits(|parts|) + CRLF;
    assert CommandText(parts) == ['*'] + (count + BulkWires(parts));
    EncodeOne('*');
    EncodeAppend(['*'], count + BulkWires(parts));
    EncodeAppend(count, BulkWires(parts));
    var bytes := Encode(CommandText(parts));
    assert bytes[1..] == Encode(count) + Encode(BulkWires(parts));
    TakesCount(|parts|, Encode(BulkWires(parts)));
    TakesBulks(parts, []);
    assert Encode(BulkWires(parts)) + [] == Encode(BulkWires(parts));
    forall k | 0 <= k < |parts|
      ensures Decode(Encodings(parts)[k]) == parts[k]
    {
      EncodingsReadBack(parts, k);
    }
    if parts != [] {
      EncodingsReadBack(parts, 0);
    }
  }
}
