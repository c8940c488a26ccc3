/** The raw Redis protocol (RESP) of the end-to-end test set-up (global-setup.ts): the command encoder and
    the recursive, line-based reply reader. */
module Resp {
  import opened Numerals
  import opened Prelude
  import Utf8

  // ----- Numbers and lines -----

  function Decimal(n: int): string {
    if n < 0 then ['-'] + Digits(-n) else Digits(n)
  }

  /** JavaScript's Number on decimal integers; None is NaN. The empty string reads as 0. */
  function Number(s: string): Option<int> {
    if s != [] && s[0] == '-' then
      if s[1..] == [] || FromDigits(s[1..]).None? then None else Some(0 - (FromDigits(s[1..]).value as int))
    else if FromDigits(s).None? then None
    else Some(FromDigits(s).value)
  }

  const CRLF := "\r\n"

  /** Where the first CRLF starts, or the length if there is none. */
  function FirstBreak(text: string): (k: nat)
    ensures k <= |text|
    ensures k < |text| ==> k + 2 <= |text|
  {
    if |text| < 2 then |text|
    else if text[0] == '\r' && text[1] == '\n' then 0
    else 1 + FirstBreak(text[1..])
  }

  function Split(text: string): seq<string>
    decreases |text|
  {
    var k := FirstBreak(text);
    if k == |text| then [text] else [text[..k]] + Split(text[k + 2..])
  }

  ghost predicate BreaksAt(text: string, i: nat) {
    i + 1 < |text| && text[i] == '\r' && text[i + 1] == '\n'
  }

  ghost predicate OneLine(text: string) {
    forall i: nat :: !BreaksAt(text, i)
  }

  // ----- The encoder -----

  function BulkWire(part: string): string {
    ['$'] + Digits(|Utf8.Encode(part)|) + CRLF + part + CRLF
  }

  function BulkWires(parts: seq<string>): string {
    if parts == [] then [] else BulkWire(parts[0]) + BulkWires(parts[1..])
  }

  function CommandText(parts: seq<string>): string {
    ['*'] + Digits(|parts|) + CRLF + BulkWires(parts)
  }

  lemma {:induction false} BulkWiresAppend(parts: seq<string>, part: string)
    ensures BulkWires(parts + [part]) == BulkWires(parts) + BulkWire(part)
    decreases |parts|
  {
    if parts == [] {
      assert (parts + [part])[1..] == [];
    } else {
      assert (parts + [part])[1..] == parts[1..] + [part];
      BulkWiresAppend(parts[1..], part);
    }
  }

  method EncodeCommand(parts: seq<string>) returns (bytes: seq<Utf8.Byte>)
    ensures bytes == Utf8.Encode(CommandText(parts))
  {
    var out := ['*'] + Digits(|parts|) + CRLF;
    ghost var header := out;
    for i := 0 to |parts|
      invariant out == header + BulkWires(parts[..i])
    {
      var p := parts[i];
      BulkWiresAppend(parts[..i], p);
      assert parts[..i + 1] == parts[..i] + [p];
      out := out + (['$'] + Digits(|Utf8.Encode(p)|) + CRLF + p + CRLF);
      assert out == header + (BulkWires(parts[..i]) + BulkWire(p));
    }
    assert parts[..|parts|] == parts;
    bytes := Utf8.Encode(out);
  }

  // ----- The reader -----

  datatype Value = Text(text: string) | Num(n: int) | NaN | Null | Undefined | List(items: seq<Value>)

  /** A value and the next line to read, or what was thrown. */
  datatype Outcome = Ok(value: Value, next: nat) | Thrown(message: string)

  datatype Many = Items(items: seq<Value>, next: nat) | Failed(message: string)

  function Left(lines: seq<string>, cur: nat): nat {
    if cur < |lines| then |lines| - cur else 0
  }

  function Read(lines: seq<string>, cur: nat): (r: Outcome)
    ensures r.Ok? ==> r.next > cur
    decreases Left(lines, cur), 0, 0
  {
    if cur >= |lines| then Ok(Null, cur + 1)
    else if lines[cur] == [] then Ok(Null, cur + 1)
    else
      var kind, rest := lines[cur][0], lines[cur][1..];
      if kind == '+' then Ok(Text(rest), cur + 1)
      else if kind == '-' then Thrown("Redis error: " + rest)
      else if kind == ':' then Ok(if Number(rest).Some? then Num(Number(rest).value) else NaN, cur + 1)
      else if kind == '$' then
        if rest == "-1" then Ok(Null, cur + 1)
        else Ok(if cur + 1 < |lines| then Text(lines[cur + 1]) else Undefined, cur + 2)
      else if kind == '*' then
        if Number(rest).None? then Ok(List([]), cur + 1)
        else if Number(rest).value < 0 then Ok(Null, cur + 1)
        else
          match ReadMany(lines, cur + 1, Number(rest).value)
          case Items(items, next) => Ok(List(items), next)
          case Failed(message) => Thrown(message)
      else Ok(Null, cur + 1)
  }

  function ReadMany(lines: seq<string>, cur: nat, n: nat): (r: Many)
    ensures r.Items? ==> r.next >= cur && |r.items| == n
    decreases Left(lines, cur), 1, n
  {
    if n == 0 then Items([], cur)
    else
      match Read(lines, cur)
      case Thrown(message) => Failed(message)
      case Ok(value, next) =>
        match ReadMany(lines, next, n - 1)
        case Failed(message) => Failed(message)
        case Items(items, last) => Items([value] + items, last)
  }

  function ParseReply(bytes: seq<Utf8.Byte>): Outcome {
    Read(Split(Utf8.Decode(bytes)), 0)
  }

  lemma {:induction false} ReadManySplits(lines: seq<string>, cur: nat, n: nat, m: nat)
    requires m <= n
    ensures ReadMany(lines, cur, n) ==
      match ReadMany(lines, cur, m)
      case Failed(message) => Failed(message)
      case Items(items, next) =>
        match ReadMany(lines, next, n - m)
        case Failed(message) => Failed(message)
        case Items(more, last) => Items(items + more, last)
    decreases m
  {
    if m > 0 && Read(lines, cur).Ok? {
      var value, next := Read(lines, cur).value, Read(lines, cur).next;
      ReadManySplits(lines, next, n - 1, m - 1);
      var first := ReadMany(lines, next, m - 1);
      if first.Items? && ReadMany(lines, first.next, n - m).Items? {
        assert [value] + (first.items + ReadMany(lines, first.next, n - m).items)
            == [value] + first.items + ReadMany(lines, first.next, n - m).items;
      }
    } else if m == 0 && ReadMany(lines, cur, n).Items? {
      assert [] + ReadMany(lines, cur, n).items == ReadMany(lines, cur, n).items;
    }
  }

  /** The reader's position, shared by the recursive calls. */
  class Cursor {
    var cur: nat

    constructor ()
      ensures cur == 0
    {
      cur := 0;
    }
  }

  /** The recursive reader in place: it advances `idx` and pushes into an array. */
  method ReadNext(lines: seq<string>, idx: Cursor) returns (r: Outcome)
    modifies idx
    ensures r == Read(lines, old(idx.cur))
    ensures r.Ok? ==> idx.cur == r.next
    decreases Left(lines, idx.cur)
  {
    var at := idx.cur;
    idx.cur := at + 1;
    if at >= |lines| || lines[at] == [] {
      return Ok(Null, idx.cur);
    }
    var kind, rest := lines[at][0], lines[at][1..];
    match kind {
      case '+' => r := Ok(Text(rest), idx.cur);
      case '-' => r := Thrown("Redis error: " + rest);
      case ':' => r := Ok(if Number(rest).Some? then Num(Number(rest).value) else NaN, idx.cur);
      case '$' =>
        if rest == "-1" {
          return Ok(Null, idx.cur);
        }
        var value := if idx.cur < |lines| then Text(lines[idx.cur]) else Undefined;
        idx.cur := idx.cur + 1;
        r := Ok(value, idx.cur);
      case '*' =>
        var n := Number(rest);
        if n.Some? && n.value < 0 {
          return Ok(Null, idx.cur);
        }
        var count: nat := if n.Some? then n.value else 0;
        var arr: seq<Value> := [];
        for i := 0 to count
          invariant idx.cur > at
          invariant ReadMany(lines, at + 1, i) == Items(arr, idx.cur)
        {
          ReadManySplits(lines, at + 1, i + 1, i);
          ReadManySplits(lines, at + 1, count, i + 1);
          var item := ReadNext(lines, idx);
          if item.Thrown? {
            return item;
          }
          arr := arr + [item.value];
        }
        r := Ok(List(arr), idx.cur);
      case _ => r := Ok(Null, idx.cur);
    }
  }

  method ParseBytes(bytes: seq<Utf8.Byte>) returns (r: Outcome)
    ensures r == ParseReply(bytes)
  {
    var idx := new Cursor();
    r := ReadNext(Split(Utf8.Decode(bytes)), idx);
  }
}
