/** Reading undoes writing for the Redis protocol: for every nested reply, and for commands exactly when no
    part contains a CRLF. */
module RespRoundTrip {
  import opened Numerals
  import opened Prelude
  import opened Resp
  import Utf8

  // ----- Numbers -----

  lemma DecimalReadsBack(n: int)
    ensures Number(Decimal(n)) == Some(n) && Decimal(n) != []
    ensures forall c :: c in Decimal(n) ==> IsDigit(c) || c == '-'
    ensures n >= 0 ==> '-' !in Decimal(n)
  {
    DigitsReadBack(if n < 0 then -n else n);
    if n < 0 {
      assert Decimal(n)[1..] == Digits(-n);
    } else {
      assert Decimal(n)[0] in Decimal(n);
    }
  }

  // ----- Lines -----

  lemma {:induction false} FirstBreakIffOneLine(text: string)
    ensures FirstBreak(text) == |text| <==> OneLine(text)
    decreases |text|
  {
    if |text| >= 2 {
      FirstBreakIffOneLine(text[1..]);
      assert forall i: nat :: BreaksAt(text[1..], i) ==> BreaksAt(text, i + 1);
      assert forall i: nat :: i > 0 && BreaksAt(text, i) ==> BreaksAt(text[1..], i - 1);
      assert BreaksAt(text, 0) <==> text[0] == '\r' && text[1] == '\n';
    }
  }

  /** A line ends at the first CRLF after it, even if it ends in CR or the next one starts with LF. */
  lemma {:induction false} BreakFollowsLine(line: string, rest: string)
    ensures FirstBreak(line + CRLF + rest) == FirstBreak(line)
    decreases |line|
  {
    var text := line + CRLF + rest;
    if |line| >= 1 {
      assert text[1..] == line[1..] + CRLF + rest;
      BreakFollowsLine(line[1..], rest);
    }
  }

  lemma SplitsOffLine(line: string, rest: string)
    requires OneLine(line)
    ensures Split(line + CRLF + rest) == [line] + Split(rest)
  {
    var text := line + CRLF + rest;
    FirstBreakIffOneLine(line);
    BreakFollowsLine(line, rest);
    assert text[..|line|] == line && text[|line| + 2..] == rest;
  }

  /** A tagged header such as a length line never contains a break. */
  lemma TaggedIsOneLine(tag: char, body: string)
    requires tag != '\r' && OneLine(body)
    ensures OneLine([tag] + body)
  {
    assert forall i: nat :: i > 0 && BreaksAt([tag] + body, i) ==> BreaksAt(body, i - 1);
  }

  lemma DecimalIsOneLine(n: int)
    ensures OneLine(Decimal(n))
  {
    DecimalReadsBack(n);
    assert forall i :: 0 <= i < |Decimal(n)| ==> Decimal(n)[i] in Decimal(n);
  }

  // ----- Replies -----

  datatype Reply =
    | Simple(text: string) | Error(text: string) | Int(n: int)
    | Nil | NilArray | Bulk(text: string) | Array(items: seq<Reply>)

  function Wire(r: Reply): string
    decreases r, 1
  {
    match r
    case Simple(text) => ['+'] + text + CRLF
    case Error(text) => ['-'] + text + CRLF
    case Int(n) => [':'] + Decimal(n) + CRLF
    case Nil => "$-1" + CRLF
    case NilArray => "*-1" + CRLF
    case Bulk(text) => BulkWire(text)
    case Array(items) => ['*'] + Digits(|items|) + CRLF + Wires(items)
  }

  function Wires(items: seq<Reply>): string
    decreases items, 0
  {
    if items == [] then [] else Wire(items[0]) + Wires(items[1..])
  }

  /** All texts in the reply fit on a line. */
  ghost predicate Clean(r: Reply)
    decreases r, 1
  {
    match r
    case Simple(text) => OneLine(text)
    case Error(text) => OneLine(text)
    case Bulk(text) => OneLine(text)
    case Array(items) => AllClean(items)
    case _ => true
  }

  ghost predicate AllClean(items: seq<Reply>)
    decreases items, 0
  {
    items != [] ==> Clean(items[0]) && AllClean(items[1..])
  }

  datatype Meaning = Means(value: Value) | Fails(message: string)

  datatype Meanings = Mean(values: seq<Value>) | Fail(message: string)

  /** What a reply stands for: its value, or the first error in it. */
  function MeaningOf(r: Reply): Meaning
    decreases r, 1
  {
    match r
    case Simple(text) => Means(Text(text))
    case Error(text) => Fails("Redis error: " + text)
    case Int(n) => Means(Num(n))
    case Nil => Means(Null)
    case NilArray => Means(Null)
    case Bulk(text) => Means(Text(text))
    case Array(items) =>
      match MeaningsOf(items)
      case Mean(values) => Means(List(values))
      case Fail(message) => Fails(message)
  }

  function MeaningsOf(items: seq<Reply>): Meanings
    decreases items, 0
  {
    if items == [] then Mean([])
    else
      match MeaningOf(items[0])
      case Fails(message) => Fail(message)
      case Means(value) =>
        match MeaningsOf(items[1..])
        case Fail(message) => Fail(message)
        case Mean(values) => Mean([value] + values)
  }

  function LineCount(r: Reply): nat
    decreases r, 1
  {
    match r
    case Bulk(_) => 2
    case Array(items) => 1 + LineCounts(items)
    case _ => 1
  }

  function LineCounts(items: seq<Reply>): nat
    decreases items, 0
  {
    if items == [] then 0 else LineCount(items[0]) + LineCounts(items[1..])
  }

  /** The wire text continues at line `cur`. */
  ghost predicate At(lines: seq<string>, cur: nat, text: string) {
    cur <= |lines| && lines[cur..] == Split(text)
  }

  /** Reading at `cur` gives the meaning of `r`, consumes exactly its lines and leaves the reader at `rest`. */
  ghost predicate Reads(lines: seq<string>, cur: nat, r: Reply, rest: string) {
    match MeaningOf(r)
    case Means(value) => Read(lines, cur) == Ok(value, cur + LineCount(r)) && At(lines, cur + LineCount(r), rest)
    case Fails(message) => Read(lines, cur) == Thrown(message)
  }

  lemma AtLine(lines: seq<string>, cur: nat, line: string, rest: string)
    requires At(lines, cur, line + CRLF + rest) && OneLine(line)
    ensures cur < |lines| && lines[cur] == line && At(lines, cur + 1, rest)
  {
    SplitsOffLine(line, rest);
    assert lines[cur..][0] == line && lines[cur..][1..] == Split(rest);
    assert lines[cur + 1..] == lines[cur..][1..];
  }

  lemma ReadsHeader(lines: seq<string>, cur: nat, tag: char, body: string, rest: string)
    requires At(lines, cur, [tag] + body + CRLF + rest) && tag != '\r' && OneLine(body)
    ensures cur < |lines| && lines[cur] == [tag] + body && At(lines, cur + 1, rest)
    ensures lines[cur][0] == tag && lines[cur][1..] == body
  {
    TaggedIsOneLine(tag, body);
    AtLine(lines, cur, [tag] + body, rest);
  }

  lemma ReadsBulk(lines: seq<string>, cur: nat, part: string, rest: string)
    requires At(lines, cur, BulkWire(part) + rest)
    ensures Read(lines, cur) == Ok(Text(part[..FirstBreak(part)]), cur + 2)
    ensures OneLine(part) ==> part[..FirstBreak(part)] == part && At(lines, cur + 2, rest)
  {
    var size := |Utf8.Encode(part)|;
    DigitsReadBack(size);
    DecimalIsOneLine(size);
    assert BulkWire(part) + rest == ['$'] + Digits(size) + CRLF + (part + CRLF + rest);
    ReadsHeader(lines, cur, '$', Digits(size), part + CRLF + rest);
    assert Digits(size)[0] in Digits(size) && Digits(size) != "-1";
    BreakFollowsLine(part, rest);
    FirstBreakIffOneLine(part);
    var text := part + CRLF + rest;
    assert lines[cur + 1..][0] == text[..FirstBreak(text)];
    assert text[..FirstBreak(text)] == part[..FirstBreak(part)];
    if OneLine(part) {
      AtLine(lines, cur + 1, part, rest);
    }
  }

  lemma ReadsArrayHeader(lines: seq<string>, cur: nat, n: nat, rest: string)
    requires At(lines, cur, ['*'] + Digits(n) + CRLF + rest)
    ensures At(lines, cur + 1, rest)
    ensures Read(lines, cur) ==
      match ReadMany(lines, cur + 1, n)
      case Items(items, next) => Ok(List(items), next)
      case Failed(message) => Thrown(message)
  {
    DecimalReadsBack(n);
    DecimalIsOneLine(n);
    ReadsHeader(lines, cur, '*', Decimal(n), rest);
  }

  lemma ReadsText(lines: seq<string>, cur: nat, r: Reply, rest: string)
    requires (r.Simple? || r.Error?) && Clean(r) && At(lines, cur, Wire(r) + rest)
    ensures Reads(lines, cur, r, rest)
  {
    ReadsHeader(lines, cur, if r.Simple? then '+' else '-', r.text, rest);
  }

  lemma ReadsInt(lines: seq<string>, cur: nat, n: int, rest: string)
    requires At(lines, cur, Wire(Int(n)) + rest)
    ensures Reads(lines, cur, Int(n), rest)
  {
    DecimalReadsBack(n);
    DecimalIsOneLine(n);
    ReadsHeader(lines, cur, ':', Decimal(n), rest);
  }

  lemma ReadsNil(lines: seq<string>, cur: nat, r: Reply, rest: string)
    requires (r.Nil? || r.NilArray?) && At(lines, cur, Wire(r) + rest)
    ensures Reads(lines, cur, r, rest)
  {
    var tag := if r.Nil? then '$' else '*';
    assert "$-1" == ['$'] + "-1" && "*-1" == ['*'] + "-1";
    ReadsHeader(lines, cur, tag, "-1", rest);
    DecimalReadsBack(-1);
    assert Decimal(-1) == "-1";
  }

  lemma ReadsLeaf(lines: seq<string>, cur: nat, r: Reply, rest: string)
    requires !r.Array? && Clean(r) && At(lines, cur, Wire(r) + rest)
    ensures Reads(lines, cur, r, rest)
  {
    match r
    case Int(n) => ReadsInt(lines, cur, n, rest);
    case Nil => ReadsNil(lines, cur, r, rest);
    case NilArray => ReadsNil(lines, cur, r, rest);
    case Bulk(text) => ReadsBulk(lines, cur, text, rest);
    case _ => ReadsText(lines, cur, r, rest);
  }

  /** Reading the wire form of a reply gives its meaning and consumes exactly its lines. */
  lemma {:induction false} ReadsReply(lines: seq<string>, cur: nat, r: Reply, rest: string)
    requires Clean(r) && At(lines, cur, Wire(r) + rest)
    ensures Reads(lines, cur, r, rest)
    decreases r, 1
  {
    if r.Array? {
      assert Wire(r) + rest == ['*'] + Digits(|r.items|) + CRLF + (Wires(r.items) + rest);
      ReadsArrayHeader(lines, cur, |r.items|, Wires(r.items) + rest);
      ReadsReplies(lines, cur + 1, r.items, rest);
    } else {
      ReadsLeaf(lines, cur, r, rest);
    }
  }

  lemma {:induction false} ReadsReplies(lines: seq<string>, cur: nat, items: seq<Reply>, rest: string)
    requires AllClean(items) && At(lines, cur, Wires(items) + rest)
    ensures match MeaningsOf(items)
            case Mean(values) =>
              ReadMany(lines, cur, |items|) == Items(values, cur + LineCounts(items)) && At(lines, cur + LineCounts(items), rest)
            case Fail(message) => ReadMany(lines, cur, |items|) == Failed(message)
    decreases items, 0
  {
    if items == [] {
      assert Wires(items) + rest == rest;
    } else {
      var first, others := items[0], items[1..];
      assert Wires(items) + rest == Wire(first) + (Wires(others) + rest);
      ReadsReply(lines, cur, first, Wires(others) + rest);
      var next := cur + LineCount(first);
      if MeaningOf(first).Means? {
        ReadsReplies(lines, next, others, rest);
        PrependsItem(lines, cur, |others|, MeaningOf(first).value, next);
        assert next + LineCounts(others) == cur + LineCounts(items);
      } else {
        assert ReadMany(lines, cur, |items|) == Failed(MeaningOf(first).message);
      }
    }
  }

  lemma PrependsItem(lines: seq<string>, cur: nat, n: nat, value: Value, next: nat)
    requires Read(lines, cur) == Ok(value, next)
    ensures ReadMany(lines, cur, n + 1) ==
      match ReadMany(lines, next, n)
      case Failed(message) => Failed(message)
      case Items(items, last) => Items([value] + items, last)
  {
  }

  /** Parsing undoes printing, for every nested reply whose texts are free of CRLF; an error anywhere inside
      is thrown instead, the first one in reading order. */
  lemma ParsesReply(r: Reply)
    requires Clean(r)
    ensures ParseReply(Utf8.Encode(Wire(r))) ==
      match MeaningOf(r) case Means(value) => Ok(value, LineCount(r)) case Fails(message) => Thrown(message)
  {
    Utf8.DecodesBack(Wire(r));
    var lines := Split(Wire(r));
    assert Wire(r) + [] == Wire(r) && lines[0..] == lines;
    ReadsReply(lines, 0, r, []);
  }

  // ----- Commands -----

  function Texts(parts: seq<string>): seq<Value> {
    if parts == [] then [] else [Text(parts[0])] + Texts(parts[1..])
  }

  ghost predicate AllOneLine(parts: seq<string>) {
    forall part :: part in parts ==> OneLine(part)
  }

  lemma {:induction false} ReadsPartsIff(lines: seq<string>, cur: nat, parts: seq<string>, rest: string)
    requires At(lines, cur, BulkWires(parts) + rest)
    ensures (ReadMany(lines, cur, |parts|).Items? && ReadMany(lines, cur, |parts|).items == Texts(parts)) <==> AllOneLine(parts)
    ensures AllOneLine(parts) ==> ReadMany(lines, cur, |parts|) == Items(Texts(parts), cur + 2 * |parts|)
    decreases |parts|
  {
    if parts != [] {
      assert BulkWires(parts) + rest == BulkWire(parts[0]) + (BulkWires(parts[1..]) + rest);
      ReadsBulk(lines, cur, parts[0], BulkWires(parts[1..]) + rest);
      assert parts == [parts[0]] + parts[1..];
      if OneLine(parts[0]) {
        ReadsPartsIff(lines, cur + 2, parts[1..], rest);
        var more := ReadMany(lines, cur + 2, |parts| - 1);
        if more.Items? {
          assert ([Text(parts[0])] + more.items)[1..] == more.items;
          assert Texts(parts)[1..] == Texts(parts[1..]);
        }
      } else {
        FirstBreakIffOneLine(parts[0]);
        assert parts[0] in parts;
        assert Texts(parts)[0] == Text(parts[0]);
        assert |parts[0][..FirstBreak(parts[0])]| < |parts[0]|;
      }
    }
  }

  /** Reading back an encoded command gives its parts exactly when no part contains a CRLF: the reader goes
      by lines and ignores the announced lengths. Parts ending in CR or starting with LF are fine. */
  lemma CommandReadsBackIff(parts: seq<string>)
    ensures var r := ParseReply(Utf8.Encode(CommandText(parts)));
            (r.Ok? && r.value == List(Texts(parts))) <==> AllOneLine(parts)
    ensures AllOneLine(parts) ==>
              ParseReply(Utf8.Encode(CommandText(parts))) == Ok(List(Texts(parts)), 1 + 2 * |parts|)
  {
    var text := CommandText(parts);
    Utf8.DecodesBack(text);
    var lines := Split(text);
    assert lines[0..] == lines;
    assert text == ['*'] + Digits(|parts|) + CRLF + (BulkWires(parts) + []);
    ReadsCommandIff(lines, parts, []);
  }

  lemma ReadsCommandIff(lines: seq<string>, parts: seq<string>, rest: string)
    requires At(lines, 0, ['*'] + Digits(|parts|) + CRLF + (BulkWires(parts) + rest))
    ensures (Read(lines, 0).Ok? && Read(lines, 0).value == List(Texts(parts))) <==> AllOneLine(parts)
    ensures AllOneLine(parts) ==> Read(lines, 0) == Ok(List(Texts(parts)), 1 + 2 * |parts|)
  {
    ReadsArrayHeader(lines, 0, |parts|, BulkWires(parts) + rest);
    ReadsPartsIff(lines, 1, parts, rest);
  }
}
