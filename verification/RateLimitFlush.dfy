/** The rate-limit reset of the end-to-end set-up (global-setup.ts): SCAN pages until the cursor is back at 0,
    deleting each page's keys. Whether SCAN ever gets there is up to Redis, so a run is given by the replies
    received so far. */
module RateLimitFlush {
  import opened Prelude

  type Command = seq<string>

  /** The reply to one SCAN: a page (`deleted` says whether the DEL of its keys went through), null, or a
      failure. `created` are the keys others create before the page is read. */
  datatype Round =
    | Page(next: string, keys: seq<string>, deleted: bool, created: set<string>)
    | Null
    | Broken

  datatype End = Complete | NoReply | Threw | Waiting

  datatype Flushed = Flushed(sent: seq<Command>, total: nat, end: End)

  function ScanCommand(cursor: string): Command {
    ["SCAN", cursor, "MATCH", "rl:*", "COUNT", "500"]
  }

  /** SCAN, and DEL if the page lists anything. */
  function PageCommands(cursor: string, keys: seq<string>): seq<Command> {
    [ScanCommand(cursor)] + if keys == [] then [] else [["DEL"] + keys]
  }

  /** The run from here on, `sent` and `total` being what it has sent and counted so far. */
  function Flush(sent: seq<Command>, total: nat, cursor: string, rounds: seq<Round>): Flushed
    decreases |rounds|
  {
    if rounds == [] then Flushed(sent, total, Waiting)
    else
      match rounds[0]
      case Null => Flushed(sent + [ScanCommand(cursor)], total, NoReply)
      case Broken => Flushed(sent + [ScanCommand(cursor)], total, Threw)
      case Page(next, keys, deleted, _) =>
        var told := sent + PageCommands(cursor, keys);
        if keys != [] && !deleted then Flushed(told, total, Threw)
        else if next == "0" then Flushed(told, total + |keys|, Complete)
        else Flush(told, total + |keys|, next, rounds[1..])
  }

  function FlushOf(rounds: seq<Round>): Flushed {
    Flush([], 0, "0", rounds)
  }

  method FlushRateLimitKeys(rounds: seq<Round>) returns (run: Flushed)
    ensures run == FlushOf(rounds)
  {
    var cursor := "0";
    var total: nat, k: nat := 0, 0;
    var sent: seq<Command> := [];
    while k < |rounds|
      invariant k <= |rounds|
      invariant FlushOf(rounds) == Flush(sent, total, cursor, rounds[k..])
    {
      var round := rounds[k];
      assert rounds[k..][1..] == rounds[k + 1..];
      ghost var told := if round.Page? then sent + PageCommands(cursor, round.keys) else [];
      sent := sent + [ScanCommand(cursor)];
      k := k + 1;
      if !round.Page? {
        return Flushed(sent, total, if round.Null? then NoReply else Threw);
      }
      cursor := round.next;
      if |round.keys| > 0 {
        sent := sent + [["DEL"] + round.keys];
        assert sent == told;
        if !round.deleted {
          return Flushed(sent, total, Threw);
        }
        total := total + |round.keys|;
      }
      assert sent == told;
      if cursor == "0" {
        return Flushed(sent, total, Complete);
      }
    }
    return Flushed(sent, total, Waiting);
  }

  // ----- What a complete run has done -----

  function SetOf(keys: seq<string>): set<string> {
    set key | key in keys
  }

  /** Every key on the pages read, in order. */
  function Listed(rounds: seq<Round>): seq<string>
    decreases |rounds|
  {
    if rounds == [] || !rounds[0].Page? then []
    else if rounds[0].next == "0" then rounds[0].keys
    else rounds[0].keys + Listed(rounds[1..])
  }

  function Created(rounds: seq<Round>): set<string>
    decreases |rounds|
  {
    if rounds == [] || !rounds[0].Page? then {}
    else if rounds[0].next == "0" then rounds[0].created
    else rounds[0].created + Created(rounds[1..])
  }

  /** What a command does to the stored keys. */
  function Executed(store: set<string>, command: Command): set<string> {
    if command != [] && command[0] == "DEL" then store - SetOf(command[1..]) else store
  }

  predicate IsScan(command: Command) {
    command != [] && command[0] == "SCAN"
  }

  /** The stored keys after the commands `sent`, others creating keys before each page is read. */
  function StoreAfter(store: set<string>, sent: seq<Command>, rounds: seq<Round>): set<string>
    decreases |sent|
  {
    if sent == [] then store
    else if IsScan(sent[0]) && rounds != [] && rounds[0].Page? then
      StoreAfter(Executed(store, sent[0]) + rounds[0].created, sent[1..], rounds[1..])
    else StoreAfter(Executed(store, sent[0]), sent[1..], rounds)
  }

  /** The pages read end with the one whose cursor is 0. */
  predicate IsComplete(rounds: seq<Round>)
    decreases |rounds|
  {
    && rounds != [] && rounds[0].Page? && (rounds[0].keys == [] || rounds[0].deleted)
    && (rounds[0].next == "0" || IsComplete(rounds[1..]))
  }

  lemma {:induction false} TotalIsListed(sent: seq<Command>, total: nat, cursor: string, rounds: seq<Round>)
    ensures var run := Flush(sent, total, cursor, rounds);
            && (run.end.Complete? <==> IsComplete(rounds))
            && (IsComplete(rounds) ==> run.total == total + |Listed(rounds)|)
    decreases |rounds|
  {
    if rounds != [] && rounds[0].Page? && (rounds[0].keys == [] || rounds[0].deleted) && rounds[0].next != "0" {
      TotalIsListed(sent + PageCommands(cursor, rounds[0].keys), total + |rounds[0].keys|, rounds[0].next, rounds[1..]);
    }
  }

  /** What a run sends is what it had sent so far, and then what it would send on its own. */
  lemma {:induction false} FlushSends(sent: seq<Command>, total: nat, cursor: string, rounds: seq<Round>)
    ensures Flush(sent, total, cursor, rounds).sent == sent + Flush([], 0, cursor, rounds).sent
    decreases |rounds|
  {
    if rounds != [] && rounds[0].Page? && (rounds[0].keys == [] || rounds[0].deleted) && rounds[0].next != "0" {
      var commands := PageCommands(cursor, rounds[0].keys);
      FlushSends(sent + commands, total + |rounds[0].keys|, rounds[0].next, rounds[1..]);
      FlushSends(commands, |rounds[0].keys|, rounds[0].next, rounds[1..]);
      assert [] + commands == commands;
    }
  }

  /** The commands of one page add what others created meanwhile and take away the page's keys. */
  lemma PageExecutes(store: set<string>, cursor: string, rounds: seq<Round>, rest: seq<Command>)
    requires rounds != [] && rounds[0].Page?
    ensures StoreAfter(store, PageCommands(cursor, rounds[0].keys) + rest, rounds) ==
            StoreAfter(store + rounds[0].created - SetOf(rounds[0].keys), rest, rounds[1..])
  {
    var keys := rounds[0].keys;
    var commands := PageCommands(cursor, keys) + rest;
    var left := store + rounds[0].created;
    if keys == [] {
      assert commands[1..] == rest && left - SetOf(keys) == left;
    } else {
      var del := ["DEL"] + keys;
      assert commands[1..] == [del] + rest && ([del] + rest)[1..] == rest && del[1..] == keys;
      assert StoreAfter(left, [del] + rest, rounds[1..]) == StoreAfter(left - SetOf(keys), rest, rounds[1..]);
    }
  }

  /** A complete run sends the commands of its first page and then those of the rest. */
  lemma SendsPageByPage(cursor: string, rounds: seq<Round>)
    requires IsComplete(rounds)
    ensures Flush([], 0, cursor, rounds).sent ==
            PageCommands(cursor, rounds[0].keys) +
              if rounds[0].next == "0" then [] else Flush([], 0, rounds[0].next, rounds[1..]).sent
  {
    assert [] + PageCommands(cursor, rounds[0].keys) == PageCommands(cursor, rounds[0].keys);
    if rounds[0].next != "0" {
      FlushSends(PageCommands(cursor, rounds[0].keys), |rounds[0].keys|, rounds[0].next, rounds[1..]);
    }
  }

  lemma {:induction false} SentClears(cursor: string, rounds: seq<Round>, store: set<string>, key: string)
    requires IsComplete(rounds)
    ensures var after := StoreAfter(store, Flush([], 0, cursor, rounds).sent, rounds);
      && (key !in Created(rounds) && (key in Listed(rounds) || key !in store) ==> key !in after)
      && (key in store && key !in Listed(rounds) ==> key in after)
    decreases |rounds|
  {
    var next := rounds[0].next;
    var rest := if next == "0" then [] else Flush([], 0, next, rounds[1..]).sent;
    SendsPageByPage(cursor, rounds);
    PageExecutes(store, cursor, rounds, rest);
    if next != "0" {
      SentClears(next, rounds[1..], store + rounds[0].created - SetOf(rounds[0].keys), key);
    }
  }

  /** The commands a complete run has sent leave no listed key that nobody created again, and every stored
      key that was not listed. */
  lemma FlushClears(rounds: seq<Round>, store: set<string>, key: string)
    requires FlushOf(rounds).end.Complete?
    ensures var after := StoreAfter(store, FlushOf(rounds).sent, rounds);
      && (key in Listed(rounds) && key !in Created(rounds) ==> key !in after)
      && (key in store && key !in Listed(rounds) ==> key in after)
  {
    TotalIsListed([], 0, "0", rounds);
    SentClears("0", rounds, store, key);
  }

  lemma NoDupIff(head: string, rest: seq<string>)
    ensures NoDup([head] + rest) <==> head !in rest && NoDup(rest)
  {
    var keys := [head] + rest;
    assert forall k :: 0 <= k < |rest| ==> keys[k + 1] == rest[k];
    assert keys[0] == head;
  }

  lemma {:induction false} CountsDistinctIff(keys: seq<string>)
    ensures |SetOf(keys)| <= |keys|
    ensures |SetOf(keys)| == |keys| <==> NoDup(keys)
    decreases |keys|
  {
    if keys != [] {
      CountsDistinctIff(keys[1..]);
      NoDupIff(keys[0], keys[1..]);
      assert keys == [keys[0]] + keys[1..];
      assert SetOf(keys) == SetOf(keys[1..]) + {keys[0]};
    }
  }

  /** The number reported is the number of distinct keys removed exactly when SCAN listed none twice, which
      Redis does not promise; otherwise it is too high. */
  lemma TotalIsExactIff(rounds: seq<Round>)
    requires FlushOf(rounds).end.Complete?
    ensures IsComplete(rounds) && |SetOf(Listed(rounds))| <= FlushOf(rounds).total
    ensures FlushOf(rounds).total == |SetOf(Listed(rounds))| <==> NoDup(Listed(rounds))
  {
    TotalIsListed([], 0, "0", rounds);
    CountsDistinctIff(Listed(rounds));
  }
}
