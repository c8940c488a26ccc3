/** Encryption bootstrap on login (AuthContext.tsx, setupEncryption and handleRecoveryConfirmed): any number
    of devices of one account share the server's record, and each step between two awaits is atomic. A key
    is an opaque value, an envelope wraps a key under recovery words. */
module KeyMigration {
  import opened Prelude

  type Key = nat
  type Words = nat
  type DeviceId = nat

  datatype Envelope = Envelope(key: Key, words: Words)

  datatype Server = Server(
    legacy: Option<Key>,         // the server-held PKCS8 blob, `basic-key`
    envelope: Option<Envelope>,
    published: Option<Key>)      // the key whose public half is published

  /** The deferred wrap closure: what it uploads, whether it then deletes the legacy blob, and whether the
      upload has happened while the delete is still to come. */
  datatype Job = Job(key: Key, words: Words, migrating: bool, uploaded: bool)

  /** Where a running setupEncryption is. Once it has a key to adopt, found or generated, it saves the private
      key, saves the public half, publishes that and makes the recovery words, one await each. */
  datatype Phase =
    | Resting | AskingEnvelope | AskingLegacy
    | Adopting(key: Key, migrating: bool, stage: Stage)

  datatype Stage = SavingPrivate | SavingPublic | Publishing | MakingWords

  /** The keystore holds the private key and, saved after it, the public half. */
  datatype Device = Device(keystore: Option<Key>, hasPublic: bool, phase: Phase, job: Option<Job>, needsRecovery: bool)

  /** A device together with the server. */
  datatype Pair = Pair(device: Device, server: Server)

  const NEW_DEVICE := Device(None, false, Resting, None, false)

  // ----- What each step does -----

  /** Case 1, up to the first server check. */
  function Begin(p: Pair): Pair {
    if p.device.phase != Resting then p
    else if p.device.keystore.Some? && p.device.hasPublic then p.(server := p.server.(published := p.device.keystore))
    else p.(device := p.device.(phase := AskingEnvelope))
  }

  /** Case 2. A failed fetch throws, and setup ends. */
  function AskEnvelope(p: Pair, ok: bool): Pair {
    if p.device.phase != AskingEnvelope then p
    else if !ok then p.(device := p.device.(phase := Resting))
    else if p.server.envelope.Some? then p.(device := p.device.(phase := Resting, needsRecovery := true))
    else p.(device := p.device.(phase := AskingLegacy))
  }

  /** The fetch of case 3; a failed one counts as "no legacy key". `generated` is what case 4 generates. */
  function AskLegacy(p: Pair, ok: bool, generated: Key): Pair {
    if p.device.phase != AskingLegacy then p
    else
      var migrating := ok && p.server.legacy.Some?;
      var key := if migrating then p.server.legacy.value else generated;
      p.(device := p.device.(phase := Adopting(key, migrating, SavingPrivate)))
  }

  /** The next await of cases 3 and 4. Whatever throws ends the setup where it is. */
  function Adopt(p: Pair, ok: bool, words: Words): Pair {
    var d := p.device;
    if !d.phase.Adopting? then p
    else if !ok then p.(device := d.(phase := Resting))
    else
      match d.phase.stage
      case SavingPrivate => p.(device := d.(keystore := Some(d.phase.key), phase := d.phase.(stage := SavingPublic)))
      case SavingPublic => p.(device := d.(hasPublic := true, phase := d.phase.(stage := Publishing)))
      case Publishing =>
        Pair(d.(phase := d.phase.(stage := MakingWords)), p.server.(published := Some(d.phase.key)))
      case MakingWords =>
        p.(device := d.(phase := Resting, job := Some(Job(d.phase.key, words, d.phase.migrating, false))))
  }

  /** The user confirmed the words: upload the envelope. On failure the job stays for another try. */
  function Upload(p: Pair, ok: bool): Pair {
    if p.device.job.None? || p.device.job.value.uploaded || !ok then p
    else
      var job := p.device.job.value;
      Pair(p.device.(job := if job.migrating then Some(job.(uploaded := true)) else None),
           p.server.(envelope := Some(Envelope(job.key, job.words))))
  }

  /** The wrap is on file: drop the legacy blob. A failed delete is not fatal. */
  function Delete(p: Pair, ok: bool): Pair {
    if p.device.job.None? || !p.device.job.value.uploaded then p
    else Pair(p.device.(job := None), if ok then p.server.(legacy := None) else p.server)
  }

  /** RecoverPromptModal: the words open the envelope or they do not. */
  function Recover(p: Pair, words: Words): Pair {
    if !p.device.needsRecovery || p.server.envelope.None? || p.server.envelope.value.words != words then p
    else p.(device := p.device.(keystore := Some(p.server.envelope.value.key), hasPublic := true, needsRecovery := false))
  }

  /** An explicit logout wipes the keystore. What runs in the tab goes on until the logout request is answered
      and the page navigates away, which is a reload. */
  function Logout(p: Pair): Pair {
    p.(device := p.device.(keystore := None, hasPublic := false, needsRecovery := false))
  }

  /** A reload, a navigation or a closed tab keeps the keystore only. */
  function Reload(p: Pair): Pair {
    p.(device := NEW_DEVICE.(keystore := p.device.keystore, hasPublic := p.device.hasPublic))
  }

  /** Session expiry keeps the keystore and a pending job. */
  function Expire(p: Pair): Pair {
    p.(device := p.device.(needsRecovery := false))
  }

  // ----- The steps, in place -----

  class KeyServer {
    var legacy: Option<Key>
    var envelope: Option<Envelope>
    var published: Option<Key>

    ghost function Model(): Server
      reads this
    {
      Server(legacy, envelope, published)
    }

    constructor (legacy: Option<Key>)
      ensures Model() == Server(legacy, None, None)
    {
      this.legacy, envelope, published := legacy, None, None;
    }
  }

  class EncryptionSetup {
    const server: KeyServer
    var keystore: Option<Key>
    var hasPublic: bool
    var phase: Phase
    var pendingWrapJob: Option<Job>
    var needsRecovery: bool

    ghost function Model(): Pair
      reads this, server
    {
      Pair(Device(keystore, hasPublic, phase, pendingWrapJob, needsRecovery), server.Model())
    }

    constructor (server: KeyServer)
      ensures this.server == server && Model() == Pair(NEW_DEVICE, server.Model())
    {
      this.server := server;
      keystore, hasPublic, phase, pendingWrapJob, needsRecovery := None, false, Resting, None, false;
    }

    method BeginSetup()
      modifies this, server
      ensures Model() == Begin(old(Model()))
    {
      if phase != Resting {
        return;
      }
      if keystore.Some? && hasPublic {
        server.published := keystore;
        return;
      }
      phase := AskingEnvelope;
    }

    method FetchWrappedKey(ok: bool)
      modifies this
      ensures Model() == AskEnvelope(old(Model()), ok)
    {
      if phase != AskingEnvelope {
        return;
      }
      phase := Resting;
      if !ok {
        return;
      }
      if server.envelope.Some? {
        needsRecovery := true;
        return;
      }
      phase := AskingLegacy;
    }

    method FetchBasicKey(ok: bool, generated: Key)
      modifies this
      ensures Model() == AskLegacy(old(Model()), ok, generated)
    {
      if phase != AskingLegacy {
        return;
      }
      var legacyKey := if ok then server.legacy else None;
      if legacyKey.Some? {
        phase := Adopting(legacyKey.value, true, SavingPrivate);
        return;
      }
      phase := Adopting(generated, false, SavingPrivate);
    }

    method AdoptKey(ok: bool, words: Words)
      modifies this, server
      ensures Model() == Adopt(old(Model()), ok, words)
    {
      if !phase.Adopting? {
        return;
      }
      if !ok {
        phase := Resting;
        return;
      }
      var key, migrating := phase.key, phase.migrating;
      match phase.stage {
        case SavingPrivate =>
          keystore := Some(key);
          phase := Adopting(key, migrating, SavingPublic);
        case SavingPublic =>
          hasPublic := true;
          phase := Adopting(key, migrating, Publishing);
        case Publishing =>
          server.published := Some(key);
          phase := Adopting(key, migrating, MakingWords);
        case MakingWords =>
          pendingWrapJob := Some(Job(key, words, migrating, false));
          phase := Resting;
      }
    }

    method ConfirmRecovery(ok: bool)
      modifies this, server
      ensures Model() == Upload(old(Model()), ok)
    {
      if pendingWrapJob.None? || pendingWrapJob.value.uploaded {
        return;
      }
      if !ok {
        return;
      }
      var job := pendingWrapJob.value;
      server.envelope := Some(Envelope(job.key, job.words));
      pendingWrapJob := if job.migrating then Some(job.(uploaded := true)) else None;
    }

    method DeleteBasicKey(ok: bool)
      modifies this, server
      ensures Model() == Delete(old(Model()), ok)
    {
      if pendingWrapJob.None? || !pendingWrapJob.value.uploaded {
        return;
      }
      if ok {
        server.legacy := None;
      }
      pendingWrapJob := None;
    }

    method EnterWords(words: Words)
      modifies this
      ensures Model() == Recover(old(Model()), words)
    {
      if needsRecovery && server.envelope.Some? && server.envelope.value.words == words {
        keystore, hasPublic := Some(server.envelope.value.key), true;
        needsRecovery := false;
      }
    }

    method LogOut()
      modifies this
      ensures Model() == Logout(old(Model()))
    {
      keystore, hasPublic, needsRecovery := None, false, false;
    }

    method ReloadPage()
      modifies this
      ensures Model() == Reload(old(Model()))
    {
      phase, pendingWrapJob, needsRecovery := Resting, None, false;
    }

    method ExpireSession()
      modifies this`needsRecovery
      ensures Model() == Expire(old(Model()))
    {
      needsRecovery := false;
    }
  }

  // ----- Any number of devices -----

  datatype Event =
    | LoginBegun | EnvelopeAsked(ok: bool) | LegacyAsked(ok: bool, generated: Key) | Advanced(ok: bool, words: Words)
    | Confirmed(ok: bool) | DeleteSent(ok: bool) | WordsEntered(words: Words)
    | LoggedOut | Reloaded | Expired

  function Step(p: Pair, event: Event): Pair {
    match event
    case LoginBegun => Begin(p)
    case EnvelopeAsked(ok) => AskEnvelope(p, ok)
    case LegacyAsked(ok, generated) => AskLegacy(p, ok, generated)
    case Advanced(ok, words) => Adopt(p, ok, words)
    case Confirmed(ok) => Upload(p, ok)
    case DeleteSent(ok) => Delete(p, ok)
    case WordsEntered(words) => Recover(p, words)
    case LoggedOut => Logout(p)
    case Reloaded => Reload(p)
    case Expired => Expire(p)
  }

  datatype Account = Account(server: Server, devices: map<DeviceId, Device>)

  datatype Move = Move(device: DeviceId, event: Event)

  function DeviceOf(a: Account, d: DeviceId): Device {
    if d in a.devices then a.devices[d] else NEW_DEVICE
  }

  function PairOf(a: Account, d: DeviceId): Pair {
    Pair(DeviceOf(a, d), a.server)
  }

  function Moved(a: Account, move: Move): Account {
    var p := Step(PairOf(a, move.device), move.event);
    Account(p.server, a.devices[move.device := p.device])
  }

  function Replay(a: Account, moves: seq<Move>): Account
    decreases |moves|
  {
    if moves == [] then a else Replay(Moved(a, moves[0]), moves[1..])
  }

  /** The key K is safe: the server has it as the legacy blob or in the envelope and nothing else in either
      place; every keystore is empty or K; every pending job wraps K. */
  ghost predicate DeviceSafe(d: Device, server: Server, k: Key) {
    && (d.keystore.Some? ==> d.keystore.value == k)
    && (d.phase.Adopting? ==> d.phase.key == k && d.phase.migrating)
    && (d.job.Some? ==> d.job.value.key == k && d.job.value.migrating && (d.job.value.uploaded ==> server.envelope.Some?))
  }

  ghost predicate ServerSafe(s: Server, k: Key) {
    && (s.legacy.Some? ==> s.legacy.value == k)
    && (s.envelope.Some? ==> s.envelope.value.key == k)
    && (s.published.Some? ==> s.published.value == k)
    && (s.legacy.Some? || s.envelope.Some?)
  }

  ghost predicate Safe(a: Account, k: Key) {
    ServerSafe(a.server, k) && forall d :: d in a.devices ==> DeviceSafe(a.devices[d], a.server, k)
  }

  /** A legacy check that finds nothing (the key was deleted since the device saw that there was no envelope,
      or the fetch failed), whereupon the device sets out to save a key of its own. */
  predicate FindsNothing(p: Pair, event: Event) {
    event.LegacyAsked? && p.device.phase == AskingLegacy && (!event.ok || p.server.legacy.None?)
  }

  ghost predicate PairSafe(p: Pair, k: Key) {
    ServerSafe(p.server, k) && DeviceSafe(p.device, p.server, k)
  }

  lemma DeviceStepIsSafeIff(p: Pair, event: Event, k: Key)
    requires PairSafe(p, k) && (event.LegacyAsked? ==> event.generated != k)
    ensures PairSafe(Step(p, event), k) <==> !FindsNothing(p, event)
    ensures p.server.envelope.Some? ==> Step(p, event).server.envelope.Some?
  {
  }

  lemma SafeIffActorSafe(a: Account, move: Move, k: Key)
    requires Safe(a, k) && (a.server.envelope.Some? ==> Step(PairOf(a, move.device), move.event).server.envelope.Some?)
    ensures Safe(Moved(a, move), k) <==> PairSafe(Step(PairOf(a, move.device), move.event), k)
  {
    var a' := Moved(a, move);
    assert a'.devices[move.device] == Step(PairOf(a, move.device), move.event).device;
    assert forall d :: d in a'.devices && d != move.device ==> d in a.devices && DeviceSafe(a.devices[d], a.server, k);
  }

  /** Exactly which step can lose the key: any step of any device keeps it safe, except a legacy check that
      finds nothing. */
  lemma StepIsSafeIff(a: Account, move: Move, k: Key)
    requires Safe(a, k) && (move.event.LegacyAsked? ==> move.event.generated != k)
    ensures Safe(Moved(a, move), k) <==> !FindsNothing(PairOf(a, move.device), move.event)
  {
    assert DeviceSafe(DeviceOf(a, move.device), a.server, k);
    DeviceStepIsSafeIff(PairOf(a, move.device), move.event, k);
    SafeIffActorSafe(a, move, k);
  }

  /** The assumptions on a run: no fetch of the legacy key fails, and no other device has put an envelope on
      file between the two checks of a login. */
  ghost predicate Steady(a: Account, moves: seq<Move>)
    decreases |moves|
  {
    moves != [] ==>
      var move := moves[0];
      && (move.event.LegacyAsked? && DeviceOf(a, move.device).phase == AskingLegacy ==>
            move.event.ok && a.server.envelope.None?)
      && Steady(Moved(a, move), moves[1..])
  }

  lemma SteadyDeviceStepIsSafe(p: Pair, event: Event, k: Key)
    requires PairSafe(p, k)
    requires event.LegacyAsked? && p.device.phase == AskingLegacy ==> event.ok && p.server.envelope.None?
    ensures PairSafe(Step(p, event), k)
    ensures p.server.envelope.Some? ==> Step(p, event).server.envelope.Some?
  {
  }

  lemma SteadyStepIsSafe(a: Account, move: Move, k: Key)
    requires Safe(a, k) && Steady(a, [move])
    ensures Safe(Moved(a, move), k)
  {
    assert DeviceSafe(DeviceOf(a, move.device), a.server, k);
    SteadyDeviceStepIsSafe(PairOf(a, move.device), move.event, k);
    SafeIffActorSafe(a, move, k);
  }

  /** For an account that starts with the legacy key K: in every interleaving of logins, confirmations,
      retries, recoveries, reloads and logouts on any number of devices, K stays on the server, every
      keystore is empty or K, and every pending job wraps K. */
  lemma {:induction false} MigrationKeepsKey(a: Account, moves: seq<Move>, k: Key)
    requires Safe(a, k) && Steady(a, moves)
    ensures Safe(Replay(a, moves), k)
    decreases |moves|
  {
    if moves != [] {
      SteadyStepIsSafe(a, moves[0], k);
      MigrationKeepsKey(Moved(a, moves[0]), moves[1..], k);
    }
  }

  /** K is on the server, in no keystore another key, and in every wrap job. */
  ghost predicate KeyKept(a: Account, k: Key) {
    && (a.server.legacy == Some(k) || (a.server.envelope.Some? && a.server.envelope.value.key == k))
    && (forall d :: d in a.devices ==> a.devices[d].keystore == None || a.devices[d].keystore == Some(k))
    && (forall d :: d in a.devices && a.devices[d].job.Some? ==> a.devices[d].job.value.key == k)
  }

  lemma SafeIsKept(a: Account, k: Key)
    requires Safe(a, k)
    ensures KeyKept(a, k)
  {
    assert forall d :: d in a.devices ==> DeviceSafe(a.devices[d], a.server, k);
  }

  lemma LegacyAccountKeepsKey(moves: seq<Move>, k: Key)
    requires Steady(Account(Server(Some(k), None, None), map[]), moves)
    ensures KeyKept(Replay(Account(Server(Some(k), None, None), map[]), moves), k)
  {
    MigrationKeepsKey(Account(Server(Some(k), None, None), map[]), moves, k);
    SafeIsKept(Replay(Account(Server(Some(k), None, None), map[]), moves), k);
  }

  /** The step that is not safe is a real loss: the key is kept over any step and one more await of that device
      exactly if the step is not a legacy check that finds nothing. */
  lemma KeyIsKeptIff(a: Account, move: Move, words: Words, k: Key)
    requires Safe(a, k) && (move.event.LegacyAsked? ==> move.event.generated != k)
    ensures KeyKept(Moved(Moved(a, move), Move(move.device, Advanced(true, words))), k)
            <==> !FindsNothing(PairOf(a, move.device), move.event)
  {
    var a1, next := Moved(a, move), Move(move.device, Advanced(true, words));
    StepIsSafeIff(a, move, k);
    if FindsNothing(PairOf(a, move.device), move.event) {
      assert DeviceOf(a1, move.device).phase == Adopting(move.event.generated, false, SavingPrivate);
      assert Moved(a1, next).devices[move.device].keystore == Some(move.event.generated);
    } else {
      StepIsSafeIff(a1, next, k);
      SafeIsKept(Moved(a1, next), k);
    }
  }

  // ----- What goes wrong without the assumptions -----

  /** Device 1 migrates completely between the two checks of device 2; device 2 then finds nothing,
      generates key 9, and its confirmation overwrites the only copy of key 5. */
  const FIRST_LOGIN := [Move(1, LoginBegun), Move(1, EnvelopeAsked(true)), Move(1, LegacyAsked(true, 8))]
  const SECOND_LOGIN := [Move(2, LoginBegun), Move(2, EnvelopeAsked(true))]
  const MIGRATED_BETWEEN := [Move(1, Confirmed(true)), Move(1, DeleteSent(true)), Move(2, LegacyAsked(true, 9))]
  const SECOND_CONFIRMED := [Move(2, Confirmed(true))]

  function Adopted(d: DeviceId, words: Words): seq<Move> {
    var step := Move(d, Advanced(true, words));
    [step, step, step, step]
  }

  lemma HalfAdopted(a: Account, d: DeviceId, words: Words)
    requires DeviceOf(a, d).phase.Adopting? && DeviceOf(a, d).phase.stage == SavingPrivate
    ensures var step, phase := Move(d, Advanced(true, words)), DeviceOf(a, d).phase;
            var a2 := Moved(Moved(a, step), step);
      && DeviceOf(a2, d).phase == phase.(stage := Publishing) && a2.server == a.server
      && forall e :: e != d ==> DeviceOf(a2, e) == DeviceOf(a, e)
  {
  }

  lemma AdoptedHasJob(a: Account, d: DeviceId, words: Words)
    requires DeviceOf(a, d).phase.Adopting? && DeviceOf(a, d).phase.stage == SavingPrivate
    ensures var a', key := Replay(a, Adopted(d, words)), DeviceOf(a, d).phase.key;
      && DeviceOf(a', d).job == Some(Job(key, words, DeviceOf(a, d).phase.migrating, false))
      && a'.server == a.server.(published := Some(key))
      && forall e :: e != d ==> DeviceOf(a', e) == DeviceOf(a, e)
  {
    var step, steps := Move(d, Advanced(true, words)), Adopted(d, words);
    var a2 := Moved(Moved(a, step), step);
    HalfAdopted(a, d, words);
    assert steps[2..] == [step, step] && [step, step][1..] == [step] && [step][1..] == [];
    assert Replay(a, steps) == Replay(a2, [step, step]) == Replay(Moved(a2, step), [step]) == Moved(Moved(a2, step), step);
  }

  lemma RacingLoginsLoseKey()
    ensures var a := Replay(Account(Server(Some(5), None, None), map[]), FIRST_LOGIN);
            var b := Replay(Replay(a, Adopted(1, 1)), SECOND_LOGIN);
            var c := Replay(Replay(b, MIGRATED_BETWEEN), Adopted(2, 2));
            var d := Replay(c, SECOND_CONFIRMED);
            d.server.legacy == None && d.server.envelope == Some(Envelope(9, 2))
  {
    var a0 := Account(Server(Some(5), None, None), map[]);
    var a := Moved(Moved(Moved(a0, FIRST_LOGIN[0]), FIRST_LOGIN[1]), FIRST_LOGIN[2]);
    assert Replay(a0, FIRST_LOGIN) == a;
    AdoptedHasJob(a, 1, 1);
    SecondFindsNothing(Replay(a, Adopted(1, 1)));
  }

  lemma SecondFindsNothing(a: Account)
    requires DeviceOf(a, 1).job == Some(Job(5, 1, true, false)) && DeviceOf(a, 2) == NEW_DEVICE
    requires a.server.legacy == Some(5) && a.server.envelope == None
    ensures var b := Replay(a, SECOND_LOGIN);
            var c := Replay(Replay(b, MIGRATED_BETWEEN), Adopted(2, 2));
            var d := Replay(c, SECOND_CONFIRMED);
            d.server.legacy == None && d.server.envelope == Some(Envelope(9, 2))
  {
    var b := Moved(Moved(a, SECOND_LOGIN[0]), SECOND_LOGIN[1]);
    assert Replay(a, SECOND_LOGIN) == b;
    var b' := Moved(Moved(Moved(b, MIGRATED_BETWEEN[0]), MIGRATED_BETWEEN[1]), MIGRATED_BETWEEN[2]);
    assert Replay(b, MIGRATED_BETWEEN) == b';
    AdoptedHasJob(b', 2, 2);
  }

  /** Once the envelope is on file and no device is between its checks or holds a job, no run of logins
      ever touches the legacy blob again: a delete that failed is not retried. */
  ghost predicate Settled(a: Account) {
    a.server.envelope.Some? &&
    forall d :: d in a.devices ==>
      a.devices[d].job.None? && a.devices[d].phase != AskingLegacy && !a.devices[d].phase.Adopting?
  }

  lemma {:induction false} FailedDeleteIsNeverRetried(a: Account, moves: seq<Move>)
    requires Settled(a)
    ensures Settled(Replay(a, moves))
    ensures Replay(a, moves).server.legacy == a.server.legacy && Replay(a, moves).server.envelope == a.server.envelope
    decreases |moves|
  {
    if moves != [] {
      var move, a' := moves[0], Moved(a, moves[0]);
      assert a'.devices[move.device] == Step(PairOf(a, move.device), move.event).device;
      FailedDeleteIsNeverRetried(a', moves[1..]);
    }
  }

  // ----- The words written down -----

  predicate Under(s: Server, words: Words) {
    s.envelope.Some? && s.envelope.value.words == words
  }

  /** Words recover the key on a device that asks for them exactly if the envelope is under these words. */
  lemma WordsRecoverIff(a: Account, d: DeviceId, words: Words)
    requires DeviceOf(a, d).needsRecovery
    ensures var a' := Moved(a, Move(d, WordsEntered(words)));
      && a'.server == a.server
      && (Under(a.server, words) <==> !DeviceOf(a', d).needsRecovery)
      && (Under(a.server, words) ==> DeviceOf(a', d).keystore == Some(a.server.envelope.value.key))
      && (!Under(a.server, words) ==> DeviceOf(a', d) == DeviceOf(a, d))
  {
  }

  /** A successful upload of a pending job with other words. */
  predicate Overwrites(p: Pair, event: Event, words: Words) {
    event == Confirmed(true) && p.device.job.Some? && !p.device.job.value.uploaded && p.device.job.value.words != words
  }

  /** Exactly which step makes the words on paper worthless. */
  lemma StepKeepsWordsIff(a: Account, move: Move, words: Words)
    requires Under(a.server, words)
    ensures Under(Moved(a, move).server, words) <==> !Overwrites(PairOf(a, move.device), move.event, words)
  {
  }

  ghost predicate UnderThroughout(a: Account, moves: seq<Move>, words: Words)
    decreases |moves|
  {
    Under(a.server, words) && (moves != [] ==> UnderThroughout(Moved(a, moves[0]), moves[1..], words))
  }

  ghost predicate NeverOverwritten(a: Account, moves: seq<Move>, words: Words)
    decreases |moves|
  {
    moves != [] ==>
      !Overwrites(PairOf(a, moves[0].device), moves[0].event, words) && NeverOverwritten(Moved(a, moves[0]), moves[1..], words)
  }

  /** The words a user wrote down keep opening the envelope all through a run exactly if no device uploads a
      job with other words in it. */
  lemma {:induction false} WordsKeptIff(a: Account, moves: seq<Move>, words: Words)
    requires Under(a.server, words)
    ensures UnderThroughout(a, moves, words) <==> NeverOverwritten(a, moves, words)
    ensures NeverOverwritten(a, moves, words) ==> Under(Replay(a, moves).server, words)
    decreases |moves|
  {
    if moves != [] {
      StepKeepsWordsIff(a, moves[0], words);
      if Under(Moved(a, moves[0]).server, words) {
        WordsKeptIff(Moved(a, moves[0]), moves[1..], words);
      }
    }
  }

  /** An instance: if two devices hold jobs and both are confirmed, the envelope opens with the later words only;
      the words the first user wrote down recover nothing, on any device. */
  lemma LaterConfirmationOrphansWords(a: Account, d: DeviceId, e: DeviceId)
    requires d != e && DeviceOf(a, d).job.Some? && DeviceOf(a, e).job.Some?
    requires !DeviceOf(a, d).job.value.uploaded && !DeviceOf(a, e).job.value.uploaded
    requires DeviceOf(a, d).job.value.words != DeviceOf(a, e).job.value.words
    ensures var words, a' := DeviceOf(a, d).job.value.words, Moved(Moved(a, Move(d, Confirmed(true))), Move(e, Confirmed(true)));
      && a'.server.envelope == Some(Envelope(DeviceOf(a, e).job.value.key, DeviceOf(a, e).job.value.words))
      && !Under(a'.server, words)
      && forall f :: Moved(a', Move(f, WordsEntered(words))).server == a'.server
                  && DeviceOf(Moved(a', Move(f, WordsEntered(words))), f) == DeviceOf(a', f)
  {
    var a1 := Moved(a, Move(d, Confirmed(true)));
    assert DeviceOf(a1, e) == DeviceOf(a, e);
    StepKeepsWordsIff(a1, Move(e, Confirmed(true)), DeviceOf(a, d).job.value.words);
  }

  // ----- Where a login ends -----

  function RunOn(p: Pair, events: seq<Event>): Pair
    decreases |events|
  {
    if events == [] then p else RunOn(Step(p, events[0]), events[1..])
  }

  /** A whole login with nothing failing: each step does something only where the setup has got to it. */
  function Login(generated: Key, words: Words): seq<Event> {
    [LoginBegun, EnvelopeAsked(true), LegacyAsked(true, generated)] + AdoptionSteps(words)
  }

  function AdoptionSteps(words: Words): seq<Event> {
    [Advanced(true, words), Advanced(true, words), Advanced(true, words), Advanced(true, words)]
  }

  lemma FourSteps(p: Pair, words: Words)
    ensures var e := Advanced(true, words);
            RunOn(p, AdoptionSteps(words)) == Step(Step(Step(Step(p, e), e), e), e)
  {
    var e, s := Advanced(true, words), AdoptionSteps(words);
    assert s[1..] == [e, e, e] && [e, e, e][1..] == [e, e] && [e, e][1..] == [e] && [e][1..] == [];
    var p2 := Step(Step(p, e), e);
    assert RunOn(p, s) == RunOn(Step(p, e), [e, e, e]) == RunOn(p2, [e, e]);
    assert RunOn(p2, [e, e]) == RunOn(Step(p2, e), [e]) == RunOn(Step(Step(p2, e), e), []);
  }

  lemma RestingStays(p: Pair, generated: Key, words: Words)
    requires p.device.phase == Resting
    ensures RunOn(p, AdoptionSteps(words)) == p
    ensures RunOn(Step(p, LegacyAsked(true, generated)), AdoptionSteps(words)) == p
  {
    FourSteps(p, words);
  }

  lemma AdoptionEnds(p: Pair, words: Words)
    requires p.device.phase.Adopting? && p.device.phase.stage == SavingPrivate
    ensures var d := p.device;
            RunOn(p, AdoptionSteps(words)) ==
              Pair(Device(Some(d.phase.key), true, Resting, Some(Job(d.phase.key, words, d.phase.migrating, false)), d.needsRecovery),
                   p.server.(published := Some(d.phase.key)))
  {
    FourSteps(p, words);
  }

  /** What a login comes to. */
  function LoggedIn(p: Pair, generated: Key, words: Words): Pair {
    if p.device.keystore.Some? && p.device.hasPublic then p.(server := p.server.(published := p.device.keystore))
    else if p.server.envelope.Some? then p.(device := p.device.(needsRecovery := true))
    else
      var key := if p.server.legacy.Some? then p.server.legacy.value else generated;
      Pair(Device(Some(key), true, Resting, Some(Job(key, words, p.server.legacy.Some?, false)), p.device.needsRecovery),
           p.server.(published := Some(key)))
  }

  /** Where an undisturbed login ends, on every device and server. A complete keystore settles it at once: the
      key is published, keystore and job stay, and nothing is asked. Otherwise, with an envelope on file, it ends
      asking for the recovery words and touches nothing else. Otherwise the legacy key is in the keystore,
      published, and a migrating job wraps it. Otherwise the same with the generated key, not migrating. */
  lemma LoginEndsIn(p: Pair, generated: Key, words: Words)
    requires p.device.phase == Resting
    ensures RunOn(p, Login(generated, words)) == LoggedIn(p, generated, words)
  {
    var s := Login(generated, words);
    var p1 := Step(p, LoginBegun);
    var p2 := Step(p1, EnvelopeAsked(true));
    var p3 := Step(p2, LegacyAsked(true, generated));
    assert s[1..][1..][1..] == AdoptionSteps(words);
    assert RunOn(p, s) == RunOn(p1, s[1..]) == RunOn(p2, s[1..][1..]) == RunOn(p3, AdoptionSteps(words));
    if p2.device.phase == Resting {
      RestingStays(p2, generated, words);
    } else {
      AdoptionEnds(p3, words);
    }
  }

  /** A whole migration: the legacy key of an account, confirmed on its first device after any number of failed
      confirmations, is gone from the server but for the envelope. */
  lemma MigrationCompletes(p: Pair, k: Key, generated: Key, words: Words, attempts: nat)
    requires p.device.phase == Resting && p.device.keystore == None && p.server == Server(Some(k), None, None)
    ensures var failed := RunOn(RunOn(p, Login(generated, words)), Failed(attempts));
            var done := Step(Step(failed, Confirmed(true)), DeleteSent(true));
      && done.server == Server(None, Some(Envelope(k, words)), Some(k))
      && done.device == Device(Some(k), true, Resting, None, p.device.needsRecovery)
  {
    LoginEndsIn(p, generated, words);
    FailedConfirmationsKeep(LoggedIn(p, generated, words), attempts);
  }

  /** Any other device that logs in is then asked for the words, and with them has the key. */
  lemma NewDeviceRecovers(d: Device, k: Key, generated: Key, words: Words)
    requires d.phase == Resting && d.keystore == None
    ensures var asked := RunOn(Pair(d, Server(None, Some(Envelope(k, words)), Some(k))), Login(generated, words));
            var back := Step(asked, WordsEntered(words));
      && asked.device.needsRecovery && asked.device.keystore == None
      && back.device.keystore == Some(k) && back.device.hasPublic && !back.device.needsRecovery && back.server == asked.server
  {
    LoginEndsIn(Pair(d, Server(None, Some(Envelope(k, words)), Some(k))), generated, words);
  }

  /** A device that has the key keeps it over an expired session and a reload, and is asked for nothing when it
      logs in again. */
  lemma KnownDeviceIsNotAsked(p: Pair, k: Key, generated: Key, words: Words)
    requires p.device.keystore == Some(k) && p.device.hasPublic
    ensures var back := RunOn(Step(Step(p, Expired), Reloaded), Login(generated, words));
            back == Pair(NEW_DEVICE.(keystore := Some(k), hasPublic := true), p.server.(published := Some(k)))
    ensures Step(p, Expired) == p.(device := p.device.(needsRecovery := false))
  {
    LoginEndsIn(Step(Step(p, Expired), Reloaded), generated, words);
  }

  function Failed(attempts: nat): seq<Event> {
    if attempts == 0 then [] else [Confirmed(false)] + Failed(attempts - 1)
  }

  /** A confirmation that fails loses nothing: it can be tried again. */
  lemma {:induction false} FailedConfirmationsKeep(p: Pair, attempts: nat)
    ensures RunOn(p, Failed(attempts)) == p
  {
    if attempts > 0 {
      assert Failed(attempts)[1..] == Failed(attempts - 1);
      FailedConfirmationsKeep(p, attempts - 1);
    }
  }

  // ----- After a logout -----

  /** What can still happen in the tab before it navigates away: the user neither logs in nor recovers. */
  predicate Leaving(event: Event) {
    !event.LoginBegun? && !event.WordsEntered?
  }

  /** A setup is under way that has not saved its private key and may yet. */
  predicate CanStillSave(p: Pair) {
    match p.device.phase
    case Resting => false
    case AskingEnvelope => p.server.envelope.None?
    case AskingLegacy => true
    case Adopting(_, _, stage) => stage == SavingPrivate
  }

  ghost predicate AllLeaving(events: seq<Event>) {
    forall e :: e in events ==> Leaving(e)
  }

  lemma {:induction false} IdleStaysWiped(p: Pair, events: seq<Event>)
    requires p.device.keystore == None && !CanStillSave(p) && AllLeaving(events)
    ensures RunOn(p, events).device.keystore == None && !CanStillSave(RunOn(p, events))
    decreases |events|
  {
    if events != [] {
      assert events[0] in events && forall e :: e in events[1..] ==> e in events;
      IdleStaysWiped(Step(p, events[0]), events[1..]);
    }
  }

  ghost predicate StaysWiped(p: Pair) {
    forall events :: AllLeaving(events) ==> RunOn(p, events).device.keystore == None
  }

  /** An explicit logout leaves no key behind, whatever still happens in that tab, exactly if no setup was under
      way that had yet to save one. */
  lemma LogoutStaysWipedIff(p: Pair)
    ensures StaysWiped(Logout(p)) <==> !CanStillSave(p)
  {
    var q := Logout(p);
    if CanStillSave(p) {
      var saving := [EnvelopeAsked(true), LegacyAsked(true, 0), Advanced(true, 0)];
      var first := if q.device.phase.AskingEnvelope? then 0 else if q.device.phase.AskingLegacy? then 1 else 2;
      SavesAfterAll(q, first);
      assert AllLeaving(saving[first..]);
    } else {
      forall events | AllLeaving(events)
        ensures RunOn(q, events).device.keystore == None
      {
        IdleStaysWiped(q, events);
      }
    }
  }

  lemma SavesAfterAll(p: Pair, first: nat)
    requires CanStillSave(p)
    requires first == if p.device.phase.AskingEnvelope? then 0 else if p.device.phase.AskingLegacy? then 1 else 2
    ensures var saving := [EnvelopeAsked(true), LegacyAsked(true, 0), Advanced(true, 0)];
            RunOn(p, saving[first..]).device.keystore.Some?
  {
    var saving := [EnvelopeAsked(true), LegacyAsked(true, 0), Advanced(true, 0)];
    var p1 := if first == 0 then Step(p, saving[0]) else p;
    var p2 := if first <= 1 then Step(p1, saving[1]) else p1;
    assert saving[2..] == [saving[2]] && saving[1..][1..] == saving[2..] && saving[0..][1..] == saving[1..];
    assert RunOn(p2, saving[2..]) == Step(p2, saving[2]);
    assert first <= 1 ==> RunOn(p1, saving[1..]) == RunOn(p2, saving[2..]);
    assert first == 0 ==> RunOn(p, saving[0..]) == RunOn(p1, saving[1..]);
  }
}
