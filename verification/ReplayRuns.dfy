/**
 Whole runs in which a command is honoured twice: with an empty id, and with
 eighteen commands in one window. They show that what `Actuation` asks for cannot
 be weakened.
 */
module ReplayRuns {
  import opened Text
  import opened MachineInts
  import opened JsonText
  import opened SignerProtocol
  import opened FirmwareCommand
  import opened CommandAgreement
  import RelayDriver
  import opened WsLink
  import opened Actuation
  import opened ServiceCommand

  /** A string that both sides copy and that survives as a C string. */
  predicate IsPlain(s: string) { CString(s) == s && NoShortEscape(Str(s)) }

  /** The signer signs the command, and controller `code` opens for it at `now` unless it is a replay. */
  predicate IsHonourable(code: string, c: UnlockCommand, now: int) {
    && c.controllerCode == code
    && IsPlain(c.commandId) && IsPlain(c.controllerCode) && IsPlain(c.doorCode) && IsPlain(c.nonce)
    && 0 < c.durationMs <= MAX_DURATION_MS && CharCount(c.nonce) >= 16
    && 0 < c.expiresAt - c.issuedAt <= MAX_COMMAND_TTL_SECONDS
    && |FirmwareBytes(c)| <= MAX_CANONICAL
    && now >= CLOCK_SANE && c.issuedAt - MAX_CLOCK_SKEW_S <= now <= c.expiresAt + MAX_CLOCK_SKEW_S
  }

  lemma {:induction false} SignedObject(c: UnlockCommand)
    requires IsPlain(c.commandId) && IsPlain(c.controllerCode) && IsPlain(c.doorCode) && IsPlain(c.nonce)
    ensures var p := CommandMembers(c);
      && IsDict(p) && StringsKept(p, c) && NumbersKept(p, c) && Lookup(p, "cmd") == Some(Str("unlock"))
      && Parsed(p) == Some(c) && CanonicalBytes(p) == FirmwareBytes(c)
  {
    var p := CommandMembers(c);
    CommandIsDict(c);
    ByteAgreement(p, c);
    DictByLookups(p, p);
    LookupsByName(p, c);
    ParsedByName(p, c);
  }

  function Request(c: UnlockCommand): seq<Member> {
    [Member("op", Str("sign")), Member("payload", Obj(CommandMembers(c)))]
  }

  /** Any 64 bytes will do for a signature where the verifier checks the message. */
  function Delivery(c: UnlockCommand): Envelope {
    Envelope(Obj(CommandMembers(c)), seq(64, _ => 's'))
  }

  function Verifier(c: UnlockCommand): (string, string) -> bool {
    (signature, message) => message == FirmwareBytes(c)
  }

  lemma {:induction false} RequestIsSigned(c: UnlockCommand)
    requires ValidateCommand(CommandMembers(c)) == None
    ensures Asked(Request(c)) == CommandMembers(c) && Handle(Request(c)).Signature?
  {
    hide CommandMembers, ValidateCommand, CanonicalBytes;
    assert Lookup(Request(c), "op") == Some(Str("sign"));
    assert Lookup(Request(c), "payload") == Some(Obj(CommandMembers(c)));
  }

  function Opening(c: UnlockCommand, now: int): Pulse { Pulse(c, now, RelayDriver.Clamp(c.durationMs)) }

  lemma {:induction false} SignStep(code: string, w: World, c: UnlockCommand, now: int)
    requires IsHonourable(code, c, now)
    ensures Enabled(w, AskSigner(Request(c)))
    ensures Next(code, w, AskSigner(Request(c))) == w.(signed := w.signed + [CommandMembers(c)])
  {
    SignedObject(c);
    AcceptedByName(CommandMembers(c), c);
    RequestIsSigned(c);
  }

  lemma {:induction false} DeliverStep(code: string, w: World, c: UnlockCommand, now: int)
    requires IsHonourable(code, c, now) && CommandMembers(c) in w.signed && !Seen(Ids(w.pulses), c.commandId)
    ensures Enabled(w, Deliver(Delivery(c), now, Verifier(c)))
    ensures Next(code, w, Deliver(Delivery(c), now, Verifier(c))) == w.(pulses := w.pulses + [Opening(c, now)])
  {
    SignedObject(c);
    assert IsSigned(w, FirmwareBytes(c));
  }

  lemma {:induction false} RunsThen(code: string, w: World, step: Step, steps: seq<Step>, w': World)
    requires Enabled(w, step) && Runs(code, Next(code, w, step), steps, w')
    ensures Runs(code, w, [step] + steps, w')
  {
    assert ([step] + steps)[1..] == steps;
  }

  lemma {:induction false} RunsAppend(code: string, w: World, first: seq<Step>, mid: World, second: seq<Step>, w': World)
    requires Runs(code, w, first, mid) && Runs(code, mid, second, w')
    ensures Runs(code, w, first + second, w')
    decreases |first|
  {
    hide Next, Enabled;
    if first == [] {
      assert first + second == second;
    } else {
      var next := FirstStep(code, w, first, mid);
      RunsAppend(code, next, first[1..], mid, second, w');
      assert first + second == [first[0]] + (first[1..] + second);
    }
  }

  /** The state after the first step of a run, from which any other run can follow. */
  lemma {:induction false} FirstStep(code: string, w: World, steps: seq<Step>, w': World) returns (next: World)
    requires steps != [] && Runs(code, w, steps, w')
    ensures Runs(code, next, steps[1..], w')
    ensures forall more, x | Runs(code, next, more, x) :: Runs(code, w, [steps[0]] + more, x)
  {
    next := Next(code, w, steps[0]);
    forall more, x | Runs(code, next, more, x) ensures Runs(code, w, [steps[0]] + more, x) {
      RunsThen(code, w, steps[0], more, x);
    }
  }

  function Redelivery(c: UnlockCommand, now: int): seq<Step> { [Deliver(Delivery(c), now, Verifier(c))] }

  lemma {:induction false} DeliverAgain(code: string, w: World, c: UnlockCommand, now: int) returns (w': World)
    requires IsHonourable(code, c, now) && CommandMembers(c) in w.signed && !Seen(Ids(w.pulses), c.commandId)
    ensures Runs(code, w, Redelivery(c, now), w') && w' == w.(pulses := w.pulses + [Opening(c, now)])
  {
    DeliverStep(code, w, c, now);
    w' := Next(code, w, Deliver(Delivery(c), now, Verifier(c)));
    RunsThen(code, w, Deliver(Delivery(c), now, Verifier(c)), [], w');
    assert Redelivery(c, now) == [Deliver(Delivery(c), now, Verifier(c))] + [];
  }

  lemma {:induction false} SignAndDeliver(code: string, w: World, c: UnlockCommand, now: int) returns (steps: seq<Step>, w': World)
    requires IsHonourable(code, c, now) && !Seen(Ids(w.pulses), c.commandId)
    ensures Runs(code, w, steps, w')
    ensures w' == World(w.signed + [CommandMembers(c)], w.pulses + [Opening(c, now)])
  {
    SignStep(code, w, c, now);
    w' := DeliverAgain(code, w.(signed := w.signed + [CommandMembers(c)]), c, now);
    steps := [AskSigner(Request(c))] + Redelivery(c, now);
    RunsThen(code, w, AskSigner(Request(c)), Redelivery(c, now), w');
  }

  // ---- an empty id

  /** An order of the service that could be honoured at `now`. */
  predicate IsCurrent(o: Order, now: int) {
    && o.Valid() && 0 < o.ttlSeconds <= MAX_COMMAND_TTL_SECONDS
    && now >= CLOCK_SANE && o.issuedAt - MAX_CLOCK_SKEW_S <= now <= o.issuedAt + o.ttlSeconds + MAX_CLOCK_SKEW_S
  }

  function WithoutId(o: Order): UnlockCommand
    requires o.Valid()
  {
    Expected(o).(commandId := "")
  }

  lemma {:induction false} OrderIsHonourable(o: Order, now: int)
    requires IsCurrent(o, now)
    ensures IsHonourable(o.controllerCode, Expected(o), now)
  {
    CodesAreFaithful(o);
    AsciiCount(o.nonce);
    FitsBuffer(o);
  }

  lemma {:induction false} EmptyIdIsHonourable(o: Order, now: int)
    requires IsCurrent(o, now)
    ensures IsHonourable(o.controllerCode, WithoutId(o), now)
  {
    CodesAreFaithful(o);
    AsciiCount(o.nonce);
    FitsWithoutId(o);
    CStringFaithful("");
  }

  lemma {:induction false} FitsWithoutId(o: Order)
    requires o.Valid()
    ensures |FirmwareBytes(WithoutId(o))| <= MAX_CANONICAL
  {
    var fs := CommandMembers(WithoutId(o));
    TextLengths(o);
    NumberLengths(o);
    QuotedLength("");
    FieldsFit(WithoutId(o));
    hide CommandMembers, FwValue, WithoutId;
    FirstMember(fs);
    NineMembers(fs);
  }

  /** An object with an empty id, signed once, is honoured as often as it is delivered. */
  lemma {:induction false} EmptyIdIsNotRemembered(o: Order, now: int) returns (steps: seq<Step>, w: World)
    requires IsCurrent(o, now)
    ensures Runs(o.controllerCode, Initial(), steps, w)
    ensures w.signed == [CommandMembers(WithoutId(o))]
    ensures w.pulses == [Opening(WithoutId(o), now), Opening(WithoutId(o), now)]
  {
    EmptyIdIsHonourable(o, now);
    var first, mid := SignAndDeliver(o.controllerCode, Initial(), WithoutId(o), now);
    w := DeliverAgain(o.controllerCode, mid, WithoutId(o), now);
    RunsAppend(o.controllerCode, Initial(), first, mid, Redelivery(WithoutId(o), now), w);
    steps := first + Redelivery(WithoutId(o), now);
  }

  // ---- eighteen commands in one window

  /** Commands that controller `code` would honour at `now`, with different ids that are not empty. */
  ghost predicate AreHonourable(code: string, cs: seq<UnlockCommand>, now: int) {
    && (forall i | 0 <= i < |cs| :: IsHonourable(code, cs[i], now) && cs[i].commandId != "")
    && (forall i, j | 0 <= i < j < |cs| :: cs[i].commandId != cs[j].commandId)
  }

  predicate IsHonoured(w: World, i: nat, c: UnlockCommand, now: int)
    requires i < |w.signed| && i < |w.pulses|
  {
    w.signed[i] == CommandMembers(c) && w.pulses[i] == Opening(c, now)
  }

  /** The first `n` commands have been signed and honoured, all at `now`. */
  ghost predicate HonouredInTurn(cs: seq<UnlockCommand>, now: int, n: nat, w: World)
    requires n <= |cs|
  {
    |w.signed| == n && |w.pulses| == n && forall i | 0 <= i < n :: IsHonoured(w, i, cs[i], now)
  }

  lemma {:induction false} IdsInTurn(cs: seq<UnlockCommand>, now: int, n: nat, w: World)
    requires n <= |cs| && HonouredInTurn(cs, now, n, w)
    ensures |Ids(w.pulses)| == n && forall i | 0 <= i < n :: Ids(w.pulses)[i] == cs[i].commandId
  {
    forall i | 0 <= i < n ensures Ids(w.pulses)[i] == cs[i].commandId {
      assert IsHonoured(w, i, cs[i], now);
    }
  }

  lemma {:induction false} HonourInTurn(code: string, cs: seq<UnlockCommand>, now: int, n: nat) returns (steps: seq<Step>, w: World)
    requires AreHonourable(code, cs, now) && n <= |cs|
    ensures Runs(code, Initial(), steps, w) && HonouredInTurn(cs, now, n, w)
  {
    if n == 0 {
      steps, w := [], Initial();
    } else {
      var before, mid := HonourInTurn(code, cs, now, n - 1);
      IdsInTurn(cs, now, n - 1, mid);
      RecentExactly(Ids(mid.pulses), cs[n - 1].commandId);
      var more;
      more, w := SignAndDeliver(code, mid, cs[n - 1], now);
      RunsAppend(code, Initial(), before, mid, more, w);
      steps := before + more;
      OneMoreHonoured(cs, now, n, mid, w);
    }
  }

  lemma {:induction false} OneMoreHonoured(cs: seq<UnlockCommand>, now: int, n: nat, w: World, w': World)
    requires 0 < n <= |cs| && HonouredInTurn(cs, now, n - 1, w)
    requires w' == World(w.signed + [CommandMembers(cs[n - 1])], w.pulses + [Opening(cs[n - 1], now)])
    ensures HonouredInTurn(cs, now, n, w')
  {
    forall i | 0 <= i < n ensures IsHonoured(w', i, cs[i], now) {
      if i < n - 1 {
        assert IsHonoured(w, i, cs[i], now);
      }
    }
  }

  lemma {:induction false} DistinctIdsAreFresh(w: World, ids: seq<string>)
    requires |w.signed| == |ids| && forall i | 0 <= i < |ids| :: Lookup(w.signed[i], "command_id") == Some(Str(ids[i]))
    requires forall i, j | 0 <= i < j < |ids| :: ids[i] != ids[j]
    ensures FreshIds(w)
  {
    forall p, q | p in w.signed && q in w.signed && Lookup(p, "command_id") == Lookup(q, "command_id") ensures p == q {
      var i :| 0 <= i < |w.signed| && w.signed[i] == p;
      var j :| 0 <= j < |w.signed| && w.signed[j] == q;
      assert i == j;
    }
  }

  lemma {:induction false} OneObjectForEachId(code: string, cs: seq<UnlockCommand>, now: int, w: World)
    requires AreHonourable(code, cs, now) && HonouredInTurn(cs, now, |cs|, w)
    ensures FreshIds(w)
  {
    var ids := seq(|cs|, i requires 0 <= i < |cs| => cs[i].commandId);
    forall i | 0 <= i < |ids| ensures Lookup(w.signed[i], "command_id") == Some(Str(ids[i])) {
      assert IsHonoured(w, i, cs[i], now) && IsHonourable(code, cs[i], now);
      SignedObject(cs[i]);
    }
    DistinctIdsAreFresh(w, ids);
  }

  /**
   The bound of `NoCommandTwice` is exact: any seventeen commands with fresh ids
   that are honoured in one window let the first of them be honoured again, the
   clock standing still.
   */
  lemma {:induction false} EighteenCanReplay(code: string, cs: seq<UnlockCommand>, now: int) returns (steps: seq<Step>, w: World)
    requires AreHonourable(code, cs, now) && |cs| == SEEN_CAPACITY + 1
    ensures Runs(code, Initial(), steps, w)
    ensures FreshIds(w) && ClockForward(w) && NoMoreThan(w, SEEN_CAPACITY + 2)
    ensures |w.pulses| == SEEN_CAPACITY + 2 && w.pulses[0] == w.pulses[SEEN_CAPACITY + 1] == Opening(cs[0], now)
  {
    var before, mid := HonourInTurn(code, cs, now, |cs|);
    OneObjectForEachId(code, cs, now, mid);
    IdsInTurn(cs, now, |cs|, mid);
    RecentExactly(Ids(mid.pulses), cs[0].commandId);
    assert IsHonoured(mid, 0, cs[0], now);
    w := DeliverAgain(code, mid, cs[0], now);
    RunsAppend(code, Initial(), before, mid, Redelivery(cs[0], now), w);
    steps := before + Redelivery(cs[0], now);
    AllAtOnce(cs, now, mid, w);
  }

  lemma {:induction false} AllAtOnce(cs: seq<UnlockCommand>, now: int, w: World, w': World)
    requires cs != [] && HonouredInTurn(cs, now, |cs|, w) && w' == w.(pulses := w.pulses + [Opening(cs[0], now)])
    ensures ClockForward(w') && NoMoreThan(w', |cs| + 1)
  {
    forall i | 0 <= i < |w'.pulses| ensures w'.pulses[i].at == now {
      if i < |cs| {
        assert IsHonoured(w, i, cs[i], now);
      }
    }
  }

  // ---- such commands exist

  function NumberedId(i: nat): (u: Uuid)
    requires i < 32
    ensures u[31] == i % 16 && u[30] == i / 16
  {
    seq(32, k => if k == 31 then i % 16 else if k == 30 then i / 16 else 0)
  }

  function NumberedCommand(o: Order, i: nat): UnlockCommand
    requires o.Valid() && i < 32
  {
    Expected(o.(commandId := NumberedId(i)))
  }

  lemma {:induction false} IdsDiffer(i: nat, j: nat)
    requires i < j < 32
    ensures UuidText(NumberedId(i)) != UuidText(NumberedId(j))
  {
    assert NumberedId(i)[30..] != NumberedId(j)[30..] by {
      assert NumberedId(i)[30..] == [i / 16, i % 16] && NumberedId(j)[30..] == [j / 16, j % 16];
    }
    if UuidText(NumberedId(i)) == UuidText(NumberedId(j)) {
      UuidTextInjective(NumberedId(i), NumberedId(j));
    }
  }

  /** One order of the service, with seventeen different ids. */
  lemma {:induction false} NumberedCommands(o: Order, now: int) returns (cs: seq<UnlockCommand>)
    requires IsCurrent(o, now)
    ensures |cs| == SEEN_CAPACITY + 1 && AreHonourable(o.controllerCode, cs, now)
  {
    cs := seq(SEEN_CAPACITY + 1, i requires 0 <= i < SEEN_CAPACITY + 1 => NumberedCommand(o, i));
    forall i | 0 <= i < |cs| ensures IsHonourable(o.controllerCode, cs[i], now) && cs[i].commandId != "" {
      OrderIsHonourable(o.(commandId := NumberedId(i)), now);
      assert |cs[i].commandId| == 36;
    }
    forall i, j | 0 <= i < j < |cs| ensures cs[i].commandId != cs[j].commandId {
      IdsDiffer(i, j);
    }
  }
}
