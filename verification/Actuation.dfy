/**
 The signer, an arbitrary network and one controller, over whole runs.

 Anyone may ask the signer to sign anything; the network delivers any envelope at
 any device time, in any order, any number of times; the board may reset. Ed25519
 enters only as `Unforgeable`: a signature that verifies covers bytes the signer
 has signed.
 */
module Actuation {
  import opened Text
  import opened JsonText
  import opened SignerProtocol
  import opened FirmwareCommand
  import opened CommandAgreement
  import opened RelayDriver
  import opened WsLink

  /** One energising of the relay: the command that caused it, and the device clock. */
  datatype Pulse = Pulse(command: UnlockCommand, at: int, relayMs: nat)

  /** `signed` holds the objects the signer has signed, `pulses` everything since the last reset of the board. */
  datatype World = World(signed: seq<seq<Member>>, pulses: seq<Pulse>)

  datatype Step =
    | AskSigner(request: seq<Member>)
    | Deliver(e: Envelope, now: int, verify: (string, string) -> bool)
    | Reset

  function Initial(): World { World([], []) }

  predicate IsSigned(w: World, message: string) {
    exists p | p in w.signed :: CanonicalBytes(p) == message
  }

  ghost predicate Unforgeable(w: World, verify: (string, string) -> bool) {
    forall signature, message :: verify(signature, message) ==> IsSigned(w, message)
  }

  /** What the signer is asked to sign: json.loads makes dicts, which have no key twice. */
  function Asked(request: seq<Member>): seq<Member> {
    PayloadMembers(Lookup(request, "payload").GetOr(Null))
  }

  ghost predicate Enabled(w: World, step: Step) {
    match step
    case AskSigner(request) => IsDict(Asked(request))
    case Deliver(e, now, verify) => Unforgeable(w, verify)
    case Reset => true
  }

  function Ids(pulses: seq<Pulse>): (ids: seq<string>)
    ensures |ids| == |pulses| && forall i | 0 <= i < |ids| :: ids[i] == pulses[i].command.commandId
  {
    seq(|pulses|, i requires 0 <= i < |pulses| => pulses[i].command.commandId)
  }

  function Next(code: string, w: World, step: Step): World {
    match step
    case AskSigner(request) =>
      if Handle(request).Signature? then w.(signed := w.signed + [Asked(request)]) else w
    case Deliver(e, now, verify) =>
      (match Decide(code, verify, Ids(w.pulses), e, now)
       case Opened(relayMs) => w.(pulses := w.pulses + [Pulse(Parsed(PayloadMembers(e.payload)).value, now, relayMs)])
       case _ => w)
    case Reset => w.(pulses := [])
  }

  ghost predicate Runs(code: string, w: World, steps: seq<Step>, w': World)
    decreases |steps|
  {
    if steps == [] then w == w'
    else Enabled(w, steps[0]) && Runs(code, Next(code, w, steps[0]), steps[1..], w')
  }

  // ---- what one pulse proves

  predicate Validated(p: seq<Member>) {
    IsDict(p) && ValidateCommand(p) == None
  }

  /** The signed object `p` stands behind the pulse, and everything the design asks of a pulse is true of it. */
  predicate Justifies(code: string, p: seq<Member>, x: Pulse) {
    && Validated(p)
    && multiset(p) == multiset(CommandMembers(x.command))
    && x.command.controllerCode == code
    && 0 < x.command.durationMs <= MAX_DURATION_MS
    && 0 < x.command.expiresAt - x.command.issuedAt <= MAX_COMMAND_TTL_SECONDS
    && x.command.issuedAt - MAX_CLOCK_SKEW_S <= x.at <= x.command.expiresAt + MAX_CLOCK_SKEW_S
    && IsLesser(x.relayMs, x.command.durationMs, RELAY_MAX_MS)
  }

  predicate Justified(code: string, signed: seq<seq<Member>>, x: Pulse) {
    exists p | p in signed :: Justifies(code, p, x)
  }

  ghost predicate Inv(code: string, w: World) {
    && (forall p | p in w.signed :: Validated(p))
    && AllJustified(code, w.signed, w.pulses)
    && AllNew(w.pulses)
  }

  ghost function JustifiedBy(code: string, signed: seq<seq<Member>>): Pulse -> bool {
    x => Justified(code, signed, x)
  }

  ghost predicate Every<T>(xs: seq<T>, holds: T -> bool) {
    forall i | 0 <= i < |xs| :: holds(xs[i])
  }

  lemma {:induction false} EveryGrows<T>(xs: seq<T>, x: T, holds: T -> bool)
    requires Every(xs, holds) && holds(x)
    ensures Every(xs + [x], holds)
  {
  }

  ghost predicate AllJustified(code: string, signed: seq<seq<Member>>, pulses: seq<Pulse>) {
    Every(pulses, JustifiedBy(code, signed))
  }

  predicate AllNew(pulses: seq<Pulse>) {
    forall i | 0 <= i < |pulses| :: WasNew(pulses, i)
  }

  /** Pulse `i` was not a replay of what the ring then held. */
  predicate WasNew(pulses: seq<Pulse>, i: nat)
    requires i < |pulses|
  {
    !Seen(Ids(pulses[..i]), pulses[i].command.commandId)
  }

  /** The signer's integer checks, read off the firmware's copy of the fields. */
  lemma {:induction false} ValidatedNumbers(p: seq<Member>, c: UnlockCommand)
    requires ValidateCommand(p) == None && NumbersKept(p, c)
    ensures 0 < c.durationMs <= MAX_DURATION_MS
    ensures 0 < c.expiresAt - c.issuedAt <= MAX_COMMAND_TTL_SECONDS
  {
  }

  lemma {:induction false} MembersKept(p: seq<Member>, c: UnlockCommand)
    requires IsDict(p) && multiset(p) == multiset(CommandMembers(c))
    ensures StringsKept(p, c) && NumbersKept(p, c)
  {
    assert |multiset(p)| == |p| && |multiset(CommandMembers(c))| == |CommandMembers(c)|;
    KeysInOrder(c);
    SortedIsDict(CommandMembers(c));
    DictByLookups(p, CommandMembers(c));
    LookupsByName(p, c);
  }

  lemma {:induction false} OpenedMeans(code: string, verify: (string, string) -> bool, ids: seq<string>, e: Envelope, now: int)
    requires Decide(code, verify, ids, e, now).Opened?
    ensures var c := Parsed(PayloadMembers(e.payload)).value;
            && verify(e.signature, FirmwareBytes(c)) && IsFor(code, c, now) && !Seen(ids, c.commandId)
            && Decide(code, verify, ids, e, now).relayMs == Clamp(c.durationMs)
  {
  }

  /** The command names this controller and is in time. */
  predicate IsFor(code: string, c: UnlockCommand, now: int) {
    c.controllerCode == code && c.issuedAt - MAX_CLOCK_SKEW_S <= now <= c.expiresAt + MAX_CLOCK_SKEW_S
  }

  lemma {:induction false} SignedIsJustified(code: string, signed: seq<seq<Member>>, p: seq<Member>, c: UnlockCommand, now: int)
    requires p in signed && Validated(p) && CanonicalBytes(p) == FirmwareBytes(c) && IsFor(code, c, now)
    ensures Justified(code, signed, Pulse(c, now, Clamp(c.durationMs)))
  {
    ByteAgreement(p, c);
    MembersKept(p, c);
    ValidatedNumbers(p, c);
    assert Justifies(code, p, Pulse(c, now, Clamp(c.durationMs)));
  }

  lemma {:induction false} OpenedIsJustified(code: string, w: World, e: Envelope, now: int, verify: (string, string) -> bool)
    requires forall p | p in w.signed :: Validated(p)
    requires Unforgeable(w, verify)
    requires Decide(code, verify, Ids(w.pulses), e, now).Opened?
    ensures var c := Parsed(PayloadMembers(e.payload)).value;
            && Justified(code, w.signed, Pulse(c, now, Decide(code, verify, Ids(w.pulses), e, now).relayMs))
            && !Seen(Ids(w.pulses), c.commandId)
  {
    OpenedMeans(code, verify, Ids(w.pulses), e, now);
    var c := Parsed(PayloadMembers(e.payload)).value;
    assert IsSigned(w, FirmwareBytes(c));
    var p :| p in w.signed && CanonicalBytes(p) == FirmwareBytes(c);
    SignedIsJustified(code, w.signed, p, c, now);
  }

  lemma {:induction false} SignedGrows(code: string, signed: seq<seq<Member>>, more: seq<Member>, x: Pulse)
    requires Justified(code, signed, x)
    ensures Justified(code, signed + [more], x)
  {
    var p :| p in signed && Justifies(code, p, x);
    assert p in signed + [more];
  }

  lemma {:induction false} EachIsJustified(code: string, signed: seq<seq<Member>>, pulses: seq<Pulse>, i: nat)
    requires AllJustified(code, signed, pulses) && i < |pulses|
    ensures Justified(code, signed, pulses[i])
  {
    assert JustifiedBy(code, signed)(pulses[i]);
  }

  lemma {:induction false} AllSignedGrow(code: string, signed: seq<seq<Member>>, more: seq<Member>, pulses: seq<Pulse>)
    requires AllJustified(code, signed, pulses)
    ensures AllJustified(code, signed + [more], pulses)
  {
    forall i | 0 <= i < |pulses| ensures JustifiedBy(code, signed + [more])(pulses[i]) {
      assert JustifiedBy(code, signed)(pulses[i]);
      SignedGrows(code, signed, more, pulses[i]);
    }
  }

  lemma {:induction false} NewGrow(pulses: seq<Pulse>, x: Pulse)
    requires AllNew(pulses) && !Seen(Ids(pulses), x.command.commandId)
    ensures AllNew(pulses + [x])
  {
    var longer := pulses + [x];
    forall i | 0 <= i < |longer| ensures WasNew(longer, i) {
      if i < |pulses| {
        assert WasNew(pulses, i) && longer[..i] == pulses[..i];
      } else {
        assert longer[..i] == pulses;
      }
    }
  }

  lemma {:induction false} SignKeepsInv(code: string, w: World, request: seq<Member>)
    requires Inv(code, w) && IsDict(Asked(request)) && Handle(request).Signature?
    ensures Inv(code, w.(signed := w.signed + [Asked(request)]))
  {
    AllSignedGrow(code, w.signed, Asked(request), w.pulses);
  }

  lemma {:induction false} DeliverKeepsInv(code: string, w: World, e: Envelope, now: int, verify: (string, string) -> bool)
    requires Inv(code, w) && Unforgeable(w, verify)
    ensures Inv(code, Next(code, w, Deliver(e, now, verify)))
  {
    var outcome := Decide(code, verify, Ids(w.pulses), e, now);
    if outcome.Opened? {
      OpenedIsJustified(code, w, e, now, verify);
      var x := Pulse(Parsed(PayloadMembers(e.payload)).value, now, outcome.relayMs);
      EveryGrows(w.pulses, x, JustifiedBy(code, w.signed));
      NewGrow(w.pulses, x);
    }
  }

  lemma {:induction false} StepKeepsInv(code: string, w: World, step: Step)
    requires Inv(code, w) && Enabled(w, step)
    ensures Inv(code, Next(code, w, step))
  {
    match step
    case AskSigner(request) =>
      if Handle(request).Signature? {
        SignKeepsInv(code, w, request);
      }
    case Deliver(e, now, verify) => DeliverKeepsInv(code, w, e, now, verify);
    case Reset =>
  }

  lemma {:induction false} RunKeepsInv(code: string, w: World, steps: seq<Step>, w': World)
    requires Inv(code, w) && Runs(code, w, steps, w')
    ensures Inv(code, w')
    decreases |steps|
  {
    if steps != [] {
      StepKeepsInv(code, w, steps[0]);
      RunKeepsInv(code, Next(code, w, steps[0]), steps[1..], w');
    }
  }

  /**
   Actuation safety. However the network behaves, every pulse of the relay comes
   from an object that the signer validated and signed, naming this controller, with
   a duration of at most 10 s and a lifetime of at most 30 s, and happens between
   five seconds before its issue and five seconds after its expiry.
   */
  lemma {:induction false} EveryPulseIsJustified(code: string, steps: seq<Step>, w: World, i: nat)
    requires Runs(code, Initial(), steps, w) && i < |w.pulses|
    ensures Justified(code, w.signed, w.pulses[i])
  {
    RunKeepsInv(code, Initial(), steps, w);
    EachIsJustified(code, w.signed, w.pulses, i);
  }

  // ---- replay

  /** Between resets, an identifier comes round again only after sixteen other commands. */
  lemma {:induction false} ReplayNeedsSixteenOthers(code: string, steps: seq<Step>, w: World, i: nat, j: nat)
    requires Runs(code, Initial(), steps, w)
    requires i < j < |w.pulses|
    requires w.pulses[i].command.commandId == w.pulses[j].command.commandId != ""
    ensures j - i > SEEN_CAPACITY
  {
    RunKeepsInv(code, Initial(), steps, w);
    var id := w.pulses[i].command.commandId;
    var earlier := Ids(w.pulses[..j]);
    assert WasNew(w.pulses, j);
    assert earlier[i] == id;
    if j - i <= SEEN_CAPACITY {
      RecentIncludes(earlier, i);
      assert false;
    }
  }

  lemma {:induction false} RecentIncludes(accepted: seq<string>, i: nat)
    requires i < |accepted| <= i + SEEN_CAPACITY
    ensures accepted[i] in Recent(accepted)
  {
  }

  /** Identifiers are drawn at random: the signer has signed at most one object with each. */
  predicate FreshIds(w: World) {
    forall p, q | p in w.signed && q in w.signed && Lookup(p, "command_id") == Lookup(q, "command_id") ::
      multiset(p) == multiset(q)
  }

  predicate ClockForward(w: World) {
    forall i, j | 0 <= i < j < |w.pulses| :: w.pulses[i].at <= w.pulses[j].at
  }

  /** The longest a command can be honoured after it first was: its lifetime and the skew at both ends. */
  const REPLAY_WINDOW_S: int := MAX_COMMAND_TTL_SECONDS + 2 * MAX_CLOCK_SKEW_S

  /** No more than `most` commands are honoured in any stretch of that length. */
  predicate NoMoreThan(w: World, most: nat) {
    forall i, j | 0 <= i <= j < |w.pulses| && w.pulses[j].at - w.pulses[i].at <= REPLAY_WINDOW_S :: j - i + 1 <= most
  }

  lemma {:induction false} SameIdSameCommand(code: string, w: World, x: Pulse, y: Pulse)
    requires FreshIds(w) && Justified(code, w.signed, x) && Justified(code, w.signed, y)
    requires x.command.commandId == y.command.commandId
    ensures x.command.issuedAt == y.command.issuedAt && x.command.expiresAt == y.command.expiresAt
    ensures -REPLAY_WINDOW_S <= y.at - x.at <= REPLAY_WINDOW_S
  {
    var p :| p in w.signed && Justifies(code, p, x);
    var q :| q in w.signed && Justifies(code, q, y);
    MembersKept(p, x.command);
    MembersKept(q, y.command);
    assert multiset(p) == multiset(q);
    MembersKept(p, y.command);
  }

  /**
   If at most seventeen commands are honoured in any 40 seconds, no command is ever
   honoured twice between resets.
   */
  lemma {:induction false} NoCommandTwice(code: string, steps: seq<Step>, w: World, i: nat, j: nat)
    requires Runs(code, Initial(), steps, w)
    requires FreshIds(w) && ClockForward(w) && NoMoreThan(w, SEEN_CAPACITY + 1)
    requires i < j < |w.pulses| && w.pulses[i].command.commandId != ""
    ensures w.pulses[i].command.commandId != w.pulses[j].command.commandId
  {
    RunKeepsInv(code, Initial(), steps, w);
    if w.pulses[i].command.commandId == w.pulses[j].command.commandId {
      ReplayNeedsSixteenOthers(code, steps, w, i, j);
      EachIsJustified(code, w.signed, w.pulses, i);
      EachIsJustified(code, w.signed, w.pulses, j);
      SameIdSameCommand(code, w, w.pulses[i], w.pulses[j]);
      assert false;
    }
  }

  /**
   Of an envelope that a controller fresh from reset would open, exactly when the
   ring lets it through: its id is empty, or last occurred more than sixteen
   commands ago, or never.
   */
  lemma {:induction false} HonouredExactlyWhen(code: string, verify: (string, string) -> bool, ids: seq<string>, e: Envelope, now: int)
    requires Decide(code, verify, [], e, now).Opened?
    ensures var id := Parsed(PayloadMembers(e.payload)).value.commandId;
      Decide(code, verify, ids, e, now).Opened? <==>
        id == "" || (forall j | 0 <= j < |ids| && ids[j] == id :: j + SEEN_CAPACITY < |ids|)
  {
    RecentExactly(ids, Parsed(PayloadMembers(e.payload)).value.commandId);
    HistoryDecides(code, verify, ids, e, now);
  }

  /** The history enters the decision through the ring only. */
  lemma {:induction false} HistoryDecides(code: string, verify: (string, string) -> bool, ids: seq<string>, e: Envelope, now: int)
    requires Decide(code, verify, [], e, now).Opened?
    ensures Decide(code, verify, ids, e, now).Opened? <==> !Seen(ids, Parsed(PayloadMembers(e.payload)).value.commandId)
  {
  }

  lemma {:induction false} ScalarsHaveNoBoolean(ms: seq<Member>, m: Member)
    requires AllScalar(ms) && m.value.Bool?
    ensures m !in multiset(ms)
  {
  }

  /** An object in which the signer took a boolean for a number stands behind no pulse. */
  lemma {:induction false} NoBooleanIsHonoured(code: string, p: seq<Member>, x: Pulse, m: Member)
    requires m in p && m.value.Bool?
    ensures !Justifies(code, p, x)
  {
    ScalarsHaveNoBoolean(CommandMembers(x.command), m);
    assert m in multiset(p);
  }
}
