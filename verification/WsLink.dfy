/**
 The controller's end of the link: what `handleCommand` checks before it touches
 the relay, and the ring in which it remembers the commands it has honoured.
 */
module WsLink {
  import opened Text
  import opened JsonText
  import opened MachineInts
  import opened FirmwareCommand
  import opened RelayDriver
  import ServiceCommand

  const SEEN_CAPACITY: nat := 16
  /** `ACS_MAX_CLOCK_SKEW_S` */
  const MAX_CLOCK_SKEW_S: int := 5

  datatype Detail =
    | WrongController | BadSignatureEncoding | CommandTooLarge | BadSignature
    | ClockNotSynced | Expired | IssuedInTheFuture | Replayed

  datatype Outcome = Ignored | Rejected(detail: Detail) | Opened(relayMs: nat)

  /** A received envelope: its payload, and the bytes its base64 signature decodes to. */
  datatype Envelope = Envelope(payload: Json, signature: string)

  function PayloadMembers(v: Json): seq<Member> {
    if v.Obj? then v.members else []
  }

  /** The most recent commands honoured, as many as the ring holds. */
  function Recent(accepted: seq<string>): seq<string> {
    if |accepted| <= SEEN_CAPACITY then accepted else accepted[|accepted| - SEEN_CAPACITY..]
  }

  predicate Seen(accepted: seq<string>, id: string) {
    id != "" && id in Recent(accepted)
  }

  /**
   The controller's decision. `accepted` lists the commands honoured since the last
   reset, `verify` is the Ed25519 check against the signer's public key.
   */
  function Decide(code: string, verify: (string, string) -> bool, accepted: seq<string>, e: Envelope, now: int): Outcome {
    match Parsed(PayloadMembers(e.payload))
    case None => Ignored
    case Some(c) => DecideParsed(code, verify, accepted, c, e.signature, now)
  }

  function DecideParsed(code: string, verify: (string, string) -> bool, accepted: seq<string>,
                        c: UnlockCommand, signature: string, now: int): Outcome {
    if c.controllerCode != code then Rejected(WrongController)
    else if |signature| != 64 then Rejected(BadSignatureEncoding)
    else if |FirmwareBytes(c)| > ServiceCommand.MAX_CANONICAL then Rejected(CommandTooLarge)
    else if !verify(signature, FirmwareBytes(c)) then Rejected(BadSignature)
    else if now < CLOCK_SANE then Rejected(ClockNotSynced)
    else if c.expiresAt < now - MAX_CLOCK_SKEW_S then Rejected(Expired)
    else if c.issuedAt > now + MAX_CLOCK_SKEW_S then Rejected(IssuedInTheFuture)
    else if Seen(accepted, c.commandId) then Rejected(Replayed)
    else Opened(Clamp(c.durationMs))
  }

  // ---- what the decision is

  /** The order in which a command can fail. */
  const DETAILS: seq<Detail> := [
    WrongController, BadSignatureEncoding, CommandTooLarge, BadSignature, ClockNotSynced, Expired, IssuedInTheFuture, Replayed
  ]

  /** What each refusal says of the command, the moment and the last sixteen commands, in that order. */
  ghost function Faults(code: string, verify: (string, string) -> bool, accepted: seq<string>,
                        c: UnlockCommand, signature: string, now: int): (faults: seq<bool>)
    ensures |faults| == |DETAILS|
  {
    [ c.controllerCode != code,
      |signature| != 64,
      |FirmwareBytes(c)| > 512,
      !verify(signature, FirmwareBytes(c)),
      now < CLOCK_SANE,
      now > c.expiresAt + MAX_CLOCK_SKEW_S,
      now < c.issuedAt - MAX_CLOCK_SKEW_S,
      c.commandId != "" && exists j :: 0 <= j < |accepted| && accepted[j] == c.commandId && j + SEEN_CAPACITY >= |accepted| ]
  }

  /** A command is refused for the first thing that is wrong with it, and honoured, for its duration or 3 seconds, if nothing is. */
  lemma {:induction false} FirstFaultDecides(code: string, verify: (string, string) -> bool, accepted: seq<string>, e: Envelope, now: int)
    ensures Decide(code, verify, accepted, e, now) == Ignored <==> Parsed(PayloadMembers(e.payload)).None?
    ensures Parsed(PayloadMembers(e.payload)).Some? ==>
      var c := Parsed(PayloadMembers(e.payload)).value;
      var r, k := Decide(code, verify, accepted, e, now), FirstTrue(Faults(code, verify, accepted, c, e.signature, now));
      if k < |DETAILS| then r == Rejected(DETAILS[k]) else r.Opened? && IsLesser(r.relayMs, c.durationMs, RELAY_MAX_MS)
  {
    var parsed := Parsed(PayloadMembers(e.payload));
    if parsed.Some? {
      var c := parsed.value;
      RecentExactly(accepted, c.commandId);
      FirstFaultOf(code, verify, accepted, c, e.signature, now);
    }
  }

  lemma {:induction false} FirstFaultOf(code: string, verify: (string, string) -> bool, accepted: seq<string>,
                                        c: UnlockCommand, signature: string, now: int)
    requires c.commandId in Recent(accepted)
      <==> exists j :: 0 <= j < |accepted| && accepted[j] == c.commandId && j + SEEN_CAPACITY >= |accepted|
    ensures
      var r, k := DecideParsed(code, verify, accepted, c, signature, now), FirstTrue(Faults(code, verify, accepted, c, signature, now));
      if k < |DETAILS| then r == Rejected(DETAILS[k]) else r.Opened? && IsLesser(r.relayMs, c.durationMs, RELAY_MAX_MS)
  {
    hide FirmwareBytes, Recent, FirstTrue;
    var faults := Faults(code, verify, accepted, c, signature, now);
    var k := FirstTrue(faults);
    assert faults[7] == Seen(accepted, c.commandId);
    FirstOfEight(faults);
  }

  lemma {:induction false} RecentExactly(ids: seq<string>, id: string)
    ensures id in Recent(ids) <==> exists j :: 0 <= j < |ids| && ids[j] == id && j + SEEN_CAPACITY >= |ids|
  {
    var first := if |ids| <= SEEN_CAPACITY then 0 else |ids| - SEEN_CAPACITY;
    if id in Recent(ids) {
      var i :| 0 <= i < |Recent(ids)| && Recent(ids)[i] == id;
      assert ids[first + i] == id;
    }
    if j :| 0 <= j < |ids| && ids[j] == id && j + SEEN_CAPACITY >= |ids| {
      assert Recent(ids)[j - first] == id;
    }
  }

  /** The relay is on for `relayMs` from `millis` on, the command's duration or 3 seconds, whichever is less. */
  predicate HoldsFor(s: RelayState, relayMs: nat, c: UnlockCommand, millis: Uint32) {
    IsLesser(relayMs, c.durationMs, RELAY_MAX_MS) && s == RelayState(true, (millis + relayMs) % WRAP)
  }

  class WsLink {
    const code: string
    const seen: array<string>
    var seenNext: nat
    const relay: Relay
    /** Every command honoured since the last reset, oldest first. */
    ghost var accepted: seq<string>

    ghost predicate Valid()
      reads this, seen, relay
    {
      && seen.Length == SEEN_CAPACITY
      && relay.Valid()
      && seenNext == |accepted| % SEEN_CAPACITY
      && RingHolds(seen[..], accepted)
    }

    constructor (code: string)
      ensures Valid() && this.code == code && accepted == []
      ensures fresh(seen) && fresh(relay) && !relay.energised
    {
      this.code := code;
      seen := new string[SEEN_CAPACITY](_ => "");
      seenNext := 0;
      relay := new Relay.Begin();
      accepted := [];
    }

    method CommandAlreadySeen(id: string) returns (already: bool)
      requires Valid()
      ensures already == Seen(accepted, id)
    {
      for i := 0 to SEEN_CAPACITY
        invariant id == "" || id !in seen[..i]
      {
        if |seen[i]| > 0 && seen[i] == id {
          RingIsRecent(seen[..], accepted, id);
          assert seen[..][i] == id;
          return true;
        }
      }
      assert seen[..SEEN_CAPACITY] == seen[..];
      RingIsRecent(seen[..], accepted, id);
      return false;
    }

    method RememberCommand(id: string)
      requires Valid()
      modifies this`seenNext, this`accepted, seen
      ensures Valid()
      ensures accepted == old(accepted) + [id]
    {
      ghost var ring := seen[..];
      NextSlot(|accepted|);
      seen[seenNext] := id;
      seenNext := (seenNext + 1) % SEEN_CAPACITY;
      accepted := accepted + [id];
      assert seen[..] == ring[old(seenNext) := id];
      RingAdvances(ring, old(accepted), id);
    }

    method HandleCommand(e: Envelope, now: int, millis: Uint32, verify: (string, string) -> bool) returns (outcome: Outcome)
      requires Valid()
      modifies this`seenNext, this`accepted, seen, relay
      ensures Valid()
      ensures outcome == Decide(code, verify, old(accepted), e, now)
      ensures outcome.Opened? ==>
                var c := Parsed(PayloadMembers(e.payload)).value;
                accepted == old(accepted) + [c.commandId] && HoldsFor(relay.State(), outcome.relayMs, c, millis)
      ensures !outcome.Opened? ==> accepted == old(accepted) && relay.State() == old(relay.State())
    {
      var ok, command := ParseUnlockCommand(PayloadMembers(e.payload), UnlockCommand("", "", "", 0, 0, 0, 0, ""));
      if !ok {
        return Ignored;
      }
      assert Parsed(PayloadMembers(e.payload)) == Some(command);
      outcome := HandleParsed(command, e.signature, now, millis, verify);
    }

    method HandleParsed(command: UnlockCommand, signature: string, now: int, millis: Uint32,
                        verify: (string, string) -> bool) returns (outcome: Outcome)
      requires Valid()
      modifies this`seenNext, this`accepted, seen, relay
      ensures Valid()
      ensures outcome == DecideParsed(code, verify, old(accepted), command, signature, now)
      ensures outcome.Opened? ==>
                accepted == old(accepted) + [command.commandId] && HoldsFor(relay.State(), outcome.relayMs, command, millis)
      ensures !outcome.Opened? ==> accepted == old(accepted) && relay.State() == old(relay.State())
    {
      if command.controllerCode != code {
        return Rejected(WrongController);
      }
      if |signature| != 64 {
        return Rejected(BadSignatureEncoding);
      }
      var fits, genuine := CheckSignature(command, signature, verify);
      if !fits {
        return Rejected(CommandTooLarge);
      }
      if !genuine {
        return Rejected(BadSignature);
      }
      if now < CLOCK_SANE {
        return Rejected(ClockNotSynced);
      }
      if command.expiresAt < now - MAX_CLOCK_SKEW_S {
        return Rejected(Expired);
      }
      if command.issuedAt > now + MAX_CLOCK_SKEW_S {
        return Rejected(IssuedInTheFuture);
      }
      var already := CommandAlreadySeen(command.commandId);
      if already {
        return Rejected(Replayed);
      }
      RememberCommand(command.commandId);
      var relayMs := relay.Pulse(command.durationMs, millis);
      outcome := Opened(relayMs);
    }
  }

  /** Rebuilds the signed bytes in a stack buffer and checks the signature over them. */
  method CheckSignature(command: UnlockCommand, signature: string, verify: (string, string) -> bool)
    returns (fits: bool, genuine: bool)
    ensures fits <==> |FirmwareBytes(command)| <= ServiceCommand.MAX_CANONICAL
    ensures genuine <==> fits && verify(signature, FirmwareBytes(command))
  {
    var canonical := new char[ServiceCommand.MAX_CANONICAL];
    var canonicalLength := CanonicalCommandBytes(command, canonical);
    BytesNotEmpty(command);
    if canonicalLength == 0 {
      return false, false;
    }
    return true, verify(signature, canonical[..canonicalLength]);
  }

  lemma {:induction false} BytesNotEmpty(c: UnlockCommand)
    ensures |FirmwareBytes(c)| > 0
  {
  }

  // ---- the ring holds the recent commands

  /** Slot `k % 16` holds command number `k`, for the last 16; a slot not yet used is empty. */
  predicate RingHolds(ring: seq<string>, accepted: seq<string>) {
    && |ring| == SEEN_CAPACITY
    && (forall k | 0 <= k < |accepted| && k + SEEN_CAPACITY >= |accepted| :: ring[k % SEEN_CAPACITY] == accepted[k])
    && (forall j | |accepted| <= j < SEEN_CAPACITY :: ring[j] == "")
  }

  lemma {:induction false} NextSlot(n: nat)
    ensures (n % SEEN_CAPACITY + 1) % SEEN_CAPACITY == (n + 1) % SEEN_CAPACITY
  {
  }

  lemma {:induction false} RingAdvances(ring: seq<string>, accepted: seq<string>, id: string)
    requires RingHolds(ring, accepted)
    ensures RingHolds(ring[|accepted| % SEEN_CAPACITY := id], accepted + [id])
  {
  }

  lemma {:induction false} SlotOf(j: nat, n: nat) returns (k: nat)
    requires j < SEEN_CAPACITY <= n
    ensures n - SEEN_CAPACITY <= k < n && k % SEEN_CAPACITY == j
  {
    k := n - 1 - (n - 1 - j) % SEEN_CAPACITY;
  }

  lemma {:induction false} RecentInRing(ring: seq<string>, accepted: seq<string>, id: string)
    requires RingHolds(ring, accepted) && id in Recent(accepted)
    ensures id in ring
  {
  }

  lemma {:induction false} RingInRecent(ring: seq<string>, accepted: seq<string>, id: string)
    requires RingHolds(ring, accepted) && id in ring && id != ""
    ensures id in Recent(accepted)
  {
    var n := |accepted|;
    var j :| 0 <= j < SEEN_CAPACITY && ring[j] == id;
    if n > SEEN_CAPACITY {
      var k := SlotOf(j, n);
      assert accepted[k] == id && Recent(accepted)[k - (n - SEEN_CAPACITY)] == id;
    } else {
      assert accepted[j] == id;
    }
  }

  lemma {:induction false} RingIsRecent(ring: seq<string>, accepted: seq<string>, id: string)
    requires RingHolds(ring, accepted)
    ensures id != "" ==> (id in ring <==> id in Recent(accepted))
  {
    if id in Recent(accepted) {
      RecentInRing(ring, accepted, id);
    }
    if id in ring && id != "" {
      RingInRecent(ring, accepted, id);
    }
  }
}
