/**
 The relay driver, which times a pulse with a 32-bit millisecond counter that
 wraps every 49.7 days, and the same driver with time that never wraps.
 */
module RelayDriver {
  import opened MachineInts

  /** `ACS_RELAY_MAX_MS` */
  const RELAY_MAX_MS: nat := 3000

  /** `millis()` at an unbounded time since boot. */
  function Millis(t: nat): Uint32 { t % WRAP }

  /** `m` is the lesser of the two. */
  predicate IsLesser(m: int, a: int, b: int) { m <= a && m <= b && (m == a || m == b) }

  function Clamp(requestedMs: nat): (ms: nat)
    ensures IsLesser(ms, requestedMs, RELAY_MAX_MS)
  {
    if requestedMs > RELAY_MAX_MS then RELAY_MAX_MS else requestedMs
  }

  /** `static_cast<int32_t>(now - offAt) >= 0` on unsigned 32-bit operands. */
  predicate Due(now: Uint32, offAt: Uint32) { (now - offAt) % WRAP < HALF }

  // ---- the driver

  datatype RelayState = RelayState(energised: bool, offAtMs: Uint32)

  function PulseState(requestedMs: nat, now: Uint32): RelayState {
    RelayState(true, (now + Clamp(requestedMs)) % WRAP)
  }

  function TickState(s: RelayState, now: Uint32): RelayState {
    if s.energised && Due(now, s.offAtMs) then s.(energised := false) else s
  }

  class Relay {
    var energised: bool
    var offAtMs: Uint32
    var pinOn: bool

    /** The pin drives the strike, and follows `energised`. */
    ghost predicate Valid()
      reads this
    {
      pinOn == energised
    }

    function State(): RelayState
      reads this
    {
      RelayState(energised, offAtMs)
    }

    constructor Begin()
      ensures Valid() && !energised
    {
      pinOn := false;
      energised := false;
      offAtMs := 0;
    }

    method Pulse(requestedMs: Uint32, now: Uint32) returns (duration: nat)
      modifies this
      ensures Valid() && State() == PulseState(requestedMs, now)
      ensures IsLesser(duration, requestedMs, RELAY_MAX_MS)
      ensures energised && offAtMs == (now + duration) % WRAP
    {
      duration := if requestedMs > RELAY_MAX_MS then RELAY_MAX_MS else requestedMs;
      pinOn := true;
      energised := true;
      offAtMs := (now + duration) % WRAP;
    }

    method Tick(now: Uint32)
      requires Valid()
      modifies this
      ensures Valid()
      ensures State() == TickState(old(State()), now)
    {
      if !energised {
        return;
      }
      var difference := (now - offAtMs) % WRAP;
      var signed := if difference < HALF then difference else difference - WRAP;
      if signed >= 0 {
        ForceOff();
      }
    }

    method ForceOff()
      modifies this
      ensures Valid() && !energised && offAtMs == old(offAtMs)
    {
      pinOn := false;
      energised := false;
    }
  }

  // ---- runs

  datatype Event = Pulsed(at: nat, requestedMs: nat) | Ticked(at: nat)

  /** The driver beside its reference: `on`, `pulsedAt` and `offAt` are kept in unbounded time. */
  datatype Run = Run(driver: RelayState, on: bool, pulsedAt: nat, offAt: nat, lastTick: nat, now: nat)

  function Boot(): Run {
    Run(RelayState(false, 0), false, 0, 0, 0, 0)
  }

  function Next(r: Run, e: Event): Run {
    match e
    case Pulsed(at, requestedMs) =>
      r.(driver := PulseState(requestedMs, Millis(at)), on := true, pulsedAt := at, offAt := at + Clamp(requestedMs), now := at)
    case Ticked(at) =>
      r.(driver := TickState(r.driver, Millis(at)), on := r.on && at < r.offAt, lastTick := at, now := at)
  }

  function After(events: seq<Event>): Run {
    if events == [] then Boot() else Next(After(events[..|events| - 1]), events[|events| - 1])
  }

  /** Time does not run backwards and each tick follows the one before it (or boot) within `gap` ms. */
  predicate Paced(events: seq<Event>, gap: nat) {
    events != [] ==>
      var before, e := After(events[..|events| - 1]), events[|events| - 1];
      && Paced(events[..|events| - 1], gap)
      && e.at >= before.now
      && (e.Ticked? ==> e.at - before.lastTick < gap)
  }

  /** Every pulse is of some length, as those of signed commands are. */
  predicate AllLast(events: seq<Event>) {
    forall i | 0 <= i < |events| && events[i].Pulsed? :: events[i].requestedMs > 0
  }

  /** How far ticks may lie apart: a deadline is one millisecond later than the tick before it, unless a pulse has no length. */
  function MaxGap(events: seq<Event>): nat {
    if AllLast(events) then HALF + 1 else HALF
  }

  /** Around its deadline the modular comparison is the real one. */
  lemma {:induction false} DueIsReal(t: nat, offAt: nat)
    requires offAt - HALF <= t < offAt + HALF
    ensures Due(Millis(t), Millis(offAt)) <==> t >= offAt
  {
  }

  predicate Agrees(r: Run, positive: bool) {
    && r.driver.energised == r.on
    && (r.on ==> r.driver.offAtMs == Millis(r.offAt))
    && (r.on ==> r.lastTick <= r.offAt && (positive ==> r.lastTick < r.offAt) && r.pulsedAt <= r.now && r.offAt <= r.pulsedAt + RELAY_MAX_MS)
    && r.lastTick <= r.now
  }

  /**
   For runs of any length, across any number of wraps: as long as ticks are no
   more than 2^31 ms apart (less than that, if pulses may have no length), the driver
   energises the relay exactly when the driver with unbounded time does.
   */
  lemma {:induction false} WrapIsHarmless(events: seq<Event>, gap: nat)
    requires Paced(events, gap) && gap <= MaxGap(events)
    ensures Agrees(After(events), AllLast(events))
  {
    if events != [] {
      var before, e := After(events[..|events| - 1]), events[|events| - 1];
      WrapIsHarmless(events[..|events| - 1], gap);
      if e.Ticked? && before.on {
        DueIsReal(e.at, before.offAt);
      } else if e.Pulsed? {
        assert AllLast(events) ==> e.requestedMs > 0;
        PulseDeadline(e.at, Clamp(e.requestedMs));
      }
    }
  }

  lemma {:induction false} PulseDeadline(at: nat, ms: nat)
    ensures (Millis(at) + ms) % WRAP == Millis(at + ms)
  {
  }

  /** The relay never drops before the last pulse has lasted as long as was asked for, or for the 3 seconds allowed. */
  lemma {:induction false} HoldsForItsDuration(events: seq<Event>, p: nat, gap: nat)
    requires Paced(events, gap) && gap <= MaxGap(events)
    requires p < |events| && events[p].Pulsed? && forall i | p < i < |events| :: events[i].Ticked?
    requires After(events).now < events[p].at + events[p].requestedMs
    requires After(events).now < events[p].at + RELAY_MAX_MS
    ensures After(events).driver.energised
  {
    WrapIsHarmless(events, gap);
    LastPulseCounts(events, p, gap);
  }

  lemma {:induction false} LastPulseCounts(events: seq<Event>, p: nat, gap: nat)
    requires Paced(events, gap)
    requires p < |events| && events[p].Pulsed? && forall i | p < i < |events| :: events[i].Ticked?
    ensures var r := After(events);
            && r.pulsedAt == events[p].at && r.offAt == events[p].at + Clamp(events[p].requestedMs)
            && (r.now < r.offAt ==> r.on)
  {
    if p < |events| - 1 {
      LastPulseCounts(events[..|events| - 1], p, gap);
    }
  }

  /** At any moment the pacing still covers, a relay pulsed 3000 + gap ms ago or earlier is off. */
  lemma {:induction false} OffInTime(events: seq<Event>, gap: nat, t: nat)
    requires Paced(events, gap) && gap <= MaxGap(events)
    requires After(events).now <= t < After(events).lastTick + gap
    requires t >= After(events).pulsedAt + RELAY_MAX_MS + gap
    ensures !After(events).driver.energised
  {
    WrapIsHarmless(events, gap);
  }

  /** A pulse, a tick just before its deadline, and the next tick 2^31 ms after the deadline; or the same for no length. */
  function LateRun(requestedMs: nat): seq<Event> {
    var d := Clamp(requestedMs);
    if d == 0 then [Pulsed(0, requestedMs), Ticked(HALF)]
    else [Pulsed(0, requestedMs), Ticked(d - 1), Ticked(d + HALF)]
  }

  /** The bound on the pacing is exact for every requested duration: ticks one millisecond further apart can leave the relay on. */
  lemma {:induction false} SlowTickMisses(requestedMs: nat)
    ensures var events := LateRun(requestedMs);
            Paced(events, MaxGap(events) + 1) && After(events).driver.energised && !After(events).on
  {
    var d := Clamp(requestedMs);
    LateRunGap(requestedMs);
    if d == 0 {
      LateAfterNoPulse(requestedMs, HALF);
    } else {
      LateAfterPulse(requestedMs, d);
    }
  }

  lemma {:induction false} LateRunGap(requestedMs: nat)
    ensures MaxGap(LateRun(requestedMs)) == if Clamp(requestedMs) == 0 then HALF else HALF + 1
  {
    assert LateRun(requestedMs)[0] == Pulsed(0, requestedMs);
  }

  lemma {:induction false} LateAfterNoPulse(requestedMs: nat, late: nat)
    requires Clamp(requestedMs) == 0 && late == HALF
    ensures var r := After([Pulsed(0, requestedMs), Ticked(late)]); r.driver.energised && !r.on
    ensures Paced([Pulsed(0, requestedMs), Ticked(late)], late + 1)
  {
    var pulse := Pulsed(0, requestedMs);
    NotDue(requestedMs);
    assert TickState(PulseState(requestedMs, Millis(0)), Millis(late)).energised;
    hide *;
    TwoEvents(pulse, late);
  }

  lemma {:induction false} TwoEvents(pulse: Event, late: nat)
    requires pulse.Pulsed? && pulse.at <= late
    ensures After([pulse, Ticked(late)]) == Next(Next(Boot(), pulse), Ticked(late))
    ensures Paced([pulse, Ticked(late)], late + 1)
  {
    hide After, Paced, PulseState, TickState;
    OnePulse(pulse, late + 1);
    OneMoreEvent([pulse], Ticked(late), late + 1);
    assert [pulse] + [Ticked(late)] == [pulse, Ticked(late)];
  }

  lemma {:induction false} LateAfterPulse(requestedMs: nat, d: nat)
    requires d == Clamp(requestedMs) > 0
    ensures var r := After([Pulsed(0, requestedMs), Ticked(d - 1), Ticked(d + HALF)]); r.driver.energised && !r.on
    ensures Paced([Pulsed(0, requestedMs), Ticked(d - 1), Ticked(d + HALF)], HALF + 2)
  {
    var pulse := Pulsed(0, requestedMs);
    NotDue(requestedMs);
    hide Clamp, Millis, PulseState, TickState, After, Paced;
    OnePulse(pulse, HALF + 2);
    OneMoreEvent([pulse], Ticked(d - 1), HALF + 2);
    OneMoreEvent([pulse, Ticked(d - 1)], Ticked(d + HALF), HALF + 2);
    assert [pulse] + [Ticked(d - 1)] == [pulse, Ticked(d - 1)];
    assert [pulse, Ticked(d - 1)] + [Ticked(d + HALF)] == [pulse, Ticked(d - 1), Ticked(d + HALF)];
  }

  /** After a pulse at 0, neither a tick just before the deadline nor one 2^31 ms after it changes anything. */
  lemma {:induction false} NotDue(requestedMs: nat)
    ensures var d, s := Clamp(requestedMs), PulseState(requestedMs, Millis(0));
      && s.energised && TickState(s, Millis(d + HALF)) == s
      && (d > 0 ==> TickState(s, Millis(d - 1)) == s)
  {
  }

  lemma {:induction false} OnePulse(pulse: Event, gap: nat)
    requires pulse.Pulsed?
    ensures After([pulse]) == Next(Boot(), pulse) && Paced([pulse], gap)
  {
    var none: seq<Event> := [];
    assert [pulse] == none + [pulse];
    OneMoreEvent(none, pulse, gap);
  }

  lemma {:induction false} OneMoreEvent(events: seq<Event>, e: Event, gap: nat)
    ensures After(events + [e]) == Next(After(events), e)
    ensures Paced(events + [e], gap) <==>
      Paced(events, gap) && e.at >= After(events).now && (e.Ticked? ==> e.at - After(events).lastTick < gap)
  {
    assert (events + [e])[..|events|] == events;
  }
}
