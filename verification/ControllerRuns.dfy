/**
 The controller as a whole, over runs: the link that decides, and the relay that
 its loop ticks. Seconds come from the clock that the commands are checked
 against, milliseconds from the counter that times the relay; nothing ties one to
 the other.
 */
module ControllerRuns {
  import opened Text
  import opened JsonText
  import opened MachineInts
  import opened WsLink
  import A = Actuation
  import R = RelayDriver

  /** `times[i]` is the millisecond at which pulse `i` began; `events` is what the relay has seen since boot. */
  datatype State = State(world: A.World, events: seq<R.Event>, times: seq<nat>)

  /** `w` is what the link makes of a delivery. */
  datatype Step =
    | Sign(request: seq<Member>)
    | Receive(e: Envelope, now: int, verify: (string, string) -> bool, at: nat, w: A.World)
    | Tick(at: nat)
    | Restart

  function Initial(): State { State(A.Initial(), [], []) }

  /** The relay follows the link: a granted pulse energises it. */
  function Follow(s: State, w: A.World, at: nat): State {
    if |w.pulses| > |s.world.pulses|
    then State(w, s.events + [R.Pulsed(at, w.pulses[|w.pulses| - 1].command.durationMs)], s.times + [at])
    else s.(world := w)
  }

  function Next(code: string, s: State, step: Step): State {
    match step
    case Sign(request) => s.(world := A.Next(code, s.world, A.AskSigner(request)))
    case Receive(_, _, _, at, w) => Follow(s, w, at)
    case Tick(at) => s.(events := s.events + [R.Ticked(at)])
    case Restart => State(A.Next(code, s.world, A.Reset), [], [])
  }

  /** The counter does not run backwards, and each tick follows the one before within `gap` ms. */
  ghost predicate Enabled(code: string, s: State, step: Step, gap: nat) {
    match step
    case Sign(request) => A.Enabled(s.world, A.AskSigner(request))
    case Receive(e, now, verify, at, w) =>
      && A.Enabled(s.world, A.Deliver(e, now, verify)) && w == A.Next(code, s.world, A.Deliver(e, now, verify))
      && at >= R.After(s.events).now
    case Tick(at) => at >= R.After(s.events).now && at - R.After(s.events).lastTick < gap
    case Restart => true
  }

  ghost predicate Runs(code: string, s: State, steps: seq<Step>, s': State, gap: nat)
    decreases |steps|
  {
    if steps == [] then s == s'
    else Enabled(code, s, steps[0], gap) && Runs(code, Next(code, s, steps[0]), steps[1..], s', gap)
  }

  /** The last pulse of the relay is the last that the link granted. */
  predicate PulsesMatch(s: State) {
    && |s.times| == |s.world.pulses|
    && (if s.times == [] then !R.After(s.events).on else R.After(s.events).pulsedAt == s.times[|s.times| - 1])
  }

  predicate RelayOk(s: State, gap: nat) { R.Paced(s.events, gap) && R.AllLast(s.events) && PulsesMatch(s) }

  ghost predicate Inv(code: string, s: State, gap: nat) {
    A.Inv(code, s.world) && RelayOk(s, gap)
  }

  /** A delivery adds at most one pulse. */
  lemma {:induction false} DeliveryPulses(code: string, world: A.World, e: Envelope, now: int, verify: (string, string) -> bool)
    ensures var w := A.Next(code, world, A.Deliver(e, now, verify));
      |world.pulses| <= |w.pulses| <= |world.pulses| + 1
  {
  }

  /** The signer signs no command without a duration. */
  lemma {:induction false} PulsesLast(code: string, w: A.World)
    requires A.Inv(code, w)
    ensures w.pulses != [] ==> w.pulses[|w.pulses| - 1].command.durationMs > 0
  {
    if w.pulses != [] {
      A.EachIsJustified(code, w.signed, w.pulses, |w.pulses| - 1);
    }
  }

  lemma {:induction false} SigningPulses(code: string, world: A.World, request: seq<Member>)
    ensures A.Next(code, world, A.AskSigner(request)).pulses == world.pulses
  {
  }

  lemma {:induction false} WorldKeepsInv(code: string, s: State, step: Step, gap: nat)
    requires A.Inv(code, s.world) && Enabled(code, s, step, gap)
    ensures A.Inv(code, Next(code, s, step).world)
  {
    match step
    case Sign(request) => A.StepKeepsInv(code, s.world, A.AskSigner(request));
    case Receive(e, now, verify, at, w) => A.StepKeepsInv(code, s.world, A.Deliver(e, now, verify));
    case Tick(at) =>
    case Restart => A.StepKeepsInv(code, s.world, A.Reset);
  }

  lemma {:induction false} FollowKeeps(s: State, w: A.World, at: nat, gap: nat)
    requires RelayOk(s, gap) && |s.world.pulses| <= |w.pulses| <= |s.world.pulses| + 1 && at >= R.After(s.events).now
    requires |w.pulses| > |s.world.pulses| ==> w.pulses[|w.pulses| - 1].command.durationMs > 0
    ensures RelayOk(Follow(s, w, at), gap)
  {
    if |w.pulses| > |s.world.pulses| {
      R.OneMoreEvent(s.events, R.Pulsed(at, w.pulses[|w.pulses| - 1].command.durationMs), gap);
    }
  }

  lemma {:induction false} TickKeeps(s: State, at: nat, gap: nat)
    requires RelayOk(s, gap) && at >= R.After(s.events).now && at - R.After(s.events).lastTick < gap
    ensures RelayOk(s.(events := s.events + [R.Ticked(at)]), gap)
  {
    R.OneMoreEvent(s.events, R.Ticked(at), gap);
  }

  lemma {:induction false} StepKeepsInv(code: string, s: State, step: Step, gap: nat)
    requires Inv(code, s, gap) && Enabled(code, s, step, gap)
    ensures Inv(code, Next(code, s, step), gap)
  {
    WorldKeepsInv(code, s, step, gap);
    match step
    case Sign(request) => SignKeeps(code, s, request, gap);
    case Receive(e, now, verify, at, w) => ReceiveKeeps(code, s, e, now, verify, at, w, gap);
    case Tick(at) => TickKeeps(s, at, gap);
    case Restart => NothingYet(code, s, gap);
  }

  lemma {:induction false} SignKeeps(code: string, s: State, request: seq<Member>, gap: nat)
    requires RelayOk(s, gap) && Enabled(code, s, Sign(request), gap)
    ensures RelayOk(Next(code, s, Sign(request)), gap)
  {
    SigningPulses(code, s.world, request);
    hide A.Next, A.Enabled, R.After, R.Paced;
  }

  lemma {:induction false} ReceiveKeeps(
    code: string, s: State, e: Envelope, now: int, verify: (string, string) -> bool, at: nat, w: A.World, gap: nat)
    requires RelayOk(s, gap) && Enabled(code, s, Receive(e, now, verify, at, w), gap) && A.Inv(code, w)
    ensures RelayOk(Follow(s, w, at), gap)
  {
    DeliveryPulses(code, s.world, e, now, verify);
    PulsesLast(code, w);
    hide *;
    FollowKeeps(s, w, at, gap);
  }

  lemma {:induction false} NothingYet(code: string, s: State, gap: nat)
    ensures RelayOk(Next(code, s, Restart), gap)
  {
  }

  lemma {:induction false} RunKeepsInv(code: string, s: State, steps: seq<Step>, s': State, gap: nat)
    requires Inv(code, s, gap) && Runs(code, s, steps, s', gap)
    ensures Inv(code, s', gap)
    decreases |steps|
  {
    if steps != [] {
      StepKeepsInv(code, s, steps[0], gap);
      RunKeepsInv(code, Next(code, s, steps[0]), steps[1..], s', gap);
    }
  }

  lemma {:induction false} Reached(code: string, steps: seq<Step>, s: State, gap: nat)
    requires Runs(code, Initial(), steps, s, gap)
    ensures RelayOk(s, gap) && A.AllJustified(code, s.world.signed, s.world.pulses)
  {
    RunKeepsInv(code, Initial(), steps, s, gap);
  }

  lemma {:induction false} LastPulseIsRecent(s: State, gap: nat, t: nat)
    requires RelayOk(s, gap) && gap <= HALF + 1
    requires R.After(s.events).now <= t < R.After(s.events).lastTick + gap
    requires R.After(s.events).driver.energised
    ensures s.times != [] && |s.times| == |s.world.pulses| && t < s.times[|s.times| - 1] + R.RELAY_MAX_MS + gap
  {
    R.WrapIsHarmless(s.events, gap);
    if t >= R.After(s.events).pulsedAt + R.RELAY_MAX_MS + gap {
      R.OffInTime(s.events, gap, t);
    }
  }

  /**
   With ticks less than `gap` ms apart: whenever the relay is energised, the last
   pulse began less than 3000 + `gap` ms ago, and a command that the signer
   validated for this controller stands behind it.
   */
  lemma {:induction false} EnergisedIsJustified(code: string, steps: seq<Step>, s: State, gap: nat, t: nat)
    requires Runs(code, Initial(), steps, s, gap) && gap <= HALF + 1
    requires R.After(s.events).now <= t < R.After(s.events).lastTick + gap
    requires R.After(s.events).driver.energised
    ensures s.world.pulses != [] && |s.times| == |s.world.pulses|
    ensures t < s.times[|s.times| - 1] + R.RELAY_MAX_MS + gap
    ensures A.Justified(code, s.world.signed, s.world.pulses[|s.world.pulses| - 1])
  {
    Reached(code, steps, s, gap);
    LastPulseIsRecent(s, gap, t);
    A.EachIsJustified(code, s.world.signed, s.world.pulses, |s.world.pulses| - 1);
  }
}
