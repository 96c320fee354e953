/**
 The registry of controller connections: `ControllerHub` and the session
 lifetime around it, over every interleaving of the coroutines at their await
 points.

 Between two awaits a coroutine runs alone, so `register`, `unregister`,
 `resolve` and the two halves of `send_command` are single steps. Sessions and
 futures are objects in the source; here they are positions in sequences.
 */
module Hub {
  import opened Text

  datatype Ack = Ack(commandId: string, body: string)

  /** How a future ends. A result remembers the session on whose socket it came. */
  datatype Ending = Unfinished | Result(ack: Ack, from: nat) | Failed(reason: string) | Cancelled

  datatype Future = Future(session: nat, commandId: string, ending: Ending)

  datatype HubState = HubState(
    sessions: map<string, nat>, codes: seq<string>, pending: seq<map<string, nat>>, futures: seq<Future>)

  // ---- the operations on values

  /** Every unfinished future among `ids` fails. */
  function FailAll(futures: seq<Future>, ids: set<nat>, reason: string): (r: seq<Future>)
    ensures |r| == |futures|
  {
    seq(|futures|, i requires 0 <= i < |futures| =>
      if i in ids && futures[i].ending.Unfinished? then futures[i].(ending := Failed(reason)) else futures[i])
  }

  predicate IsSession(h: HubState, s: nat) {
    s < |h.codes| && |h.pending| == |h.codes|
  }

  /** `register`: the session that held the code before loses its pending commands. */
  function Registered(h: HubState, s: nat): HubState
    requires IsSession(h, s)
  {
    var code := h.codes[s];
    var futures :=
      if code in h.sessions && IsSession(h, h.sessions[code])
      then FailAll(h.futures, h.pending[h.sessions[code]].Values, "superseded") else h.futures;
    h.(sessions := h.sessions[code := s], futures := futures)
  }

  predicate IsRegistered(h: HubState, s: nat)
    requires IsSession(h, s)
  {
    h.codes[s] in h.sessions && h.sessions[h.codes[s]] == s
  }

  /** `unregister` */
  function Unregistered(h: HubState, s: nat): HubState
    requires IsSession(h, s)
  {
    h.(sessions := if IsRegistered(h, s) then h.sessions - {h.codes[s]} else h.sessions,
       futures := FailAll(h.futures, h.pending[s].Values, "disconnected"))
  }

  /** The first half of `send_command`, up to its first await, on the session found. */
  function Began(h: HubState, s: nat, commandId: string): HubState
    requires IsSession(h, s)
  {
    var entries: map<string, nat> := h.pending[s][commandId := |h.futures|];
    h.(pending := h.pending[s := entries],
       futures := h.futures + [Future(s, commandId, Unfinished)])
  }

  /** `resolve` */
  function Resolved(h: HubState, s: nat, ack: Ack): HubState
    requires IsSession(h, s)
  {
    if ack.commandId in h.pending[s] then
      var f := h.pending[s][ack.commandId];
      if f < |h.futures| && h.futures[f].ending.Unfinished?
      then h.(futures := h.futures[f := h.futures[f].(ending := Result(ack, s))]) else h
    else h
  }

  /** `pending.pop(command_id, None)` in the `finally` of `send_command`. */
  function Popped(h: HubState, s: nat, commandId: string): HubState
    requires IsSession(h, s)
  {
    h.(pending := h.pending[s := h.pending[s] - {commandId}])
  }

  function CancelledAt(h: HubState, f: nat): HubState {
    if f < |h.futures| && h.futures[f].ending.Unfinished?
    then h.(futures := h.futures[f := h.futures[f].(ending := Cancelled)]) else h
  }

  // ---- the class

  class ControllerHub {
    var sessions: map<string, nat>
    var codes: seq<string>
    var pending: seq<map<string, nat>>
    var futures: seq<Future>

    constructor ()
      ensures State() == HubState(map[], [], [], [])
    {
      sessions, codes, pending, futures := map[], [], [], [];
    }

    function State(): HubState
      reads this
    {
      HubState(sessions, codes, pending, futures)
    }

    /** The loop over `pending.values()`, in any order. */
    method FailPending(s: nat, reason: string)
      requires s < |pending|
      modifies this`futures
      ensures futures == FailAll(old(futures), pending[s].Values, reason)
    {
      var left := pending[s].Values;
      while left != {}
        invariant left <= pending[s].Values && |futures| == |old(futures)|
        invariant futures == FailAll(old(futures), pending[s].Values - left, reason)
        decreases |left|
      {
        var f :| f in left;
        if f < |futures| && futures[f].ending.Unfinished? {
          futures := futures[f := futures[f].(ending := Failed(reason))];
        }
        left := left - {f};
      }
    }

    method Register(s: nat)
      requires IsSession(State(), s)
      modifies this
      ensures State() == Registered(old(State()), s)
    {
      var code := codes[s];
      if code in sessions && sessions[code] < |codes| {
        FailPending(sessions[code], "superseded");
      }
      sessions := sessions[code := s];
    }

    method Unregister(s: nat)
      requires IsSession(State(), s)
      modifies this
      ensures State() == Unregistered(old(State()), s)
    {
      if codes[s] in sessions && sessions[codes[s]] == s {
        sessions := sessions - {codes[s]};
      }
      FailPending(s, "disconnected");
    }

    /** `ControllerOffline` is `None`; otherwise the session and the future to wait for. */
    method BeginCommand(code: string, commandId: string) returns (r: Option<(nat, nat)>)
      requires |pending| == |codes| && forall c | c in sessions :: sessions[c] < |codes|
      modifies this
      ensures r.None? <==> code !in old(sessions)
      ensures r.None? ==> State() == old(State())
      ensures r.Some? ==> r.value == (old(sessions)[code], |old(futures)|) && State() == Began(old(State()), r.value.0, commandId)
    {
      if code !in sessions { return None; }
      var s := sessions[code];
      r := Some((s, |futures|));
      var entries: map<string, nat> := pending[s][commandId := |futures|];
      futures := futures + [Future(s, commandId, Unfinished)];
      pending := pending[s := entries];
    }

    /** The second half of `send_command`: the future has ended, or the timeout has fired, perhaps both. */
    method EndCommand(s: nat, commandId: string, f: nat, timedOut: bool) returns (r: Phase)
      requires IsSession(State(), s) && f < |futures| && (futures[f].ending.Unfinished? ==> timedOut)
      modifies this
      ensures r == if timedOut then Raised("timeout") else Woken(old(futures)[f].ending)
      ensures State() == Popped(CancelledAt(old(State()), f), s, commandId)
    {
      if timedOut {
        if futures[f].ending.Unfinished? {
          futures := futures[f := futures[f].(ending := Cancelled)];
        }
        r := Raised("timeout");
      } else {
        r := Woken(futures[f].ending);
      }
      pending := pending[s := pending[s] - {commandId}];
    }

    method Resolve(s: nat, ack: Ack)
      requires IsSession(State(), s)
      modifies this
      ensures State() == Resolved(old(State()), s, ack)
    {
      if ack.commandId in pending[s] {
        var f := pending[s][ack.commandId];
        if f < |futures| && futures[f].ending.Unfinished? {
          futures := futures[f := futures[f].(ending := Result(ack, s))];
        }
      }
    }
  }

  // ---- coroutines

  datatype Phase = Sending | Waiting | Returned(ack: Ack, from: nat) | Raised(reason: string)

  /** One call of `send_command` that found a session. */
  datatype Task = Task(session: nat, commandId: string, future: nat, phase: Phase)

  datatype World = World(hub: HubState, tasks: seq<Task>)

  datatype Step =
    | Connect(code: string)
    | Disconnect(s: nat)
    | Receive(s: nat, ack: Ack)
    | Send(code: string, commandId: string)
    | Sent(t: nat)
    | SendFails(t: nat)
    | Wake(t: nat)
    | Timeout(t: nat)
    | CancelTask(t: nat)

  function Start(): World { World(HubState(map[], [], [], []), []) }

  predicate IsPhase(w: World, t: nat, phase: Phase) { t < |w.tasks| && w.tasks[t].phase == phase }

  predicate IsOpen(task: Task) { task.phase.Sending? || task.phase.Waiting? }

  predicate TaskOk(w: World, t: nat) {
    t < |w.tasks| && IsSession(w.hub, w.tasks[t].session) && w.tasks[t].future < |w.hub.futures|
  }

  predicate May(w: World, step: Step) {
    match step
    case Connect(_) => |w.hub.pending| == |w.hub.codes|
    case Disconnect(s) => IsSession(w.hub, s)
    case Receive(s, _) => IsSession(w.hub, s)
    case Send(code, commandId) =>
      // uuid4: a command id is never used twice
      && (forall t | 0 <= t < |w.tasks| :: w.tasks[t].commandId != commandId)
      && (code in w.hub.sessions ==> IsSession(w.hub, w.hub.sessions[code]))
    case Sent(t) => IsPhase(w, t, Sending)
    case SendFails(t) => TaskOk(w, t) && IsPhase(w, t, Sending)
    case Wake(t) => TaskOk(w, t) && IsPhase(w, t, Waiting) && !w.hub.futures[w.tasks[t].future].ending.Unfinished?
    // a timeout may also fire after the future has ended and before the caller wakes
    case Timeout(t) => TaskOk(w, t) && IsPhase(w, t, Waiting)
    case CancelTask(t) => TaskOk(w, t) && IsOpen(w.tasks[t])
  }

  /** What a waiting caller makes of the end of its future. */
  function Woken(e: Ending): Phase {
    match e
    case Result(ack, from) => Returned(ack, from)
    case Failed(reason) => Raised(reason)
    case _ => Raised("cancelled")
  }

  /** Leaving `send_command`, by return or by exception. */
  function Left(w: World, t: nat, hub: HubState, phase: Phase): World
    requires t < |w.tasks| && IsSession(hub, w.tasks[t].session)
  {
    World(Popped(hub, w.tasks[t].session, w.tasks[t].commandId), w.tasks[t := w.tasks[t].(phase := phase)])
  }

  function After(w: World, step: Step): World
    requires May(w, step)
  {
    match step
    case Connect(code) =>
      var h := w.hub.(codes := w.hub.codes + [code], pending := w.hub.pending + [map[]]);
      w.(hub := Registered(h, |w.hub.codes|))
    case Disconnect(s) => w.(hub := Unregistered(w.hub, s))
    case Receive(s, ack) => w.(hub := Resolved(w.hub, s, ack))
    case Send(code, commandId) =>
      if code !in w.hub.sessions then w
      else
        var s := w.hub.sessions[code];
        World(Began(w.hub, s, commandId), w.tasks + [Task(s, commandId, |w.hub.futures|, Sending)])
    case Sent(t) => w.(tasks := w.tasks[t := w.tasks[t].(phase := Waiting)])
    case SendFails(t) => Left(w, t, w.hub, Raised("send failed"))
    case Wake(t) => Left(w, t, w.hub, Woken(w.hub.futures[w.tasks[t].future].ending))
    case Timeout(t) => Left(w, t, CancelledAt(w.hub, w.tasks[t].future), Raised("timeout"))
    case CancelTask(t) =>
      Left(w, t, if w.tasks[t].phase.Waiting? then CancelledAt(w.hub, w.tasks[t].future) else w.hub, Raised("task cancelled"))
  }

  ghost predicate Runs(w: World, steps: seq<Step>, w': World)
    decreases |steps|
  {
    if steps == [] then w == w'
    else May(w, steps[0]) && Runs(After(w, steps[0]), steps[1..], w')
  }

  // ---- the invariant

  /** The entry of session `s` for a command leads to that command's own future. */
  predicate EntryOk(h: HubState, s: nat, commandId: string)
    requires s < |h.pending| && commandId in h.pending[s]
  {
    var f := h.pending[s][commandId];
    f < |h.futures| && h.futures[f].session == s && h.futures[f].commandId == commandId
    && (h.futures[f].ending.Unfinished? ==> IsSession(h, s) && IsRegistered(h, s))
  }

  ghost predicate EntriesOk(h: HubState) {
    forall s: nat, commandId | s < |h.pending| && commandId in h.pending[s] :: EntryOk(h, s, commandId)
  }

  ghost predicate SessionsOk(h: HubState) {
    |h.pending| == |h.codes| && forall code | code in h.sessions :: h.sessions[code] < |h.codes| && h.codes[h.sessions[code]] == code
  }

  /** A result carries the id of its command and came on the socket of its session. */
  predicate ResultOk(f: Future) {
    f.ending.Result? ==> f.ending.ack.commandId == f.commandId && f.ending.from == f.session
  }

  ghost predicate FuturesOk(h: HubState) {
    forall f | 0 <= f < |h.futures| :: ResultOk(h.futures[f])
  }

  /** An open call has its entry, and a returned one the acknowledgement of its own command. */
  predicate OwnsEntry(w: World, t: nat)
    requires t < |w.tasks|
  {
    var task := w.tasks[t];
    && (IsOpen(task) ==>
          task.session < |w.hub.pending| && task.commandId in w.hub.pending[task.session]
          && w.hub.pending[task.session][task.commandId] == task.future)
    && (task.phase.Returned? ==> task.phase.ack.commandId == task.commandId && task.phase.from == task.session)
  }

  ghost predicate TasksOk(w: World) {
    && (forall t: nat | t < |w.tasks| :: OwnsEntry(w, t))
    && (forall t, t' | 0 <= t < t' < |w.tasks| :: w.tasks[t].commandId != w.tasks[t'].commandId)
  }

  ghost predicate Inv(w: World) {
    SessionsOk(w.hub) && EntriesOk(w.hub) && FuturesOk(w.hub) && TasksOk(w)
  }

  /** A finished future stays as it is. */
  ghost predicate FuturesKeep(h: HubState, h': HubState) {
    && |h.futures| <= |h'.futures|
    && forall f | 0 <= f < |h.futures| ::
         h'.futures[f].session == h.futures[f].session && h'.futures[f].commandId == h.futures[f].commandId
         && (!h.futures[f].ending.Unfinished? ==> h'.futures[f] == h.futures[f])
  }

  // ---- every step keeps it

  lemma {:induction false} RegisterKeeps(h: HubState, s: nat)
    requires SessionsOk(h) && EntriesOk(h) && FuturesOk(h) && IsSession(h, s)
    ensures
      var h' := Registered(h, s);
      SessionsOk(h') && EntriesOk(h') && FuturesOk(h') && FuturesKeep(h, h')
  {
  }

  lemma {:induction false} UnregisterKeeps(h: HubState, s: nat)
    requires SessionsOk(h) && EntriesOk(h) && FuturesOk(h) && IsSession(h, s)
    ensures
      var h' := Unregistered(h, s);
      SessionsOk(h') && EntriesOk(h') && FuturesOk(h') && FuturesKeep(h, h')
  {
  }

  lemma {:induction false} ResolveKeeps(h: HubState, s: nat, ack: Ack)
    requires SessionsOk(h) && EntriesOk(h) && FuturesOk(h) && IsSession(h, s)
    ensures
      var h' := Resolved(h, s, ack);
      SessionsOk(h') && EntriesOk(h') && FuturesOk(h') && FuturesKeep(h, h')
  {
  }

  lemma {:induction false} CancelKeeps(h: HubState, f: nat)
    requires SessionsOk(h) && EntriesOk(h) && FuturesOk(h)
    ensures
      var h' := CancelledAt(h, f);
      SessionsOk(h') && EntriesOk(h') && FuturesOk(h') && FuturesKeep(h, h')
  {
  }

  lemma {:induction false} PopKeeps(h: HubState, s: nat, commandId: string)
    requires SessionsOk(h) && EntriesOk(h) && FuturesOk(h) && IsSession(h, s)
    ensures
      var h' := Popped(h, s, commandId);
      SessionsOk(h') && EntriesOk(h') && FuturesOk(h') && FuturesKeep(h, h')
  {
  }

  lemma {:induction false} BeginKeeps(h: HubState, s: nat, commandId: string)
    requires SessionsOk(h) && EntriesOk(h) && FuturesOk(h) && IsSession(h, s) && IsRegistered(h, s)
    ensures
      var h' := Began(h, s, commandId);
      SessionsOk(h') && EntriesOk(h') && FuturesOk(h') && FuturesKeep(h, h')
  {
  }

  lemma {:induction false} ConnectKeeps(h: HubState, code: string)
    requires SessionsOk(h) && EntriesOk(h) && FuturesOk(h)
    ensures
      var h' := h.(codes := h.codes + [code], pending := h.pending + [map[]]);
      SessionsOk(h') && EntriesOk(h') && FuturesOk(h')
  {
  }

  lemma {:induction false} HubKeeps(w: World, step: Step)
    requires Inv(w) && May(w, step)
    ensures var h' := After(w, step).hub; SessionsOk(h') && EntriesOk(h') && FuturesOk(h') && FuturesKeep(w.hub, h')
  {
    match step
    case Connect(code) =>
      ConnectKeeps(w.hub, code);
      RegisterKeeps(w.hub.(codes := w.hub.codes + [code], pending := w.hub.pending + [map[]]), |w.hub.codes|);
    case Disconnect(s) => UnregisterKeeps(w.hub, s);
    case Receive(s, ack) => ResolveKeeps(w.hub, s, ack);
    case Send(code, commandId) =>
      if code in w.hub.sessions {
        BeginKeeps(w.hub, w.hub.sessions[code], commandId);
      }
    case Sent(t) =>
    case SendFails(t) => PopKeeps(w.hub, w.tasks[t].session, w.tasks[t].commandId);
    case Wake(t) => PopKeeps(w.hub, w.tasks[t].session, w.tasks[t].commandId);
    case Timeout(t) =>
      CancelKeeps(w.hub, w.tasks[t].future);
      PopKeeps(CancelledAt(w.hub, w.tasks[t].future), w.tasks[t].session, w.tasks[t].commandId);
    case CancelTask(t) =>
      CancelKeeps(w.hub, w.tasks[t].future);
      PopKeeps(if w.tasks[t].phase.Waiting? then CancelledAt(w.hub, w.tasks[t].future) else w.hub,
               w.tasks[t].session, w.tasks[t].commandId);
  }

  /** Leaving pops the call's own entry only: no other call has its command id. */
  lemma {:induction false} LeftKeepsTasks(w: World, t: nat, hub: HubState, phase: Phase)
    requires TasksOk(w) && t < |w.tasks| && IsSession(hub, w.tasks[t].session) && hub.pending == w.hub.pending
    requires phase.Raised? || (phase.Returned? && phase.ack.commandId == w.tasks[t].commandId && phase.from == w.tasks[t].session)
    ensures TasksOk(Left(w, t, hub, phase))
  {
    var w' := Left(w, t, hub, phase);
    forall k: nat | k < |w'.tasks| ensures OwnsEntry(w', k) {
      assert OwnsEntry(w, k);
      assert k != t ==> w.tasks[k].commandId != w.tasks[t].commandId;
    }
  }

  lemma {:induction false} TasksKeep(w: World, step: Step)
    requires Inv(w) && May(w, step)
    ensures TasksOk(After(w, step))
  {
    var w' := After(w, step);
    if step.Wake? {
      var task := w.tasks[step.t];
      assert OwnsEntry(w, step.t) && EntryOk(w.hub, task.session, task.commandId);
      assert ResultOk(w.hub.futures[task.future]);
      LeftKeepsTasks(w, step.t, w.hub, Woken(w.hub.futures[task.future].ending));
    } else if step.SendFails? {
      LeftKeepsTasks(w, step.t, w.hub, Raised("send failed"));
    } else if step.Timeout? {
      LeftKeepsTasks(w, step.t, CancelledAt(w.hub, w.tasks[step.t].future), Raised("timeout"));
    } else if step.CancelTask? {
      LeftKeepsTasks(w, step.t, if w.tasks[step.t].phase.Waiting? then CancelledAt(w.hub, w.tasks[step.t].future) else w.hub,
                     Raised("task cancelled"));
    } else {
      forall k: nat | k < |w'.tasks| ensures OwnsEntry(w', k) {
        if k < |w.tasks| {
          assert OwnsEntry(w, k);
        }
      }
    }
  }

  lemma {:induction false} StepKeepsInv(w: World, step: Step)
    requires Inv(w) && May(w, step)
    ensures Inv(After(w, step)) && FuturesKeep(w.hub, After(w, step).hub)
  {
    HubKeeps(w, step);
    TasksKeep(w, step);
  }

  lemma {:induction false} RunKeepsInv(w: World, steps: seq<Step>, w': World)
    requires Inv(w) && Runs(w, steps, w')
    ensures Inv(w') && FuturesKeep(w.hub, w'.hub)
    decreases |steps|
  {
    if steps != [] {
      StepKeepsInv(w, steps[0]);
      RunKeepsInv(After(w, steps[0]), steps[1..], w');
    }
  }

  // ---- what the invariant says

  /**
   Over every run: an unfinished pending future belongs to the session now
   registered for its code, so no caller waits on a socket that is gone; and
   `send_command` returns only an acknowledgement with its own command id, from
   the socket it sent the command to.
   */
  lemma {:induction false} EveryRun(steps: seq<Step>, w: World)
    requires Runs(Start(), steps, w)
    ensures forall s: nat, c | s < |w.hub.pending| && c in w.hub.pending[s] ::
      w.hub.pending[s][c] < |w.hub.futures|
      && (w.hub.futures[w.hub.pending[s][c]].ending.Unfinished? ==> IsSession(w.hub, s) && IsRegistered(w.hub, s))
    ensures forall t | 0 <= t < |w.tasks| && IsOpen(w.tasks[t]) ::
      w.tasks[t].future < |w.hub.futures|
      && (w.hub.futures[w.tasks[t].future].ending.Unfinished? ==>
            IsSession(w.hub, w.tasks[t].session) && IsRegistered(w.hub, w.tasks[t].session))
    ensures forall t | 0 <= t < |w.tasks| && w.tasks[t].phase.Returned? ::
      w.tasks[t].phase.ack.commandId == w.tasks[t].commandId && w.tasks[t].phase.from == w.tasks[t].session
  {
    RunKeepsInv(Start(), steps, w);
    forall s: nat, c | s < |w.hub.pending| && c in w.hub.pending[s]
      ensures w.hub.pending[s][c] < |w.hub.futures|
      ensures w.hub.futures[w.hub.pending[s][c]].ending.Unfinished? ==> IsSession(w.hub, s) && IsRegistered(w.hub, s)
    {
      assert EntryOk(w.hub, s, c);
    }
    forall t | 0 <= t < |w.tasks| && IsOpen(w.tasks[t])
      ensures w.tasks[t].future < |w.hub.futures|
      ensures w.hub.futures[w.tasks[t].future].ending.Unfinished? ==>
        IsSession(w.hub, w.tasks[t].session) && IsRegistered(w.hub, w.tasks[t].session)
    {
      assert OwnsEntry(w, t) && EntryOk(w.hub, w.tasks[t].session, w.tasks[t].commandId);
    }
    forall t | 0 <= t < |w.tasks| && w.tasks[t].phase.Returned?
      ensures w.tasks[t].phase.ack.commandId == w.tasks[t].commandId && w.tasks[t].phase.from == w.tasks[t].session
    {
      assert OwnsEntry(w, t);
    }
  }

  /** A future completes at most once: once it has ended, no run changes how. */
  lemma {:induction false} CompletesOnce(w: World, steps: seq<Step>, w': World, f: nat)
    requires Inv(w) && Runs(w, steps, w') && f < |w.hub.futures| && !w.hub.futures[f].ending.Unfinished?
    ensures f < |w'.hub.futures| && w'.hub.futures[f] == w.hub.futures[f]
  {
    RunKeepsInv(w, steps, w');
  }

  /** A session that is not registered is inert: its messages and its end change nothing for anybody. */
  lemma {:induction false} OldSocketIsInert(w: World, s: nat, ack: Ack)
    requires Inv(w) && IsSession(w.hub, s) && !IsRegistered(w.hub, s)
    ensures After(w, Receive(s, ack)) == w && After(w, Disconnect(s)) == w
  {
  }

  /** The registered session answers: its acknowledgement of an open command ends that command's future and no other. */
  lemma {:induction false} LiveSocketAnswers(w: World, t: nat, ack: Ack)
    requires Inv(w) && t < |w.tasks| && IsOpen(w.tasks[t]) && ack.commandId == w.tasks[t].commandId
    requires w.tasks[t].future < |w.hub.futures| && w.hub.futures[w.tasks[t].future].ending.Unfinished?
    ensures IsSession(w.hub, w.tasks[t].session)
    ensures
      var w' := After(w, Receive(w.tasks[t].session, ack));
      && w'.hub.futures[w.tasks[t].future].ending == Result(ack, w.tasks[t].session)
      && forall f | 0 <= f < |w.hub.futures| && f != w.tasks[t].future :: w'.hub.futures[f] == w.hub.futures[f]
  {
    assert OwnsEntry(w, t);
    assert EntryOk(w.hub, w.tasks[t].session, ack.commandId);
  }

  // ---- the registry, told from the history of connections

  /** The code of each session, in the order in which they connected. */
  function Sockets(history: seq<Step>): seq<string> {
    if history == [] then []
    else
      var n := |history| - 1;
      Sockets(history[..n]) + if history[n].Connect? then [history[n].code] else []
  }

  /** Session `s` is the last that connected with this code. */
  predicate IsLatest(sockets: seq<string>, code: string, s: nat) {
    s < |sockets| && sockets[s] == code && forall k | s < k < |sockets| :: sockets[k] != code
  }

  predicate Holds(h: HubState, code: string, s: nat) { code in h.sessions && h.sessions[code] == s }

  /** A code is held by the session that connected with it last, unless that one has ended; and by no other. */
  ghost predicate Tells(history: seq<Step>, h: HubState) {
    && h.codes == Sockets(history)
    && (forall s: nat :: Disconnect(s) in history ==> s < |h.codes|)
    && (forall code, s: nat :: Holds(h, code, s) <==> IsLatest(h.codes, code, s) && Disconnect(s) !in history)
  }

  lemma {:induction false} OneMoreStep(history: seq<Step>, step: Step)
    ensures Sockets(history + [step]) == Sockets(history) + if step.Connect? then [step.code] else []
  {
    assert (history + [step])[..|history|] == history;
  }

  lemma {:induction false} ConnectTells(history: seq<Step>, w: World, code: string)
    requires Tells(history, w.hub) && May(w, Connect(code))
    ensures Tells(history + [Connect(code)], After(w, Connect(code)).hub)
  {
    var step := Connect(code);
    OneMoreStep(history, step);
    var h, h' := w.hub, After(w, step).hub;
    var n := |h.codes|;
    assert h'.codes == h.codes + [code] && h'.sessions == h.sessions[code := n];
    hide Sockets, IsLatest, After, May;
    SameEnds(history, step);
    forall c, s: nat ensures Holds(h', c, s) <==> IsLatest(h'.codes, c, s) && Disconnect(s) !in history + [step] {
      LatestGrows(h.codes, code, c, s);
      assert Holds(h, c, s) <==> IsLatest(h.codes, c, s) && Disconnect(s) !in history;
      assert Holds(h', c, s) <==> if c == code then s == n else Holds(h, c, s);
    }
  }

  lemma {:induction false} SameEnds(history: seq<Step>, step: Step)
    requires !step.Disconnect?
    ensures forall s: nat :: Disconnect(s) in history + [step] <==> Disconnect(s) in history
  {
  }

  lemma {:induction false} LatestGrows(sockets: seq<string>, code: string, c: string, s: nat)
    ensures IsLatest(sockets + [code], c, s) <==> if c == code then s == |sockets| else IsLatest(sockets, c, s)
  {
    var longer := sockets + [code];
    assert longer[|sockets|] == code;
    assert forall k | 0 <= k < |sockets| :: longer[k] == sockets[k];
  }

  lemma {:induction false} DisconnectTells(history: seq<Step>, w: World, s: nat)
    requires Tells(history, w.hub) && May(w, Disconnect(s))
    ensures Tells(history + [Disconnect(s)], After(w, Disconnect(s)).hub)
  {
    OneMoreStep(history, Disconnect(s));
    var h, h' := w.hub, After(w, Disconnect(s)).hub;
    forall c, k: nat ensures Holds(h', c, k) <==> IsLatest(h'.codes, c, k) && Disconnect(k) !in history + [Disconnect(s)] {
      assert Holds(h, c, k) <==> IsLatest(h.codes, c, k) && Disconnect(k) !in history;
    }
  }

  lemma {:induction false} RegistryStays(w: World, step: Step)
    requires May(w, step) && !step.Connect? && !step.Disconnect?
    ensures After(w, step).hub.sessions == w.hub.sessions && After(w, step).hub.codes == w.hub.codes
  {
  }

  /** The other steps leave the registry alone. */
  lemma {:induction false} OthersTell(history: seq<Step>, w: World, step: Step)
    requires Tells(history, w.hub) && May(w, step) && !step.Connect? && !step.Disconnect?
    ensures Tells(history + [step], After(w, step).hub)
  {
    OneMoreStep(history, step);
    SameEnds(history, step);
    RegistryStays(w, step);
    hide Sockets, IsLatest, After, May;
    var h, h' := w.hub, After(w, step).hub;
    forall c, s: nat ensures Holds(h', c, s) <==> IsLatest(h'.codes, c, s) && Disconnect(s) !in history + [step] {
      assert Holds(h, c, s) <==> IsLatest(h.codes, c, s) && Disconnect(s) !in history;
    }
  }

  lemma {:induction false} RunTells(history: seq<Step>, w: World, steps: seq<Step>, w': World)
    requires Tells(history, w.hub) && Runs(w, steps, w')
    ensures Tells(history + steps, w'.hub)
    decreases |steps|
  {
    if steps == [] {
      assert history + steps == history;
    } else {
      match steps[0] {
        case Connect(code) => ConnectTells(history, w, code);
        case Disconnect(s) => DisconnectTells(history, w, s);
        case _ => OthersTell(history, w, steps[0]);
      }
      RunTells(history + [steps[0]], After(w, steps[0]), steps[1..], w');
      assert history + [steps[0]] + steps[1..] == history + steps;
    }
  }

  /**
   Over every run: session `s` is registered for a code exactly when it was the
   last to connect with it and has not ended since.
   */
  lemma {:induction false} OnlineExactlyWhen(steps: seq<Step>, w: World, code: string, s: nat)
    requires Runs(Start(), steps, w)
    ensures code in w.hub.sessions && w.hub.sessions[code] == s <==>
      IsLatest(Sockets(steps), code, s) && Disconnect(s) !in steps
  {
    RunTells([], Start(), steps, w);
    assert [] + steps == steps;
  }

  /** The end of a registered session takes its code offline, so that a command for it is refused, and no other code. */
  lemma {:induction false} EndGoesOffline(w: World, s: nat)
    requires Inv(w) && IsSession(w.hub, s) && IsRegistered(w.hub, s)
    ensures
      var w' := After(w, Disconnect(s));
      && w.hub.codes[s] !in w'.hub.sessions
      && (forall c | c != w.hub.codes[s] :: (c in w'.hub.sessions <==> c in w.hub.sessions)
            && (c in w.hub.sessions ==> w'.hub.sessions[c] == w.hub.sessions[c]))
      && (forall id | May(w', Send(w.hub.codes[s], id)) :: After(w', Send(w.hub.codes[s], id)) == w')
  {
  }

  /** A command for a registered code goes to the session registered, with a future of its own; for another code it is refused. */
  lemma {:induction false} CommandGoesOut(w: World, code: string, id: string)
    requires Inv(w) && May(w, Send(code, id))
    ensures
      var w' := After(w, Send(code, id));
      if code !in w.hub.sessions then w' == w
      else
        var s, f := w.hub.sessions[code], |w.hub.futures|;
        && w'.tasks == w.tasks + [Task(s, id, f, Sending)]
        && w'.hub.futures == w.hub.futures + [Future(s, id, Unfinished)]
        && s < |w'.hub.pending| && id in w'.hub.pending[s] && w'.hub.pending[s][id] == f
        && w'.hub.sessions == w.hub.sessions && w'.hub.codes == w.hub.codes
  {
  }

  // ---- what callers learn

  /** The event that ends session `s`: its own end, or another connection with its code. */
  predicate Ends(w: World, step: Step, s: nat)
    requires IsSession(w.hub, s)
  {
    step == Disconnect(s) || (step == Connect(w.hub.codes[s]) && IsRegistered(w.hub, s))
  }

  function ReasonOf(step: Step): string { if step.Connect? then "superseded" else "disconnected" }

  /** When a session ends, whoever waits on it fails with the reason of that event; the futures of other sessions stay. */
  lemma {:induction false} WaitersFail(w: World, step: Step, s: nat)
    requires Inv(w) && May(w, step) && IsSession(w.hub, s) && Ends(w, step, s)
    ensures forall t | 0 <= t < |w.tasks| && IsOpen(w.tasks[t]) && w.tasks[t].session == s ::
      var f := w.tasks[t].future;
      && f < |w.hub.futures| && f < |After(w, step).hub.futures|
      && (w.hub.futures[f].ending.Unfinished? ==> After(w, step).hub.futures[f].ending == Failed(ReasonOf(step)))
    ensures |After(w, step).hub.futures| == |w.hub.futures|
    ensures forall f | 0 <= f < |w.hub.futures| && w.hub.futures[f].session != s ::
      After(w, step).hub.futures[f] == w.hub.futures[f]
  {
    forall t | 0 <= t < |w.tasks| && IsOpen(w.tasks[t]) && w.tasks[t].session == s
      ensures w.tasks[t].future < |w.hub.futures| && w.tasks[t].future in w.hub.pending[s].Values
    {
      assert OwnsEntry(w, t) && EntryOk(w.hub, s, w.tasks[t].commandId);
    }
    forall c | c in w.hub.pending[s] ensures w.hub.futures[w.hub.pending[s][c]].session == s {
      assert EntryOk(w.hub, s, c);
    }
  }

  /** A caller that waits when its session ends raises the reason of that event as soon as it wakes. */
  lemma {:induction false} WaiterRaises(w: World, step: Step, t: nat)
    requires Inv(w) && May(w, step) && IsPhase(w, t, Waiting) && IsSession(w.hub, w.tasks[t].session)
    requires Ends(w, step, w.tasks[t].session)
    requires w.tasks[t].future < |w.hub.futures| && w.hub.futures[w.tasks[t].future].ending.Unfinished?
    ensures May(After(w, step), Wake(t))
    ensures After(After(w, step), Wake(t)).tasks[t].phase == Raised(ReasonOf(step))
  {
    WaitersFail(w, step, w.tasks[t].session);
    assert OwnsEntry(w, t);
  }

  /** A caller whose command is acknowledged on its session returns that acknowledgement when it wakes. */
  lemma {:induction false} AnswerReturns(w: World, t: nat, ack: Ack)
    requires Inv(w) && IsPhase(w, t, Waiting) && ack.commandId == w.tasks[t].commandId
    requires w.tasks[t].future < |w.hub.futures| && w.hub.futures[w.tasks[t].future].ending.Unfinished?
    ensures May(w, Receive(w.tasks[t].session, ack))
    ensures May(After(w, Receive(w.tasks[t].session, ack)), Wake(t))
    ensures After(After(w, Receive(w.tasks[t].session, ack)), Wake(t)).tasks[t].phase == Returned(ack, w.tasks[t].session)
  {
    LiveSocketAnswers(w, t, ack);
    assert OwnsEntry(w, t);
  }

  /** A timeout raises, and leaves no future behind that could still be awaited. */
  lemma {:induction false} TimeoutCancels(w: World, t: nat)
    requires Inv(w) && May(w, Timeout(t))
    ensures
      var w', f := After(w, Timeout(t)), w.tasks[t].future;
      && w'.tasks[t].phase == Raised("timeout")
      && w'.hub.futures[f].ending == if w.hub.futures[f].ending.Unfinished? then Cancelled else w.hub.futures[f].ending
  {
  }

  // ---- no entry outlives its call

  predicate Awaits(w: World, t: nat, s: nat, commandId: string) {
    t < |w.tasks| && IsOpen(w.tasks[t]) && w.tasks[t].session == s && w.tasks[t].commandId == commandId
  }

  /** Every pending entry is that of a call that is under way. */
  ghost predicate EntriesAwaited(w: World) {
    forall s: nat, c | s < |w.hub.pending| && c in w.hub.pending[s] :: exists t :: Awaits(w, t, s, c)
  }

  lemma {:induction false} StepKeepsAwaited(w: World, step: Step)
    requires Inv(w) && EntriesAwaited(w) && May(w, step)
    ensures EntriesAwaited(After(w, step))
  {
    var w' := After(w, step);
    forall s: nat, c | s < |w'.hub.pending| && c in w'.hub.pending[s] ensures exists t :: Awaits(w', t, s, c) {
      if s < |w.hub.pending| && c in w.hub.pending[s] {
        var t :| Awaits(w, t, s, c);
        StaysAwaited(w, step, t, s, c);
      } else {
        NewIsAwaited(w, step, s, c);
      }
    }
  }

  lemma {:induction false} StaysAwaited(w: World, step: Step, t: nat, s: nat, c: string)
    requires Inv(w) && May(w, step) && Awaits(w, t, s, c)
    requires s < |After(w, step).hub.pending| && c in After(w, step).hub.pending[s]
    ensures Awaits(After(w, step), t, s, c)
  {
    assert OwnsEntry(w, t);
    hide Inv, FailAll;
  }

  lemma {:induction false} NewIsAwaited(w: World, step: Step, s: nat, c: string)
    requires May(w, step) && s < |After(w, step).hub.pending| && c in After(w, step).hub.pending[s]
    requires !(s < |w.hub.pending| && c in w.hub.pending[s])
    ensures Awaits(After(w, step), |w.tasks|, s, c)
  {
    hide FailAll;
  }

  lemma {:induction false} RunKeepsAwaited(w: World, steps: seq<Step>, w': World)
    requires Inv(w) && EntriesAwaited(w) && Runs(w, steps, w')
    ensures Inv(w') && EntriesAwaited(w')
    decreases |steps|
  {
    if steps != [] {
      StepKeepsInv(w, steps[0]);
      StepKeepsAwaited(w, steps[0]);
      RunKeepsAwaited(After(w, steps[0]), steps[1..], w');
    }
  }

  /** Over every run, a session has an entry for a command exactly while a call for it is under way there. */
  lemma {:induction false} PendingExactlyWhen(steps: seq<Step>, w: World, s: nat, commandId: string)
    requires Runs(Start(), steps, w) && s < |w.hub.pending|
    ensures commandId in w.hub.pending[s] <==> exists t :: Awaits(w, t, s, commandId)
  {
    RunKeepsAwaited(Start(), steps, w);
    if t :| Awaits(w, t, s, commandId) {
      assert OwnsEntry(w, t);
    }
  }
}
