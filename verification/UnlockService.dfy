/**
 `UnlockService.unlock`: the order of its checks and the audit trail it leaves,
 and the budget that `check_unlock` takes from that trail.

 Every attempt logs its request before it counts, so concurrent attempts always
 see each other (`UnlockBudget`). But the count takes in every `door.unlock%` row,
 and a successful unlock writes three, so the limit is not a number of unlocks
 (`SerialUnlocks`).
 */
module UnlockService {
  import opened Text
  import opened SlidingWindow

  // ---- one attempt

  datatype Door = Door(isActive: bool, hasController: bool, controllerBlocked: bool)

  datatype SendResult = Acknowledged(result: string, detail: string) | Offline | TimedOut

  /** What the attempt learns on its way; `attempts` is the count that `check_unlock` reads. */
  datatype Answers = Answers(
    door: Option<Door>, permission: Option<bool>, proximityAccepted: bool, attempts: nat, limit: nat,
    isOnline: bool, isSigned: bool, send: SendResult)

  datatype Event = Requested | Denied(reason: string) | LimitTripped(attempts: nat) | Granted | Confirmed | FailedWith(reason: string)

  datatype Outcome = Opened | Refused | NotPresent | RateLimited | ControllerOffline | Failed

  /** Everything that must hold before a command is sent. */
  predicate MaySend(a: Answers) {
    && a.door.Some? && a.door.value.isActive && a.door.value.hasController && !a.door.value.controllerBlocked
    && a.permission == Some(true) && a.proximityAccepted && a.attempts < a.limit && a.isOnline && a.isSigned
  }

  /** What the caller is told for each refusal, in the order of the checks. */
  const REFUSALS: seq<Outcome> := [Refused, Refused, Refused, Refused, NotPresent, RateLimited, ControllerOffline, Failed]

  /** What the log is told; the sixth is an event of its own. */
  const REASONS: seq<string> := [
    "door_unavailable", "no_permission", "outside_time_window", "controller_blocked", "proximity_not_proven", "",
    "controller_offline", "signer_unavailable"
  ]

  const LIMIT_CHECK := 5

  /** What each refusal says of the answers, in that order. */
  function Faults(a: Answers): (faults: seq<bool>)
    ensures |faults| == 8
  {
    [ !(a.door.Some? && a.door.value.isActive && a.door.value.hasController),
      a.permission == None,
      a.permission == Some(false),
      a.door.Some? && a.door.value.controllerBlocked,
      !a.proximityAccepted,
      a.limit <= a.attempts,
      !a.isOnline,
      !a.isSigned ]
  }

  function Denial(a: Answers, k: nat): Event
    requires k < 8
  {
    if k == LIMIT_CHECK then LimitTripped(a.attempts) else Denied(REASONS[k])
  }

  /** How an attempt ends whose command was sent. */
  function Closing(send: SendResult): Event {
    match send
    case Offline => FailedWith("controller_disconnected")
    case TimedOut => FailedWith("no_acknowledgement")
    case Acknowledged(result, detail) => if result == "opened" then Confirmed else FailedWith("controller_refused:" + detail)
  }

  /** The audit trail of an attempt: the first check that fails decides. */
  function Trail(a: Answers): seq<Event> {
    var k := FirstTrue(Faults(a));
    [Requested] + if k < 8 then [Denial(a, k)] else [Granted, Closing(a.send)]
  }

  /** `unlock` */
  method Unlock(a: Answers) returns (outcome: Outcome, trail: seq<Event>, sent: bool)
    ensures sent <==> MaySend(a)
    ensures sent <==> FirstTrue(Faults(a)) == 8
    ensures outcome == Opened <==> sent && a.send.Acknowledged? && a.send.result == "opened"
    ensures outcome == if sent then (if outcome == Opened then Opened else Failed) else REFUSALS[FirstTrue(Faults(a))]
    ensures trail == Trail(a)
    ensures !sent ==> trail == [Requested, if outcome == RateLimited then LimitTripped(a.attempts) else Denied(REASONS[FirstTrue(Faults(a))])]
    ensures sent ==> |trail| == 3 && trail[..2] == [Requested, Granted] && (trail[2] == Confirmed <==> outcome == Opened)
    ensures sent && outcome != Opened ==> trail[2] == FailedWith(
      match a.send
      case Offline => "controller_disconnected"
      case TimedOut => "no_acknowledgement"
      case Acknowledged(_, detail) => "controller_refused:" + detail)
  {
    FirstOfEight(Faults(a));
    sent, trail := false, [Requested];
    if a.door.None? || !a.door.value.isActive || !a.door.value.hasController {
      return Refused, trail + [Denied("door_unavailable")], false;
    }
    if a.permission.None? {
      return Refused, trail + [Denied("no_permission")], false;
    }
    if !a.permission.value {
      return Refused, trail + [Denied("outside_time_window")], false;
    }
    if a.door.value.controllerBlocked {
      return Refused, trail + [Denied("controller_blocked")], false;
    }
    if !a.proximityAccepted {
      return NotPresent, trail + [Denied("proximity_not_proven")], false;
    }
    if a.attempts >= a.limit {
      return RateLimited, trail + [LimitTripped(a.attempts)], false;
    }
    if !a.isOnline {
      return ControllerOffline, trail + [Denied("controller_offline")], false;
    }
    if !a.isSigned {
      return Failed, trail + [Denied("signer_unavailable")], false;
    }
    trail, sent := trail + [Granted], true;
    match a.send
    case Offline => return Failed, trail + [FailedWith("controller_disconnected")], true;
    case TimedOut => return Failed, trail + [FailedWith("no_acknowledgement")], true;
    case Acknowledged(result, detail) =>
      if result != "opened" {
        return Failed, trail + [FailedWith("controller_refused:" + detail)], true;
      }
      return Opened, trail + [Confirmed], true;
  }

  // ---- attempts of any number of users, interleaved at their statements

  /** The rows of an attempt in the log, and what its check saw. */
  datatype Attempt = Attempt(
    user: nat, request: nat, passed: bool, checkedAt: int, seen: nat, grant: Option<nat>, close: Option<nat>, phase: Phase)

  datatype Phase = Asking | Passed | Sending | Over

  datatype State = State(rows: seq<Row<nat>>, attempts: seq<Attempt>)

  datatype Step =
    | Ask(user: nat, at: int)
    | Check(i: nat, now: int)
    | Deny(i: nat, at: int)
    | Grant(i: nat, at: int)
    | Close(i: nat, at: int)

  const WINDOW := 60

  predicate May(s: State, step: Step) {
    match step
    case Ask(_, _) => true
    case Check(i, _) => i < |s.attempts| && s.attempts[i].phase.Asking?
    case Deny(i, _) => i < |s.attempts| && (s.attempts[i].phase.Asking? || s.attempts[i].phase.Passed?)
    case Grant(i, at) => i < |s.attempts| && s.attempts[i].phase.Passed? && IsAfterRequest(s, i, at)
    case Close(i, at) => i < |s.attempts| && s.attempts[i].phase.Sending? && IsAfterRequest(s, i, at)
  }

  predicate IsAfterRequest(s: State, i: nat, at: int)
    requires i < |s.attempts|
  {
    s.attempts[i].request < |s.rows| && s.rows[s.attempts[i].request].at <= at
  }

  function After(s: State, step: Step, limit: nat): State
    requires May(s, step)
  {
    match step
    case Ask(user, at) =>
      State(s.rows + [Row(user, at)], s.attempts + [Attempt(user, |s.rows|, false, 0, 0, None, None, Asking)])
    case Check(i, now) =>
      var a := s.attempts[i];
      if Count(s.rows, |s.rows|, a.user, now - WINDOW) < limit
      then s.(attempts := s.attempts[i := a.(passed := true, checkedAt := now, seen := |s.rows|, phase := Passed)])
      else s.(attempts := s.attempts[i := a.(phase := Over)])
    case Deny(i, at) =>
      State(s.rows + [Row(s.attempts[i].user, at)], s.attempts[i := s.attempts[i].(phase := Over)])
    case Grant(i, at) =>
      State(s.rows + [Row(s.attempts[i].user, at)], s.attempts[i := s.attempts[i].(grant := Some(|s.rows|), phase := Sending)])
    case Close(i, at) =>
      State(s.rows + [Row(s.attempts[i].user, at)], s.attempts[i := s.attempts[i].(close := Some(|s.rows|), phase := Over)])
  }

  ghost predicate Runs(s: State, steps: seq<Step>, s': State, limit: nat)
    decreases |steps|
  {
    if steps == [] then s == s'
    else May(s, steps[0]) && Runs(After(s, steps[0], limit), steps[1..], s', limit)
  }

  /** The row is in the log, is the attempt's own, and is not before its request. */
  predicate IsOwnRow(s: State, a: Attempt, r: nat) {
    a.request <= r < |s.rows| && s.rows[r].subject == a.user && s.rows[a.request].at <= s.rows[r].at
  }

  predicate AttemptOk(s: State, i: nat, limit: nat)
    requires i < |s.attempts|
  {
    IsSound(s, s.attempts[i], limit)
  }

  predicate IsSound(s: State, a: Attempt, limit: nat) {
    && IsOwnRow(s, a, a.request)
    && (a.passed ==> a.request < a.seen <= |s.rows| && Count(s.rows, a.seen, a.user, a.checkedAt - WINDOW) < limit)
    && (a.phase.Passed? || a.phase.Sending? ==> a.passed)
    && (a.grant.Some? ==> IsOwnRow(s, a, a.grant.value) && a.request < a.grant.value)
    && (a.close.Some? ==> a.grant.Some? && IsOwnRow(s, a, a.close.value) && a.grant.value < a.close.value)
    && (a.phase.Sending? ==> a.grant.Some?)
    && (a.grant.Some? ==> a.phase.Sending? || a.phase.Over?)
    && (a.close.Some? ==> a.phase.Over?)
  }

  ghost predicate Inv(s: State, limit: nat) {
    && (forall i: nat | i < |s.attempts| :: AttemptOk(s, i, limit))
    && (forall i, j | 0 <= i < j < |s.attempts| :: s.attempts[i].request < s.attempts[j].request)
  }

  lemma {:induction false} StepKeepsInv(s: State, step: Step, limit: nat)
    requires Inv(s, limit) && May(s, step)
    ensures Inv(After(s, step, limit), limit)
  {
    var s' := After(s, step, limit);
    assert forall r | 0 <= r < |s.rows| :: s'.rows[r] == s.rows[r];
    forall i: nat | i < |s'.attempts| ensures AttemptOk(s', i, limit) {
      if i < |s.attempts| {
        AttemptSurvives(s, step, limit, i);
      }
    }
    forall i, j | 0 <= i < j < |s'.attempts| ensures s'.attempts[i].request < s'.attempts[j].request {
      assert AttemptOk(s, i, limit);
    }
  }

  lemma {:induction false} AttemptSurvives(s: State, step: Step, limit: nat, i: nat)
    requires Inv(s, limit) && May(s, step) && i < |s.attempts|
    ensures AttemptOk(After(s, step, limit), i, limit)
  {
    var s' := After(s, step, limit);
    assert AttemptOk(s, i, limit);
    assert s.rows <= s'.rows;
    SoundSurvives(s, s', s.attempts[i], limit);
  }

  /** An attempt stays sound when rows are added. */
  lemma {:induction false} SoundSurvives(s: State, s': State, a: Attempt, limit: nat)
    requires IsSound(s, a, limit) && s.rows <= s'.rows
    ensures IsSound(s', a, limit)
  {
    assert s'.rows == s.rows + s'.rows[|s.rows|..];
    if a.passed {
      CountStable(s.rows, s'.rows[|s.rows|..], a.seen, a.user, a.checkedAt - WINDOW);
    }
  }

  lemma {:induction false} RunKeepsInv(s: State, steps: seq<Step>, s': State, limit: nat)
    requires Inv(s, limit) && Runs(s, steps, s', limit)
    ensures Inv(s', limit)
    decreases |steps|
  {
    if steps != [] {
      StepKeepsInv(s, steps[0], limit);
      RunKeepsInv(After(s, steps[0], limit), steps[1..], s', limit);
    }
  }

  // ---- the budget

  /** Attempts of one user let through, whose requests and checks all lie in the minute after `from`. */
  ghost predicate InMinute(s: State, user: nat, from: int, attempts: set<nat>) {
    forall i | i in attempts ::
      && i < |s.attempts| && s.attempts[i].user == user && s.attempts[i].passed
      && s.attempts[i].request < |s.rows| && s.rows[s.attempts[i].request].at > from && s.attempts[i].checkedAt <= from + WINDOW
  }

  /** The attempt of the set whose check saw the most rows. */
  lemma {:induction false} LastChecked(s: State, attempts: set<nat>) returns (m: nat)
    requires attempts != {} && forall i | i in attempts :: i < |s.attempts|
    ensures m in attempts && forall i | i in attempts :: s.attempts[i].seen <= s.attempts[m].seen
    decreases |attempts|
  {
    m :| m in attempts;
    if attempts != {m} {
      var k := LastChecked(s, attempts - {m});
      if s.attempts[k].seen > s.attempts[m].seen { m := k; }
    }
  }

  function Requests(s: State, attempts: set<nat>): set<nat>
    requires forall i | i in attempts :: i < |s.attempts|
  {
    set i | i in attempts :: s.attempts[i].request
  }

  lemma {:induction false} RequestsSize(s: State, attempts: set<nat>, limit: nat)
    requires Inv(s, limit) && forall i | i in attempts :: i < |s.attempts|
    ensures |Requests(s, attempts)| == |attempts|
    decreases |attempts|
  {
    if attempts != {} {
      var i :| i in attempts;
      RequestsSize(s, attempts - {i}, limit);
      forall j | j in attempts - {i} ensures s.attempts[j].request != s.attempts[i].request {
        assert j < i || i < j;
      }
      assert Requests(s, attempts) == Requests(s, attempts - {i}) + {s.attempts[i].request};
    }
  }

  /** However attempts interleave, fewer than `limit` of them are let through in any minute. */
  lemma {:induction false} UnlockBudget(steps: seq<Step>, s: State, limit: nat, user: nat, from: int, attempts: set<nat>)
    requires Runs(State([], []), steps, s, limit) && InMinute(s, user, from, attempts)
    ensures |attempts| == 0 || |attempts| < limit
  {
    RunKeepsInv(State([], []), steps, s, limit);
    if attempts != {} {
      var m := LastChecked(s, attempts);
      assert AttemptOk(s, m, limit);
      RequestsSize(s, attempts, limit);
      forall i | i in attempts ensures s.attempts[i].request < s.attempts[m].seen && s.rows[s.attempts[i].request].subject == user {
        assert AttemptOk(s, i, limit);
      }
      SubsetSize(Requests(s, attempts), Counted(s.rows, s.attempts[m].seen, user, s.attempts[m].checkedAt - WINDOW));
    }
  }

  /** The attempts were made one after the other, and all but the last ran to the end. */
  ghost predicate OneAfterAnother(s: State, attempts: set<nat>) {
    forall i, j | i in attempts && j in attempts && i < j ::
      i < |s.attempts| && j < |s.attempts| && s.attempts[i].close.Some? && s.attempts[i].close.value < s.attempts[j].request
  }

  lemma {:induction false} Greatest(attempts: set<nat>) returns (m: nat)
    requires attempts != {}
    ensures m in attempts && forall i | i in attempts :: i <= m
    decreases |attempts|
  {
    m :| m in attempts;
    if attempts != {m} {
      var k := Greatest(attempts - {m});
      assert forall i | i in attempts :: i == m || i in attempts - {m};
      if k > m { m := k; }
    }
  }

  /** The rows of completed attempts: three each. */
  lemma {:induction false} ThreeRowsEach(s: State, limit: nat, user: nat, from: int, attempts: set<nat>, before: nat) returns (rows: set<nat>)
    requires Inv(s, limit) && InMinute(s, user, from, attempts) && OneAfterAnother(s, attempts)
    requires forall i | i in attempts :: s.attempts[i].close.Some? && s.attempts[i].close.value < before
    ensures |rows| == 3 * |attempts|
    ensures forall r | r in rows :: r < before && r < |s.rows| && s.rows[r].subject == user && s.rows[r].at > from
    decreases |attempts|
  {
    if attempts == {} {
      rows := {};
    } else {
      var m := Greatest(attempts);
      var a := s.attempts[m];
      assert AttemptOk(s, m, limit);
      var rest := ThreeRowsEach(s, limit, user, from, attempts - {m}, a.request);
      rows := rest + {a.request, a.grant.value, a.close.value};
      ThreeMore(rest, a.request, a.grant.value, a.close.value);
    }
  }

  lemma {:induction false} ThreeMore(rest: set<nat>, x: nat, y: nat, z: nat)
    requires x < y < z && forall r | r in rest :: r < x
    ensures |rest + {x, y, z}| == |rest| + 3
  {
    assert rest + {x, y, z} == rest + {x} + {y} + {z};
  }

  /** One after another, only a third as many get through: the count sees three rows for each that went before. */
  lemma {:induction false} SerialUnlocks(steps: seq<Step>, s: State, limit: nat, user: nat, from: int, attempts: set<nat>)
    requires Runs(State([], []), steps, s, limit)
    requires InMinute(s, user, from, attempts) && OneAfterAnother(s, attempts)
    ensures |attempts| <= (limit + 1) / 3
  {
    RunKeepsInv(State([], []), steps, s, limit);
    if attempts != {} {
      var m := Greatest(attempts);
      var a := s.attempts[m];
      assert AttemptOk(s, m, limit);
      var rows := ThreeRowsEach(s, limit, user, from, attempts - {m}, a.request);
      OneMoreRow(s, a, user, from, rows, limit);
    }
  }

  lemma {:induction false} OneMoreRow(s: State, a: Attempt, user: nat, from: int, rows: set<nat>, limit: nat)
    requires IsSound(s, a, limit) && a.passed && a.user == user && s.rows[a.request].at > from && a.checkedAt <= from + WINDOW
    requires forall r | r in rows :: r < a.request && r < |s.rows| && s.rows[r].subject == user && s.rows[r].at > from
    ensures |rows| + 1 < limit
  {
    assert |rows + {a.request}| == |rows| + 1;
    SubsetSize(rows + {a.request}, Counted(s.rows, a.seen, user, a.checkedAt - WINDOW));
  }

  // ---- both bounds are reached

  lemma {:induction false} RunOneMore(s: State, steps: seq<Step>, mid: State, step: Step, limit: nat)
    requires Runs(s, steps, mid, limit) && May(mid, step)
    ensures Runs(s, steps + [step], After(mid, step, limit), limit)
    decreases |steps|
  {
    if steps == [] {
      assert steps + [step] == [step] && [step][1..] == [];
    } else {
      RunOneMore(After(s, steps[0], limit), steps[1..], mid, step, limit);
      assert (steps + [step])[1..] == steps[1..] + [step];
    }
  }

  predicate AllOf(rows: seq<Row<nat>>, user: nat) {
    forall r | 0 <= r < |rows| :: rows[r] == Row(user, 0)
  }

  lemma {:induction false} CountIsAtMost(rows: seq<Row<nat>>, user: nat, since: int)
    ensures Count(rows, |rows|, user, since) <= |rows|
  {
    SubsetSize(Counted(rows, |rows|, user, since), Range(0, |rows|));
  }

  /** The state of an attempt that has logged its request in row `r` and, if `passed`, been let through at time 0. */
  predicate HasAsked(a: Attempt, user: nat, r: nat, passed: bool) {
    a.user == user && a.request == r && a.passed == passed && a.checkedAt == 0
    && a.phase == if passed then Passed else Asking
  }

  /** `n` attempts have asked, and the first `m` of them have been let through. */
  ghost predicate Crowd(s: State, user: nat, n: nat, m: nat) {
    && |s.rows| == n && |s.attempts| == n && m <= n && AllOf(s.rows, user)
    && forall i: nat | i < n :: HasAsked(s.attempts[i], user, i, i < m)
  }

  lemma {:induction false} CrowdAsks(user: nat, n: nat, limit: nat) returns (steps: seq<Step>, s: State)
    ensures Runs(State([], []), steps, s, limit) && Crowd(s, user, n, 0)
  {
    if n == 0 {
      steps, s := [], State([], []);
    } else {
      var before, mid := CrowdAsks(user, n - 1, limit);
      RunOneMore(State([], []), before, mid, Ask(user, 0), limit);
      steps, s := before + [Ask(user, 0)], After(mid, Ask(user, 0), limit);
    }
  }

  lemma {:induction false} CrowdPasses(user: nat, n: nat, m: nat, limit: nat) returns (steps: seq<Step>, s: State)
    requires m <= n < limit
    ensures Runs(State([], []), steps, s, limit) && Crowd(s, user, n, m)
    decreases m
  {
    if m == 0 {
      steps, s := CrowdAsks(user, n, limit);
    } else {
      var before, mid := CrowdPasses(user, n, m - 1, limit);
      assert HasAsked(mid.attempts[m - 1], user, m - 1, false);
      CountIsAtMost(mid.rows, user, 0 - WINDOW);
      RunOneMore(State([], []), before, mid, Check(m - 1, 0), limit);
      steps, s := before + [Check(m - 1, 0)], After(mid, Check(m - 1, 0), limit);
    }
  }

  /** For every limit, some run lets `limit - 1` attempts through in one minute. */
  lemma {:induction false} UnlockBudgetIsReached(limit: nat, user: nat) returns (steps: seq<Step>, s: State, attempts: set<nat>)
    requires limit > 0
    ensures Runs(State([], []), steps, s, limit) && InMinute(s, user, -1, attempts)
    ensures |attempts| == limit - 1
  {
    steps, s := CrowdPasses(user, limit - 1, limit - 1, limit);
    attempts := Range(0, limit - 1);
    forall i | i in attempts ensures HasAsked(s.attempts[i], user, i, true) {}
  }

  /** Attempt `i` of a queue: its three rows, one after the other. */
  predicate IsDone(a: Attempt, user: nat, i: nat) {
    a.user == user && a.passed && a.checkedAt == 0 && a.request == 3 * i && a.close == Some(3 * i + 2) && a.phase.Over?
  }

  ghost predicate Queue(s: State, user: nat, n: nat) {
    && |s.rows| == 3 * n && |s.attempts| == n && AllOf(s.rows, user)
    && forall i: nat | i < n :: IsDone(s.attempts[i], user, i)
  }

  /** One attempt from request to confirmation. */
  lemma {:induction false} OneDone(s: State, user: nat, n: nat, limit: nat)
    requires Queue(s, user, n) && 3 * n + 1 < limit
    ensures
      var s1 := After(s, Ask(user, 0), limit);
      May(s1, Check(n, 0)) &&
      var s2 := After(s1, Check(n, 0), limit);
      May(s2, Grant(n, 0)) &&
      var s3 := After(s2, Grant(n, 0), limit);
      May(s3, Close(n, 0)) && Queue(After(s3, Close(n, 0), limit), user, n + 1)
  {
    var s1 := After(s, Ask(user, 0), limit);
    CountIsAtMost(s1.rows, user, 0 - WINDOW);
    var s2 := After(s1, Check(n, 0), limit);
    var s4 := After(After(s2, Grant(n, 0), limit), Close(n, 0), limit);
    forall i: nat | i < n + 1 ensures IsDone(s4.attempts[i], user, i) {
      assert i < n ==> IsDone(s.attempts[i], user, i);
    }
  }

  lemma {:induction false} QueueRuns(user: nat, n: nat, limit: nat) returns (steps: seq<Step>, s: State)
    requires n > 0 ==> 3 * n <= limit + 1
    ensures Runs(State([], []), steps, s, limit) && Queue(s, user, n)
  {
    if n == 0 {
      steps, s := [], State([], []);
    } else {
      var before, s0 := QueueRuns(user, n - 1, limit);
      var i := n - 1;
      OneDone(s0, user, i, limit);
      var s1 := After(s0, Ask(user, 0), limit);
      var s2 := After(s1, Check(i, 0), limit);
      var s3 := After(s2, Grant(i, 0), limit);
      RunOneMore(State([], []), before, s0, Ask(user, 0), limit);
      RunOneMore(State([], []), before + [Ask(user, 0)], s1, Check(i, 0), limit);
      RunOneMore(State([], []), before + [Ask(user, 0)] + [Check(i, 0)], s2, Grant(i, 0), limit);
      RunOneMore(State([], []), before + [Ask(user, 0)] + [Check(i, 0)] + [Grant(i, 0)], s3, Close(i, 0), limit);
      steps := before + [Ask(user, 0)] + [Check(i, 0)] + [Grant(i, 0)] + [Close(i, 0)];
      s := After(s3, Close(i, 0), limit);
    }
  }

  /** For every limit, some run of attempts one after the other lets `(limit + 1) / 3` of them through in one minute. */
  lemma {:induction false} SerialUnlocksIsReached(limit: nat, user: nat) returns (steps: seq<Step>, s: State, attempts: set<nat>)
    ensures Runs(State([], []), steps, s, limit)
    ensures InMinute(s, user, -1, attempts) && OneAfterAnother(s, attempts)
    ensures |attempts| == (limit + 1) / 3
  {
    var n := (limit + 1) / 3;
    steps, s := QueueRuns(user, n, limit);
    attempts := Range(0, n);
    forall i | i in attempts ensures IsDone(s.attempts[i], user, i) {}
  }

  // ---- an attempt of the machine is a call of `unlock`

  /** The event types of the audit log. */
  function EventType(e: Event): string {
    match e
    case Requested => "door.unlock_requested"
    case Denied(_) => "door.unlock_denied"
    case LimitTripped(_) => "rate.limit_tripped"
    case Granted => "door.unlock_granted"
    case Confirmed => "door.unlock_confirmed"
    case FailedWith(_) => "door.unlock_failed"
  }

  /** `event_type LIKE 'door.unlock%'` */
  predicate IsCounted(e: Event) { "door.unlock" <= EventType(e) }

  function CountedIn(trail: seq<Event>): nat {
    if trail == [] then 0 else (if IsCounted(trail[0]) then 1 else 0) + CountedIn(trail[1..])
  }

  lemma {:induction false} WhatIsCounted(e: Event)
    ensures IsCounted(e) <==> !e.LimitTripped?
  {
    assert EventType(LimitTripped(0))[0] == 'r';
    assert "door.unlock"[0] == 'd';
  }

  lemma {:induction false} CountTwo(a: Event, b: Event)
    ensures CountedIn([a, b]) == (if IsCounted(a) then 1 else 0) + if IsCounted(b) then 1 else 0
  {
    assert [a, b][1..] == [b] && [b][1..] == [];
    assert CountedIn([b]) == if IsCounted(b) then 1 else 0;
  }

  lemma {:induction false} CountThree(a: Event, b: Event, c: Event)
    ensures CountedIn([a, b, c]) == (if IsCounted(a) then 1 else 0) + CountedIn([b, c])
  {
    assert [a, b, c][1..] == [b, c];
  }

  lemma {:induction false} TrailCounts(a: Answers)
    ensures CountedIn(Trail(a)) == var k := FirstTrue(Faults(a)); if k == LIMIT_CHECK then 1 else if k < 8 then 2 else 3
  {
    var k := FirstTrue(Faults(a));
    WhatIsCounted(Requested);
    if k < 8 {
      assert Trail(a) == [Requested, Denial(a, k)];
      WhatIsCounted(Denial(a, k));
      CountTwo(Requested, Denial(a, k));
    } else {
      assert Trail(a) == [Requested, Granted, Closing(a.send)];
      WhatIsCounted(Granted);
      WhatIsCounted(Closing(a.send));
      CountTwo(Granted, Closing(a.send));
      CountThree(Requested, Granted, Closing(a.send));
    }
  }

  /** The statements of one attempt, by the first check that fails. */
  function StepsOf(k: nat, i: nat, user: nat, now: int): seq<Step> {
    if k < LIMIT_CHECK then [Ask(user, now), Deny(i, now)]
    else if k == LIMIT_CHECK then [Ask(user, now), Check(i, now)]
    else if k < 8 then [Ask(user, now), Check(i, now), Deny(i, now)]
    else [Ask(user, now), Check(i, now), Grant(i, now), Close(i, now)]
  }

  /**
   An attempt that nothing interrupts, counting its own request with the rows before
   it, adds to the log as many rows as its audit trail has counted events, and passes
   the check exactly when it is neither refused before it nor by it.
   */
  lemma {:induction false} AttemptAlone(s: State, a: Answers, user: nat, now: int) returns (s': State)
    requires a.attempts == Count(s.rows + [Row(user, now)], |s.rows| + 1, user, now - WINDOW)
    ensures Runs(s, StepsOf(FirstTrue(Faults(a)), |s.attempts|, user, now), s', a.limit)
    ensures s'.rows == s.rows + seq(CountedIn(Trail(a)), _ => Row(user, now))
    ensures |s'.attempts| == |s.attempts| + 1 && s'.attempts[..|s.attempts|] == s.attempts
    ensures s'.attempts[|s.attempts|].phase.Over?
    ensures s'.attempts[|s.attempts|].passed <==> FirstTrue(Faults(a)) > LIMIT_CHECK
  {
    var k := FirstTrue(Faults(a));
    TrailCounts(a);
    assert Faults(a)[LIMIT_CHECK] <==> a.limit <= a.attempts;
    hide FirstTrue, Faults, Trail, CountedIn, Runs, StepsOf;
    if k < LIMIT_CHECK {
      s' := AloneBeforeCheck(s, k, a.limit, user, now);
    } else {
      s' := AloneWithCheck(s, k, a.limit, user, now);
    }
  }

  lemma {:induction false} AloneBeforeCheck(s: State, k: nat, limit: nat, user: nat, now: int) returns (s': State)
    requires k < LIMIT_CHECK
    ensures Runs(s, StepsOf(k, |s.attempts|, user, now), s', limit)
    ensures s'.rows == s.rows + seq(2, _ => Row(user, now))
    ensures |s'.attempts| == |s.attempts| + 1 && s'.attempts[..|s.attempts|] == s.attempts
    ensures s'.attempts[|s.attempts|].phase.Over? && !s'.attempts[|s.attempts|].passed
  {
    var n := |s.attempts|;
    var asked := After(s, Ask(user, now), limit);
    s' := After(asked, Deny(n, now), limit);
    RunsThen(asked, Deny(n, now), [], s', limit);
    RunsThen(s, Ask(user, now), [Deny(n, now)] + [], s', limit);
    assert [Ask(user, now)] + ([Deny(n, now)] + []) == StepsOf(k, n, user, now);
  }

  lemma {:induction false} AloneWithCheck(s: State, k: nat, limit: nat, user: nat, now: int) returns (s': State)
    requires k >= LIMIT_CHECK
    requires k == LIMIT_CHECK <==> limit <= Count(s.rows + [Row(user, now)], |s.rows| + 1, user, now - WINDOW)
    ensures Runs(s, StepsOf(k, |s.attempts|, user, now), s', limit)
    ensures s'.rows == s.rows + seq(if k == LIMIT_CHECK then 1 else if k < 8 then 2 else 3, _ => Row(user, now))
    ensures |s'.attempts| == |s.attempts| + 1 && s'.attempts[..|s.attempts|] == s.attempts
    ensures s'.attempts[|s.attempts|].phase.Over? && (s'.attempts[|s.attempts|].passed <==> k > LIMIT_CHECK)
  {
    hide Count, Runs;
    var n := |s.attempts|;
    var asked := After(s, Ask(user, now), limit);
    var checked := After(asked, Check(n, now), limit);
    var tail;
    tail, s' := AfterCheck(checked, k, n, user, now, limit);
    RunsThen(asked, Check(n, now), tail, s', limit);
    RunsThen(s, Ask(user, now), [Check(n, now)] + tail, s', limit);
    assert [Ask(user, now)] + ([Check(n, now)] + tail) == StepsOf(k, n, user, now);
  }

  /** What an attempt does after the check, which it passed unless the check is what refused it. */
  lemma {:induction false} AfterCheck(s: State, k: nat, i: nat, user: nat, now: int, limit: nat) returns (steps: seq<Step>, s': State)
    requires k >= LIMIT_CHECK && i == |s.attempts| - 1 && s.attempts[i].user == user
    requires s.attempts[i].phase == if k == LIMIT_CHECK then Over else Passed
    requires s.attempts[i].request < |s.rows| && s.rows[s.attempts[i].request].at == now
    ensures Runs(s, steps, s', limit)
    ensures steps == if k == LIMIT_CHECK then [] else if k < 8 then [Deny(i, now)] else [Grant(i, now), Close(i, now)]
    ensures s'.rows == s.rows + seq(if k == LIMIT_CHECK then 0 else if k < 8 then 1 else 2, _ => Row(user, now))
    ensures |s'.attempts| == |s.attempts| && s'.attempts[..i] == s.attempts[..i] && s'.attempts[i].phase.Over?
    ensures s'.attempts[i].passed == s.attempts[i].passed
  {
    if k == LIMIT_CHECK {
      steps, s' := [], s;
    } else if k < 8 {
      s' := After(s, Deny(i, now), limit);
      RunsThen(s, Deny(i, now), [], s', limit);
      steps := [Deny(i, now)] + [];
    } else {
      var granted := After(s, Grant(i, now), limit);
      s' := After(granted, Close(i, now), limit);
      RunsThen(granted, Close(i, now), [], s', limit);
      RunsThen(s, Grant(i, now), [Close(i, now)] + [], s', limit);
      steps := [Grant(i, now)] + ([Close(i, now)] + []);
    }
  }

  lemma {:induction false} RunsThen(s: State, step: Step, steps: seq<Step>, s': State, limit: nat)
    requires May(s, step) && Runs(After(s, step, limit), steps, s', limit)
    ensures Runs(s, [step] + steps, s', limit)
  {
    assert ([step] + steps)[1..] == steps;
  }
}
