/**
 Sliding-window budgets: `RateLimiter` over the rows of `acs.failed_attempts`,
 and how far concurrent logins can overrun the limit.

 A login counts a subject's failures before it is tried and records one after it
 has failed, so logins that are in flight together do not see each other's
 failures. `LoginBudget` bounds the overrun.
 */
module RateLimit {
  import opened Text
  import opened SlidingWindow

  /** `subject_type` and `subject`; user names are lower case already. */
  datatype Subject = OfUser(name: string) | OfDevice(id: string) | OfIp(address: string)

  // ---- RateLimiter

  datatype Settings = Settings(window: nat, maxFailures: nat, maxUnlocks: nat, baseDelay: nat, maxDelay: nat)

  datatype Decision = Decision(allowed: bool, delay: nat, retryAfter: nat, failures: nat, byUser: bool)

  function Pow2(n: nat): (p: nat)
    ensures p > 0
  {
    if n == 0 then 1 else 2 * Pow2(n - 1)
  }

  function Min(a: nat, b: nat): (m: nat)
    ensures m <= a && m <= b && (m == a || m == b)
  {
    if a < b then a else b
  }

  /** `_progressive_delay_ms` */
  function ProgressiveDelay(s: Settings, failures: int): nat {
    if failures <= 0 then 0 else Min(s.baseDelay * Pow2(failures - 1), s.maxDelay)
  }

  /** The delay starts at the base, doubles with every failure, and stops at the maximum. */
  lemma {:induction false} DelayDoubles(s: Settings, failures: nat)
    ensures forall n: int | n <= 0 :: ProgressiveDelay(s, n) == 0
    ensures ProgressiveDelay(s, 1) == Min(s.baseDelay, s.maxDelay)
    ensures failures > 0 ==> ProgressiveDelay(s, failures + 1) == Min(2 * ProgressiveDelay(s, failures), s.maxDelay)
    ensures ProgressiveDelay(s, failures) <= ProgressiveDelay(s, failures + 1) <= s.maxDelay
  {
    if failures > 0 {
      var delay := s.baseDelay * Pow2(failures - 1);
      Doubled(s.baseDelay, failures);
      hide Pow2;
      MinDoubles(delay, s.maxDelay);
    }
  }

  lemma {:induction false} Doubled(base: nat, n: nat)
    requires n > 0
    ensures base * Pow2(n) == 2 * (base * Pow2(n - 1)) && base * Pow2(n - 1) >= 0
  {
    var p := Pow2(n - 1);
    assert Pow2(n) == 2 * p;
    hide Pow2;
    assert base * (2 * p) == 2 * (base * p);
  }

  lemma {:induction false} MinDoubles(x: nat, m: nat)
    ensures Min(2 * x, m) == Min(2 * Min(x, m), m) && Min(x, m) <= Min(2 * x, m) <= m
  {
  }

  /** A subject is under the limit at a moment. */
  predicate IsUnder(rows: seq<Row<Subject>>, subject: Subject, now: int, s: Settings) {
    Count(rows, |rows|, subject, now - s.window) < s.maxFailures
  }

  /** A subject is refused exactly when `maxFailures` of its failures lie less than a window back. */
  lemma {:induction false} RefusedExactlyWhen(rows: seq<Row<Subject>>, subject: Subject, now: int, s: Settings)
    ensures !IsUnder(rows, subject, now, s) <==>
      exists some: set<nat> :: AreRecent(rows, |rows|, subject, now - s.window, some) && |some| == s.maxFailures
  {
    LimitReached(rows, |rows|, subject, now - s.window, s.maxFailures);
  }

  /** `if client_ip`: neither absent nor empty. */
  predicate HasAddress(ip: Option<string>): (has: bool)
    ensures has <==> ip !in {None, Some("")}
  {
    ip.Some? && ip.value != ""
  }

  /** The entries of a bucket that are still in the window. */
  function Kept(bucket: seq<int>, now: int, window: nat): (r: seq<int>)
    ensures forall t :: multiset(r)[t] == if now - t < window then multiset(bucket)[t] else 0
  {
    if bucket == [] then []
    else
      var n := |bucket| - 1;
      assert bucket == bucket[..n] + [bucket[n]];
      Kept(bucket[..n], now, window) + if now - bucket[n] < window then [bucket[n]] else []
  }

  /** How many entries at `t` a subject's bucket has, if `t` is still in the window. */
  function EntriesInWindow(recent: map<Subject, seq<int>>, subject: Subject, now: int, window: nat, t: int): nat {
    if subject in recent && now - t < window then multiset(recent[subject])[t] else 0
  }

  /** One more entry in a subject's bucket, and the expired ones dropped. */
  function Remembered(recent: map<Subject, seq<int>>, subject: Subject, now: int, window: nat)
    : (r: map<Subject, seq<int>>)
    ensures r.Keys == recent.Keys + {subject} && forall other | other in recent && other != subject :: r[other] == recent[other]
    ensures r[subject] != [] && r[subject][|r[subject]| - 1] == now
    ensures forall t ::
      multiset(r[subject])[t] == (if t == now then 1 else 0) + EntriesInWindow(recent, subject, now, window, t)
  {
    recent[subject := Kept(if subject in recent then recent[subject] else [], now, window) + [now]]
  }

  class RateLimiter {
    const settings: Settings
    var failures: seq<Row<Subject>>
    var recent: map<Subject, seq<int>>

    constructor (settings: Settings)
      ensures this.settings == settings && failures == [] && recent == map[]
    {
      this.settings := settings;
      failures, recent := [], map[];
    }

    /** `_remember`: expired entries go, the new one comes last. */
    method Remember(subject: Subject, now: int) returns (n: nat)
      modifies this`recent
      ensures recent == Remembered(old(recent), subject, now, settings.window)
      ensures n == |recent[subject]|
    {
      var bucket: seq<int> := [];
      var before := if subject in recent then recent[subject] else [];
      for i := 0 to |before|
        invariant bucket == Kept(before[..i], now, settings.window)
      {
        assert before[..i + 1][..i] == before[..i];
        if now - before[i] < settings.window {
          bucket := bucket + [before[i]];
        }
      }
      assert before[..|before|] == before;
      bucket := bucket + [now];
      recent := recent[subject := bucket];
      n := |bucket|;
    }

    /** The two rows of a failed login, at the times of their statements. */
    method RecordLoginFailure(user: string, ip: Option<string>, userAt: int, ipAt: int)
      modifies this
      ensures failures == old(failures) + [Row(OfUser(user), userAt)]
        + if HasAddress(ip) then [Row(OfIp(ip.value), ipAt)] else []
      ensures recent ==
        var buckets := Remembered(old(recent), OfUser(user), userAt, settings.window);
        if HasAddress(ip) then Remembered(buckets, OfIp(ip.value), ipAt, settings.window) else buckets
    {
      failures := failures + [Row(OfUser(user), userAt)];
      var _ := Remember(OfUser(user), userAt);
      if HasAddress(ip) {
        failures := failures + [Row(OfIp(ip.value), ipAt)];
        var _ := Remember(OfIp(ip.value), ipAt);
      }
    }

    /** A login is let through exactly when both subjects are under the limit; the buckets in memory play no part. */
    method CheckLogin(user: string, ip: Option<string>, now: int) returns (d: Decision)
      ensures d.allowed <==>
        IsUnder(failures, OfUser(user), now, settings) && (HasAddress(ip) ==> IsUnder(failures, OfIp(ip.value), now, settings))
        && settings.maxFailures > 0
      ensures d.allowed ==> d.retryAfter == 0 && d.delay == ProgressiveDelay(settings, d.failures)
      ensures !d.allowed ==> d.retryAfter == settings.window && d.delay == settings.maxDelay
      ensures d.failures >= Count(failures, |failures|, OfUser(user), now - settings.window)
      ensures d.byUser <==> (HasAddress(ip) ==>
        Count(failures, |failures|, OfIp(ip.value), now - settings.window)
          <= Count(failures, |failures|, OfUser(user), now - settings.window))
      ensures d.byUser ==> d.failures == Count(failures, |failures|, OfUser(user), now - settings.window)
      ensures HasAddress(ip) ==> d.failures >= Count(failures, |failures|, OfIp(ip.value), now - settings.window)
      ensures !d.byUser ==> HasAddress(ip) && d.failures == Count(failures, |failures|, OfIp(ip.value), now - settings.window)
    {
      var byUser := Count(failures, |failures|, OfUser(user), now - settings.window);
      var byIp := if HasAddress(ip) then Count(failures, |failures|, OfIp(ip.value), now - settings.window) else 0;
      var most := if byUser >= byIp then byUser else byIp;
      if most >= settings.maxFailures {
        return Decision(false, settings.maxDelay, settings.window, most, byUser >= byIp);
      }
      return Decision(true, ProgressiveDelay(settings, most), 0, most, byUser >= byIp);
    }
  }

  // ---- logins in flight

  /**
   One subject's part of one login: it was let through at `at`, when the table had
   `seen` rows, and has recorded its failure in row `row`, or is over without one.
   */
  datatype Ticket = Ticket(subject: Subject, at: int, seen: nat, row: Option<nat>, isOver: bool)

  datatype State = State(rows: seq<Row<Subject>>, tickets: seq<Ticket>)

  datatype Step = Check(subject: Subject, now: int) | Record(i: nat, at: int) | Drop(i: nat)

  predicate IsInFlight(t: Ticket) { t.row.None? && !t.isOver }

  predicate May(s: State, step: Step) {
    match step
    case Check(_, _) => true
    case Record(i, at) => i < |s.tickets| && IsInFlight(s.tickets[i]) && at >= s.tickets[i].at
    case Drop(i) => i < |s.tickets| && IsInFlight(s.tickets[i])
  }

  function After(s: State, step: Step, settings: Settings): State
    requires May(s, step)
  {
    match step
    case Check(subject, now) =>
      if IsUnder(s.rows, subject, now, settings)
      then s.(tickets := s.tickets + [Ticket(subject, now, |s.rows|, None, false)]) else s
    case Record(i, at) =>
      State(s.rows + [Row(s.tickets[i].subject, at)], s.tickets[i := s.tickets[i].(row := Some(|s.rows|))])
    case Drop(i) => s.(tickets := s.tickets[i := s.tickets[i].(isOver := true)])
  }

  function InFlight(s: State, subject: Subject): set<nat> {
    set i: nat | i < |s.tickets| && s.tickets[i].subject == subject && IsInFlight(s.tickets[i])
  }

  /** Runs in which `subject` never has more than `k` logins in flight. */
  ghost predicate Runs(s: State, steps: seq<Step>, s': State, settings: Settings, subject: Subject, k: nat)
    decreases |steps|
  {
    if steps == [] then s == s'
    else
      && May(s, steps[0])
      && |InFlight(After(s, steps[0], settings), subject)| <= k
      && Runs(After(s, steps[0], settings), steps[1..], s', settings, subject, k)
  }

  /** The tickets that were in flight when ticket `i` was issued and have failed, or may still fail, since. */
  function Rivals(s: State, i: nat): set<nat>
    requires i < |s.tickets|
  {
    set j: nat | j <= i && s.tickets[j].subject == s.tickets[i].subject &&
      (IsInFlight(s.tickets[j]) || (s.tickets[j].row.Some? && s.tickets[j].row.value >= s.tickets[i].seen))
  }

  predicate TicketOk(s: State, i: nat, settings: Settings)
    requires i < |s.tickets|
  {
    var t := s.tickets[i];
    && t.seen <= |s.rows| && Count(s.rows, t.seen, t.subject, t.at - settings.window) < settings.maxFailures
    && (t.row.Some? ==> t.seen <= t.row.value < |s.rows| && s.rows[t.row.value].subject == t.subject && t.at <= s.rows[t.row.value].at)
  }

  ghost predicate Inv(s: State, settings: Settings, subject: Subject, k: nat) {
    && (forall i: nat | i < |s.tickets| :: TicketOk(s, i, settings) && (s.tickets[i].subject == subject ==> |Rivals(s, i)| <= k))
    && (forall r: nat | r < |s.rows| :: HasTicket(s, r))
  }

  ghost predicate HasTicket(s: State, r: nat) {
    exists i: nat | i < |s.tickets| :: s.tickets[i].row == Some(r)
  }

  lemma {:induction false} StepKeepsInv(s: State, step: Step, settings: Settings, subject: Subject, k: nat)
    requires Inv(s, settings, subject, k) && May(s, step)
    requires |InFlight(After(s, step, settings), subject)| <= k
    ensures Inv(After(s, step, settings), settings, subject, k)
  {
    var s' := After(s, step, settings);
    forall i: nat | i < |s'.tickets|
      ensures TicketOk(s', i, settings) && (s'.tickets[i].subject == subject ==> |Rivals(s', i)| <= k)
    {
      if i < |s.tickets| {
        OldTicket(s, step, settings, i);
        SubsetSize(Rivals(s', i), Rivals(s, i));
      } else {
        NewTicketRivals(s, step, settings, subject, k, i);
      }
    }
    hide TicketOk, Rivals, After;
    forall r: nat | r < |s'.rows| ensures HasTicket(s', r) {
      RowHasTicket(s, step, settings, r);
    }
  }

  lemma {:induction false} OldTicket(s: State, step: Step, settings: Settings, i: nat)
    requires May(s, step) && i < |s.tickets| && TicketOk(s, i, settings)
    ensures var s' := After(s, step, settings);
      i < |s'.tickets| && s'.tickets[i].subject == s.tickets[i].subject && TicketOk(s', i, settings) && Rivals(s', i) <= Rivals(s, i)
  {
    if step.Record? {
      CountStable(s.rows, [Row(s.tickets[step.i].subject, step.at)], s.tickets[i].seen, s.tickets[i].subject, s.tickets[i].at - settings.window);
    }
  }

  lemma {:induction false} RowHasTicket(s: State, step: Step, settings: Settings, r: nat)
    requires May(s, step) && r < |After(s, step, settings).rows|
    requires r < |s.rows| ==> HasTicket(s, r)
    ensures HasTicket(After(s, step, settings), r)
  {
    var s' := After(s, step, settings);
    if r < |s.rows| {
      var i: nat :| i < |s.tickets| && s.tickets[i].row == Some(r);
      assert s'.tickets[i].row == Some(r);
    } else {
      assert s'.tickets[step.i].row == Some(r);
    }
  }

  lemma {:induction false} NewTicketRivals(s: State, step: Step, settings: Settings, subject: Subject, k: nat, i: nat)
    requires Inv(s, settings, subject, k) && May(s, step) && i == |s.tickets| < |After(s, step, settings).tickets|
    requires |InFlight(After(s, step, settings), subject)| <= k
    ensures step.subject == subject ==> |Rivals(After(s, step, settings), i)| <= k
  {
    var s' := After(s, step, settings);
    if step.subject == subject {
      forall j: nat | j in Rivals(s', i) ensures j in InFlight(s', subject) {
        assert j < i ==> TicketOk(s, j, settings);
      }
      SubsetSize(Rivals(s', i), InFlight(s', subject));
    }
  }

  lemma {:induction false} RunKeepsInv(s: State, steps: seq<Step>, s': State, settings: Settings, subject: Subject, k: nat)
    requires Inv(s, settings, subject, k) && Runs(s, steps, s', settings, subject, k)
    ensures Inv(s', settings, subject, k)
    decreases |steps|
  {
    if steps != [] {
      StepKeepsInv(s, steps[0], settings, subject, k);
      RunKeepsInv(After(s, steps[0], settings), steps[1..], s', settings, subject, k);
    }
  }

  /** The failures of a subject in the window `(from, from + window]`. */
  function InWindow(s: State, subject: Subject, from: int, settings: Settings): set<nat> {
    set r: nat | r < |s.rows| && s.rows[r].subject == subject && from < s.rows[r].at <= from + settings.window
  }

  /** The ticket issued last among those whose failures are in `rows`. */
  lemma {:induction false} LastIssued(s: State, rows: set<nat>) returns (i: nat)
    requires rows != {} && forall r | r in rows :: r < |s.rows| && HasTicket(s, r)
    ensures i < |s.tickets| && s.tickets[i].row.Some? && s.tickets[i].row.value in rows
    ensures forall j: nat | j < |s.tickets| && s.tickets[j].row.Some? && s.tickets[j].row.value in rows :: j <= i
  {
    var r :| r in rows;
    assert HasTicket(s, r);
    i := |s.tickets| - 1;
    while !(s.tickets[i].row.Some? && s.tickets[i].row.value in rows)
      invariant i < |s.tickets|
      invariant exists j: nat :: j <= i && s.tickets[j].row == Some(r)
      invariant forall j: nat | i < j < |s.tickets| && s.tickets[j].row.Some? :: s.tickets[j].row.value !in rows
      decreases i
    {
      i := i - 1;
    }
  }

  lemma {:induction false} ImageSize(s: State, tickets: set<nat>, rows: set<nat>)
    requires forall j | j in tickets :: j < |s.tickets|
    requires forall r | r in rows :: exists j :: j in tickets && s.tickets[j].row == Some(r)
    ensures |rows| <= |tickets|
    decreases |rows|
  {
    if rows != {} {
      var r :| r in rows;
      var j :| j in tickets && s.tickets[j].row == Some(r);
      forall r' | r' in rows - {r} ensures exists j' :: j' in tickets - {j} && s.tickets[j'].row == Some(r') {
        var j' :| j' in tickets && s.tickets[j'].row == Some(r');
        assert j' in tickets - {j};
      }
      ImageSize(s, tickets - {j}, rows - {r});
    }
  }

  /**
   With at most `k` logins of a subject in flight at a time, every window holds at
   most `limit + k - 1` of its recorded failures; one at a time, at most `limit`.
   */
  lemma {:induction false} LoginBudget(steps: seq<Step>, s: State, settings: Settings, k: nat, subject: Subject, from: int)
    requires Runs(State([], []), steps, s, settings, subject, k)
    ensures var n := |InWindow(s, subject, from, settings)|; n == 0 || n <= settings.maxFailures + k - 1
  {
    RunKeepsInv(State([], []), steps, s, settings, subject, k);
    var rows := InWindow(s, subject, from, settings);
    if rows != {} {
      var i := LastIssued(s, rows);
      WindowSplits(s, settings, k, subject, from, i);
    }
  }

  /** What the last ticket saw, and what its rivals recorded. */
  lemma {:induction false} WindowSplits(s: State, settings: Settings, k: nat, subject: Subject, from: int, i: nat)
    requires Inv(s, settings, subject, k)
    requires i < |s.tickets| && s.tickets[i].row.Some? && s.tickets[i].row.value in InWindow(s, subject, from, settings)
    requires forall j: nat | j < |s.tickets| && s.tickets[j].row.Some? && s.tickets[j].row.value in InWindow(s, subject, from, settings) :: j <= i
    ensures |InWindow(s, subject, from, settings)| <= settings.maxFailures + k - 1
  {
    var rows, t := InWindow(s, subject, from, settings), s.tickets[i];
    var early := set r | r in rows && r < t.seen;
    assert TicketOk(s, i, settings);
    SubsetSize(early, Counted(s.rows, t.seen, subject, t.at - settings.window));
    LateRows(s, settings, k, subject, from, i, rows - early);
    assert rows == early + (rows - early);
  }

  lemma {:induction false} LateRows(s: State, settings: Settings, k: nat, subject: Subject, from: int, i: nat, late: set<nat>)
    requires Inv(s, settings, subject, k) && i < |s.tickets| && s.tickets[i].subject == subject
    requires forall r | r in late :: r in InWindow(s, subject, from, settings) && r >= s.tickets[i].seen
    requires forall j: nat | j < |s.tickets| && s.tickets[j].row.Some? && s.tickets[j].row.value in late :: j <= i
    ensures |late| <= k
  {
    forall r | r in late ensures exists j :: j in Rivals(s, i) && s.tickets[j].row == Some(r) {
      assert HasTicket(s, r);
      var j: nat :| j < |s.tickets| && s.tickets[j].row == Some(r);
      assert TicketOk(s, j, settings);
      assert j in Rivals(s, i);
    }
    ImageSize(s, Rivals(s, i), late);
  }

  // ---- the bound is reached

  /** `done` failures of one subject at time 0, and `open` of its logins in flight. */
  ghost predicate Shape(s: State, subject: Subject, done: nat, open: nat) {
    && |s.rows| == done && |s.tickets| == done + open
    && (forall r | 0 <= r < done :: s.rows[r] == Row(subject, 0))
    && (forall i | 0 <= i < done + open :: s.tickets[i].subject == subject && s.tickets[i].at == 0)
    && (forall i | 0 <= i < done + open :: IsInFlight(s.tickets[i]) <==> i >= done)
  }

  lemma {:induction false} ShapeInFlight(s: State, subject: Subject, done: nat, open: nat, k: nat)
    requires Shape(s, subject, done, open) && open <= k
    ensures |InFlight(s, subject)| <= k
  {
    SubsetSize(InFlight(s, subject), Range(done, done + open));
  }

  lemma {:induction false} ShapeChecks(s: State, settings: Settings, subject: Subject, done: nat, open: nat)
    requires Shape(s, subject, done, open) && done < settings.maxFailures
    ensures Shape(After(s, Check(subject, 0), settings), subject, done, open + 1)
  {
    SubsetSize(Counted(s.rows, done, subject, 0 - settings.window), Range(0, done));
  }

  lemma {:induction false} ShapeRecords(s: State, settings: Settings, subject: Subject, done: nat, open: nat)
    requires Shape(s, subject, done, open) && open > 0
    ensures May(s, Record(done, 0)) && Shape(After(s, Record(done, 0), settings), subject, done + 1, open - 1)
  {
  }

  lemma {:induction false} RunsThen(s: State, step: Step, steps: seq<Step>, s': State, settings: Settings, subject: Subject, k: nat)
    requires May(s, step) && |InFlight(After(s, step, settings), subject)| <= k
    requires Runs(After(s, step, settings), steps, s', settings, subject, k)
    ensures Runs(s, [step] + steps, s', settings, subject, k)
  {
  }

  lemma {:induction false} AllFail(s: State, settings: Settings, k: nat, subject: Subject, done: nat, open: nat)
    returns (steps: seq<Step>, s': State)
    requires Shape(s, subject, done, open) && open <= k
    ensures Runs(s, steps, s', settings, subject, k) && Shape(s', subject, done + open, 0)
    decreases open
  {
    if open == 0 {
      steps, s' := [], s;
    } else {
      var next := After(s, Record(done, 0), settings);
      ShapeRecords(s, settings, subject, done, open);
      ShapeInFlight(next, subject, done + 1, open - 1, k);
      steps, s' := AllFail(next, settings, k, subject, done + 1, open - 1);
      RunsThen(s, Record(done, 0), steps, s', settings, subject, k);
      steps := [Record(done, 0)] + steps;
    }
  }

  lemma {:induction false} AllEnter(s: State, settings: Settings, k: nat, subject: Subject, done: nat, open: nat)
    returns (steps: seq<Step>, s': State)
    requires Shape(s, subject, done, open) && open <= k && done < settings.maxFailures
    ensures Runs(s, steps, s', settings, subject, k) && Shape(s', subject, done + k, 0)
    decreases k - open
  {
    if open == k {
      steps, s' := AllFail(s, settings, k, subject, done, open);
    } else {
      var next := After(s, Check(subject, 0), settings);
      ShapeChecks(s, settings, subject, done, open);
      ShapeInFlight(next, subject, done, open + 1, k);
      steps, s' := AllEnter(next, settings, k, subject, done, open + 1);
      RunsThen(s, Check(subject, 0), steps, s', settings, subject, k);
      steps := [Check(subject, 0)] + steps;
    }
  }

  lemma {:induction false} OneByOne(s: State, settings: Settings, k: nat, subject: Subject, done: nat)
    returns (steps: seq<Step>, s': State)
    requires Shape(s, subject, done, 0) && k > 0 && done < settings.maxFailures
    ensures Runs(s, steps, s', settings, subject, k) && Shape(s', subject, settings.maxFailures - 1 + k, 0)
    decreases settings.maxFailures - done
  {
    if done == settings.maxFailures - 1 {
      steps, s' := AllEnter(s, settings, k, subject, done, 0);
    } else {
      var s1 := After(s, Check(subject, 0), settings);
      ShapeChecks(s, settings, subject, done, 0);
      ShapeInFlight(s1, subject, done, 1, k);
      var s2 := After(s1, Record(done, 0), settings);
      ShapeRecords(s1, settings, subject, done, 1);
      ShapeInFlight(s2, subject, done + 1, 0, k);
      steps, s' := OneByOne(s2, settings, k, subject, done + 1);
      RunsThen(s1, Record(done, 0), steps, s', settings, subject, k);
      RunsThen(s, Check(subject, 0), [Record(done, 0)] + steps, s', settings, subject, k);
      steps := [Check(subject, 0)] + ([Record(done, 0)] + steps);
    }
  }

  /** For every limit and every `k`, some run fills a window with exactly `limit + k - 1` failures. */
  lemma {:induction false} LoginBudgetIsReached(settings: Settings, k: nat, subject: Subject)
    returns (steps: seq<Step>, s: State)
    requires settings.maxFailures > 0 && settings.window > 0 && k > 0
    ensures Runs(State([], []), steps, s, settings, subject, k)
    ensures |InWindow(s, subject, -1, settings)| == settings.maxFailures + k - 1
  {
    steps, s := OneByOne(State([], []), settings, k, subject, 0);
    assert InWindow(s, subject, -1, settings) == Range(0, |s.rows|);
  }
}
