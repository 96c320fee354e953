/**
 A whole run of app and server in which one answer is lost and reuse detection
 fires against the app's own token.
 */
module LostAnswer {
  import opened Text
  import opened TokenTable
  import opened TokenInterleaving
  import opened TokenRuns
  import opened RefreshLock

  lemma {:induction false} Joined(w: World, first: seq<Event>, mid: World, second: seq<Event>, w': World)
    requires RunsTo(w, first, mid) && RunsTo(mid, second, w')
    ensures RunsTo(w, first + second, w')
    decreases |first|
  {
    if first == [] {
      assert first + second == second;
    } else {
      Joined(After(w, first[0]), first[1..], mid, second, w');
      Then(w, first[0], first[1..] + second, w');
      assert first + second == [first[0]] + (first[1..] + second);
    }
  }

  lemma {:induction false} OneMore(w: World, events: seq<Event>, mid: World, e: Event) returns (longer: seq<Event>)
    requires RunsTo(w, events, mid) && NoAnswerLost(events) && May(mid, e) && !e.LoseAnswer?
    ensures RunsTo(w, longer, After(mid, e)) && NoAnswerLost(longer)
  {
    longer := events + [e];
    assert [e] == [e] + [];
    Then(mid, e, [], After(mid, e));
    Joined(w, events, mid, [e], After(mid, e));
  }

  /** The app has logged in, with access token `a` and refresh token `b`. */
  function LoggedIn(user: nat, device: nat, family: nat, a: string, b: string): World {
    World(SignedIn(user, device, family, a, b), {0}, {}, Store(Some(a), Some(b)), None, [])
  }

  /** A login of the app under way: the server's rows and request, and nothing in the store. */
  function LoggingIn(rows: Table, q: Request): World {
    World(State(rows, [q]), {0}, {0}, Store(None, None), None, [])
  }

  function BringLogin(hash: string): Event { Server(Bring(0, hash)) }

  lemma {:induction false} LoginStarts(user: nat, device: nat, family: nat)
    ensures May(Start(), StartLogin(user, device, family))
    ensures After(Start(), StartLogin(user, device, family)) == LoggingIn([], Opening(user, device, family))
  {
  }

  lemma {:induction false} LoginOpens(user: nat, device: nat, family: nat, a: string)
    ensures May(LoggingIn([], Opening(user, device, family)), BringLogin(a))
    ensures After(LoggingIn([], Opening(user, device, family)), BringLogin(a))
         == LoggingIn([LoginRow(Access, user, device, family, a)], HalfOpen(user, device, family, 0))
  {
  }

  lemma {:induction false} LoginEnds(user: nat, device: nat, family: nat, a: string, b: string)
    requires a != b
    ensures var w := LoggingIn([LoginRow(Access, user, device, family, a)], HalfOpen(user, device, family, 0));
      May(w, BringLogin(b)) && May(After(w, BringLogin(b)), SaveLogin(0))
      && After(After(w, BringLogin(b)), SaveLogin(0)) == LoggedIn(user, device, family, a, b)
  {
  }

  lemma {:induction false} LoginRun(user: nat, device: nat, family: nat, a: string, b: string) returns (events: seq<Event>)
    requires a != b
    ensures RunsTo(Start(), events, LoggedIn(user, device, family, a, b)) && NoAnswerLost(events)
  {
    LoginStarts(user, device, family);
    LoginOpens(user, device, family, a);
    LoginEnds(user, device, family, a, b);
    var w2 := LoggingIn([LoginRow(Access, user, device, family, a)], HalfOpen(user, device, family, 0));
    events := OneMore(Start(), [], Start(), StartLogin(user, device, family));
    events := OneMore(Start(), events, LoggingIn([], Opening(user, device, family)), BringLogin(a));
    events := OneMore(Start(), events, w2, BringLogin(b));
    events := OneMore(Start(), events, After(w2, BringLogin(b)), SaveLogin(0));
  }

  /** Two threads have met a 401; the first is in the lock and has posted the stored token. */
  function TwoThreads(w: World, b: string): World {
    w.(server := w.server.(requests := w.server.requests + [Looking(b)]), mine := w.mine + {|w.server.requests|},
       holder := Some(0), threads := [Posted(|w.server.requests|), Waiting])
  }

  lemma {:induction false} ThreadsMeet(w: World)
    requires w.threads == [] && w.holder.None?
    ensures After(w, Spawn) == w.(threads := [Outside])
    ensures After(w.(threads := [Outside]), Spawn) == w.(threads := [Outside, Outside])
    ensures var x := w.(threads := [Outside, Outside]);
      May(x, Unauthorised(0)) && After(x, Unauthorised(0)) == w.(threads := [Waiting, Outside])
    ensures var x := w.(threads := [Waiting, Outside]);
      May(x, Unauthorised(1)) && After(x, Unauthorised(1)) == w.(threads := [Waiting, Waiting])
  {
  }

  lemma {:induction false} FirstPosts(w: World, b: string)
    requires w.threads == [] && w.holder.None? && w.store.refresh == Some(b)
    ensures var x := w.(threads := [Waiting, Waiting]);
      May(x, Enter(0)) && May(After(x, Enter(0)), Read(0)) && After(After(x, Enter(0)), Read(0)) == TwoThreads(w, b)
  {
    assert [Waiting, Waiting][0 := Entered] == [Entered, Waiting];
    assert [Entered, Waiting][0 := Posted(|w.server.requests|)] == [Posted(|w.server.requests|), Waiting];
  }

  lemma {:induction false} ThreadsRun(w: World, b: string) returns (events: seq<Event>)
    requires w.threads == [] && w.holder.None? && w.store.refresh == Some(b)
    ensures RunsTo(w, events, TwoThreads(w, b)) && NoAnswerLost(events)
  {
    ThreadsMeet(w);
    FirstPosts(w, b);
    var x := w.(threads := [Waiting, Waiting]);
    events := OneMore(w, [], w, Spawn);
    events := OneMore(w, events, w.(threads := [Outside]), Spawn);
    events := OneMore(w, events, w.(threads := [Outside, Outside]), Unauthorised(0));
    events := OneMore(w, events, w.(threads := [Waiting, Outside]), Unauthorised(1));
    events := OneMore(w, events, x, Enter(0));
    events := OneMore(w, events, After(x, Enter(0)), Read(0));
  }

  predicate NobodyLooks(s: State) {
    forall k | 0 <= k < |s.requests| :: !s.requests[k].Looking?
  }

  function NextStatement(w: World, r: nat): Event { Server(Advance(r, AnyInput(w.server.table))) }

  /** Nobody else is looking a token up, so a request that rotates one may take its next statement. */
  lemma {:induction false} RotationMay(w: World, r: nat)
    requires Safe(w) && r < |w.server.requests| && Rotates(w.server.requests[r]) && NobodyLooks(w.server)
    ensures May(w, NextStatement(w, r))
    ensures var w' := After(w, NextStatement(w, r));
      && NobodyLooks(w'.server) && Safe(w') && Keeps(w.server.table, w'.server.table)
      && w'.store == w.store && w'.threads == w.threads && |w'.server.requests| == |w.server.requests|
      && w'.server.requests[r].id == w.server.requests[r].id
      && (Rotates(w'.server.requests[r]) || w'.server.requests[r].Rotated?)
      && Remaining(w'.server.requests[r]) < Remaining(w.server.requests[r])
  {
    AdvanceRotation(w.server, r);
    EventKeepsSafe(w, NextStatement(w, r));
    StepKeepsInv(w.server, Advance(r, AnyInput(w.server.table)));
  }

  /** The server finishes a rotation; the app waits. */
  lemma {:induction false} RotationRun(start: World, before: seq<Event>, w: World, r: nat) returns (events: seq<Event>, w': World)
    requires RunsTo(start, before, w) && NoAnswerLost(before)
    requires Safe(w) && r < |w.server.requests| && Rotates(w.server.requests[r]) && NobodyLooks(w.server)
    ensures RunsTo(start, events, w') && NoAnswerLost(events) && Safe(w')
    ensures w'.store == w.store && w'.threads == w.threads && Keeps(w.server.table, w'.server.table)
    ensures |w'.server.requests| == |w.server.requests|
    ensures w'.server.requests[r].Rotated? && w'.server.requests[r].id == w.server.requests[r].id
    decreases Remaining(w.server.requests[r])
  {
    RotationMay(w, r);
    events := OneMore(start, before, w, NextStatement(w, r));
    w' := After(w, NextStatement(w, r));
    if Rotates(w'.server.requests[r]) {
      ghost var next := w';
      events, w' := RotationRun(start, events, next, r);
      KeepsTransitive(w.server.table, next.server.table, w'.server.table);
    }
  }

  /** The first thread's request has found its token unused; the other thread waits. */
  predicate HasFound(w: World) {
    && w.threads == [Posted(1), Waiting]
    && |w.server.requests| == 2 && w.server.requests[0].Opened? && w.server.requests[1] == Marking(1)
    && |w.server.table| == 2 && w.store.refresh == Some(w.server.table[1].hash)
  }

  const LOOK: Event := Server(Advance(1, Input(0, true, "", 0)))

  lemma {:induction false} LookFinds(user: nat, device: nat, family: nat, a: string, b: string)
    requires a != b
    ensures var w := TwoThreads(LoggedIn(user, device, family, a, b), b); May(w, LOOK) && HasFound(After(w, LOOK))
  {
    var w := TwoThreads(LoggedIn(user, device, family, a, b), b);
    LookupFinds(w.server.table, 1);
  }

  /** A login, two threads at the lock, and the token found unused. */
  lemma {:induction false} FoundRun(user: nat, device: nat, family: nat, a: string, b: string) returns (events: seq<Event>, w: World)
    requires a != b
    ensures RunsTo(Start(), events, w) && NoAnswerLost(events) && HasFound(w) && Safe(w)
  {
    var w1 := LoggedIn(user, device, family, a, b);
    var login := LoginRun(user, device, family, a, b);
    var threads := ThreadsRun(w1, b);
    hide LoggedIn, TwoThreads, After, May, RunsTo, Safe;
    Joined(Start(), login, w1, threads, TwoThreads(w1, b));
    LookFinds(user, device, family, a, b);
    events := OneMore(Start(), login + threads, TwoThreads(w1, b), LOOK);
    w := After(TwoThreads(w1, b), LOOK);
    RunKeepsSafe(Start(), events, w);
  }

  /** What `LostAnswerReplays` asks for. */
  ghost predicate IsRipe(w: World) {
    && Safe(w) && w.threads == [Posted(1), Waiting] && May(w, LoseAnswer(0))
    && |w.server.requests| == 2 && w.server.requests[1].Rotated? && w.server.requests[1].id == 1
    && 1 < |w.server.table| && w.store.refresh == Some(w.server.table[1].hash)
  }

  lemma {:induction false} RotatedIsRipe(w: World, w': World)
    requires HasFound(w) && Safe(w') && w'.store == w.store && w'.threads == w.threads && Keeps(w.server.table, w'.server.table)
    requires |w'.server.requests| == 2 && w'.server.requests[1].Rotated? && w'.server.requests[1].id == 1
    ensures IsRipe(w')
  {
    assert IsLater(w.server.table[1], w'.server.table[1]);
    assert Relies(w'.server.table, w'.server.requests[1]);
    hide Safe, Keeps;
  }

  lemma {:induction false} RipeRun(user: nat, device: nat, family: nat, a: string, b: string) returns (events: seq<Event>, w: World)
    requires a != b
    ensures RunsTo(Start(), events, w) && NoAnswerLost(events) && IsRipe(w)
  {
    var found, w1 := FoundRun(user, device, family, a, b);
    events, w := RotationRun(Start(), found, w1, 1);
    RotatedIsRipe(w1, w);
  }

  /** From the start: one login, one rotation, its answer lost while another thread waits, and the app is taken for a thief. */
  lemma {:induction false} LostAnswerHappens(user: nat, device: nat, family: nat) returns (before: seq<Event>, after: seq<Event>, w: World, n: nat)
    ensures RunsTo(Start(), before + [LoseAnswer(0)] + after, w) && NoAnswerLost(before) && NoAnswerLost(after)
    ensures n in w.mine && n < |w.server.requests| && w.server.requests[n].Burning?
  {
    var ripe;
    before, ripe := RipeRun(user, device, family, "a", "b");
    assert IsAt(ripe, 1, Waiting);
    hide RunsTo, After, May, Safe, NoAnswerLost;
    var rest;
    rest, w, n := LostAnswerReplays(ripe, 0, 1, 1);
    Joined(Start(), before, ripe, rest, w);
    after := rest[1..];
    assert before + rest == before + [LoseAnswer(0)] + after;
  }
}
