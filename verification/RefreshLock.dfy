/**
 The app and the server together: any number of app threads that meet a 401, the
 process-wide lock around `refreshOnce`, the token store, and the server of
 `TokenInterleaving` with everybody else on it.

 As long as no answer is lost, no refresh token that has been used is presented
 again, so the server's reuse detection never fires against its own client
 (`NeverReplayed`); one lost answer is enough to make it fire (`LostAnswerReplays`).
 */
module RefreshLock {
  import opened Text
  import opened TokenTable
  import opened TokenInterleaving

  /** The two variables of `TokenStore`. */
  datatype Store = Store(access: Option<string>, refresh: Option<string>)

  /** Where a thread is: outside the lock, waiting for it, inside, or about to clear the session. */
  datatype Thread = Outside | Waiting | Entered | Posted(r: nat) | Answered(ok: bool) | Clearing

  /** `mine` are this app's requests, `pending` its logins whose answer is not saved yet. */
  datatype World = World(server: State, mine: set<nat>, pending: set<nat>, store: Store, holder: Option<nat>, threads: seq<Thread>)

  datatype Event =
    | Spawn
    | Unauthorised(t: nat)
    | SignOut(t: nat)
    | Enter(t: nat)
    | Read(t: nat)
    | Receive(t: nat)
    | LoseAnswer(t: nat)
    | Leave(t: nat)
    | Clear(t: nat)
    | StartLogin(user: nat, device: nat, family: nat)
    | SaveLogin(r: nat)
    | Server(step: Step)

  function Start(): World { World(Initial(), {}, {}, Store(None, None), None, []) }

  predicate InLock(th: Thread) { th.Entered? || th.Posted? || th.Answered? }

  /** The request that the lock holder waits for. */
  function PostedBy(w: World): Option<nat> {
    if w.holder.Some? && w.holder.value < |w.threads| && w.threads[w.holder.value].Posted?
    then Some(w.threads[w.holder.value].r) else None
  }

  predicate IsAt(w: World, t: nat, th: Thread) { t < |w.threads| && w.threads[t] == th }

  /** This app was handed the token in row `m`. */
  ghost predicate Ours(w: World, m: int) {
    exists r | 0 <= r < |w.server.requests| && r in w.mine :: HandedOut(w.server.requests[r], m)
  }

  /** Nobody presents a token before it exists. */
  predicate NotAwaited(s: State, hash: string) {
    forall r | 0 <= r < |s.requests| :: s.requests[r] != Looking(hash)
  }

  /** What others do on the server: they do not have this app's tokens, and this app's requests are not cut off. */
  ghost predicate OthersMay(w: World, step: Step) {
    && Enabled(w.server, step)
    && match step
       case Present(hash) => forall m | 0 <= m < |w.server.table| && Ours(w, m) :: w.server.table[m].hash != hash
       case Advance(r, input) => Inserts(w.server.requests[r]) ==> NotAwaited(w.server, input.hash)
       case Abandon(r) => r !in w.mine
       case _ => true
  }

  ghost predicate May(w: World, e: Event) {
    match e
    case Spawn => true
    case Unauthorised(t) => IsAt(w, t, Outside)
    case SignOut(t) => IsAt(w, t, Outside)
    case Enter(t) => IsAt(w, t, Waiting) && w.holder.None?
    case Read(t) => IsAt(w, t, Entered)
    case Receive(t) => HasAnswer(w, t)
    case LoseAnswer(t) => HasAnswer(w, t)
    case Leave(t) => t < |w.threads| && w.threads[t].Answered?
    case Clear(t) => IsAt(w, t, Clearing)
    case StartLogin(user, device, family) => Enabled(w.server, SignIn(user, device, family))
    case SaveLogin(r) =>
      r in w.pending && r < |w.server.requests| && w.server.requests[r].Opened? && HasTokens(w.server, w.server.requests[r])
    case Server(step) => OthersMay(w, step)
  }

  predicate HasTokens(s: State, q: Request) {
    (q.Rotated? || q.Opened?) ==> q.access < |s.table| && q.minted < |s.table|
  }

  predicate HasAnswer(w: World, t: nat) {
    && t < |w.threads| && w.threads[t].Posted? && w.threads[t].r < |w.server.requests|
    && !IsUnfinished(w.server.requests[w.threads[t].r]) && HasTokens(w.server, w.server.requests[w.threads[t].r])
  }

  /** `savePair` with the tokens that a request was handed. */
  function Saved(s: State, q: Request): Store
    requires (q.Rotated? || q.Opened?) && HasTokens(s, q)
  {
    Store(Some(s.table[q.access].hash), Some(s.table[q.minted].hash))
  }

  function After(w: World, e: Event): World
    requires May(w, e)
  {
    match e
    case Spawn => w.(threads := w.threads + [Outside])
    case Unauthorised(t) => w.(threads := w.threads[t := Waiting])
    case SignOut(t) => w.(store := Store(None, None))
    case Enter(t) => w.(threads := w.threads[t := Entered], holder := Some(t))
    case Read(t) =>
      (match w.store.refresh
       case None => w.(threads := w.threads[t := Answered(false)])
       case Some(hash) =>
         var n := |w.server.requests|;
         w.(threads := w.threads[t := Posted(n)], mine := w.mine + {n}, server := Next(w.server, Present(hash))))
    case Receive(t) =>
      var q := w.server.requests[w.threads[t].r];
      if q.Rotated? then w.(threads := w.threads[t := Answered(true)], store := Saved(w.server, q))
      else w.(threads := w.threads[t := Answered(false)])
    case LoseAnswer(t) => w.(threads := w.threads[t := Answered(false)])
    case Leave(t) => w.(threads := w.threads[t := if w.threads[t].ok then Outside else Clearing], holder := None)
    case Clear(t) => w.(threads := w.threads[t := Outside], store := Store(None, None))
    case StartLogin(user, device, family) =>
      var n := |w.server.requests|;
      w.(mine := w.mine + {n}, pending := w.pending + {n}, server := Next(w.server, SignIn(user, device, family)))
    case SaveLogin(r) => w.(pending := w.pending - {r}, store := Saved(w.server, w.server.requests[r]))
    case Server(step) => w.(server := Next(w.server, step))
  }

  ghost predicate RunsTo(w: World, events: seq<Event>, w': World)
    decreases |events|
  {
    if events == [] then w == w'
    else May(w, events[0]) && RunsTo(After(w, events[0]), events[1..], w')
  }

  predicate NoAnswerLost(events: seq<Event>) {
    forall i | 0 <= i < |events| :: !events[i].LoseAnswer?
  }

  // ---- the store and `refreshOnce` in the app's own form

  class TokenStore {
    var accessToken: Option<string>
    var refreshToken: Option<string>

    constructor ()
      ensures View() == Store(None, None)
    {
      accessToken, refreshToken := None, None;
    }

    function View(): Store
      reads this
    {
      Store(accessToken, refreshToken)
    }

    method SavePair(access: string, refresh: string)
      modifies this
      ensures View() == Store(Some(access), Some(refresh))
    {
      accessToken := Some(access);
      refreshToken := Some(refresh);
    }

    method ClearSession()
      modifies this
      ensures View() == Store(None, None)
    {
      accessToken := None;
      refreshToken := None;
    }
  }

  /** `refreshOnce`: `post` is what the server answers to a token, `None` for every failure. */
  method RefreshOnce(tokens: TokenStore, post: string -> Option<(string, string)>) returns (ok: bool)
    modifies tokens
    ensures ok <==> old(tokens.refreshToken).Some? && post(old(tokens.refreshToken).value).Some?
    ensures !ok ==> tokens.View() == old(tokens.View())
    ensures ok ==>
      var pair := post(old(tokens.refreshToken).value).value;
      tokens.View() == Store(Some(pair.0), Some(pair.1))
  {
    if tokens.refreshToken.None? { return false; }
    var answer := post(tokens.refreshToken.value);
    if answer.None? { return false; }
    tokens.SavePair(answer.value.0, answer.value.1);
    return true;
  }

  /**
   `intercept`, when the server has answered 401: a request to an /auth/ path ends
   the session, any other one tries to refresh and ends the session if it cannot.
   The access token for the second attempt is what the store then holds.
   */
  method Intercept(tokens: TokenStore, isAuthPath: bool, post: string -> Option<(string, string)>) returns (sessionLost: bool)
    modifies tokens
    ensures sessionLost <==> isAuthPath || old(tokens.refreshToken).None? || post(old(tokens.refreshToken).value).None?
    ensures sessionLost ==> tokens.View() == Store(None, None)
    ensures !sessionLost ==>
      var pair := post(old(tokens.refreshToken).value).value;
      tokens.View() == Store(Some(pair.0), Some(pair.1))
  {
    if isAuthPath {
      tokens.ClearSession();
      return true;
    }
    var refreshed := RefreshOnce(tokens, post);
    if !refreshed {
      tokens.ClearSession();
    }
    return !refreshed;
  }

  // ---- the invariant

  predicate IsUnused(s: State, m: int) {
    0 <= m < |s.table| && s.table[m].kind == Refresh && s.table[m].usedAt.None?
  }

  /** The request may still mark row `m` used, or find it used. */
  predicate Touches(s: State, q: Request, m: int)
    requires 0 <= m < |s.table|
  {
    q == Looking(s.table[m].hash) || q == Marking(m)
  }

  /** The answer that handed out row `m` has reached the store. */
  ghost predicate WasSaved(w: World, m: int) {
    exists r | 0 <= r < |w.server.requests| && r in w.mine && r !in w.pending && PostedBy(w) != Some(r) ::
      HandedOut(w.server.requests[r], m)
  }

  ghost predicate LockOk(w: World) {
    && (w.holder.Some? ==> w.holder.value < |w.threads|)
    && forall t: nat | t < |w.threads| :: InLock(w.threads[t]) <==> w.holder == Some(t)
  }

  /** This app's tokens are touched by the lock holder's request only. */
  ghost predicate NoStrays(w: World) {
    forall k, m | 0 <= k < |w.server.requests| && 0 <= m < |w.server.table| && Ours(w, m) ::
      Touches(w.server, w.server.requests[k], m) ==> PostedBy(w) == Some(k)
  }

  ghost predicate IsStoredToken(w: World, hash: string, m: int) {
    && 0 <= m < |w.server.table| && w.server.table[m].hash == hash && w.server.table[m].kind == Refresh && WasSaved(w, m)
  }

  /** The lock holder's request holds row `m`. */
  predicate HeldByPosted(w: World, m: nat) {
    PostedBy(w).Some? && PostedBy(w).value < |w.server.requests| && Holds(w.server.requests[PostedBy(w).value], m)
  }

  /** The stored refresh token is unused, unless the lock holder is refreshing it right now. */
  ghost predicate StoreOk(w: World) {
    w.store.refresh.Some? ==>
      exists m: nat :: IsStoredToken(w, w.store.refresh.value, m) && (IsUnused(w.server, m) || HeldByPosted(w, m))
  }

  /** The lock holder's request presents a saved, unused token. */
  ghost predicate PostOk(w: World, r: nat)
    requires r < |w.server.requests|
  {
    match w.server.requests[r]
    case Looking(hash) => exists m :: IsStoredToken(w, hash, m) && IsUnused(w.server, m)
    case Marking(id) => WasSaved(w, id)
    case Burning(_) => false
    case Replayed(_) => false
    case Opening(_, _, _) => false
    case HalfOpen(_, _, _, _) => false
    case Opened(_, _, _) => false
    case _ => true
  }

  ghost predicate PostedOk(w: World) {
    PostedBy(w).Some? ==>
      PostedBy(w).value < |w.server.requests| && PostedBy(w).value in w.mine && PostedBy(w).value !in w.pending
      && PostOk(w, PostedBy(w).value)
  }

  /** A token that has not reached the store yet is unused. */
  ghost predicate UnsavedOk(w: World) {
    forall r, m | 0 <= r < |w.server.requests| && (r in w.pending || PostedBy(w) == Some(r)) ::
      HandedOut(w.server.requests[r], m) ==> IsUnused(w.server, m)
  }

  /** Every other request of this app is a login or is over, without a replay. */
  ghost predicate MineOk(w: World) {
    && w.pending <= w.mine
    && forall r: nat | r in w.mine :: r < |w.server.requests| && (PostedBy(w) != Some(r) ==> IsHarmless(w, r))
  }

  predicate IsHarmless(w: World, r: nat)
    requires r < |w.server.requests|
  {
    var q := w.server.requests[r];
    if r in w.pending then q.Opening? || q.HalfOpen? || q.Opened? else q.Opened? || q.Rotated? || q.Refused?
  }

  ghost predicate Safe(w: World) {
    Inv(w.server) && LockOk(w) && NoStrays(w) && StoreOk(w) && PostedOk(w) && UnsavedOk(w) && MineOk(w)
  }

  // ---- what a step of the server changes

  /** Rows keep their hash and kind, and only the row that a request is marking becomes used. */
  lemma {:induction false} OldRows(s: State, step: Step, m: int)
    requires Inv(s) && Enabled(s, step) && 0 <= m < |s.table|
    ensures m < |Next(s, step).table| && Next(s, step).table[m].hash == s.table[m].hash
    ensures Next(s, step).table[m].kind == s.table[m].kind
    ensures IsUnused(s, m) ==> IsUnused(Next(s, step), m) || (step.Advance? && s.requests[step.r] == Marking(m))
  {
  }

  /** No step but a new request makes a request touch a row that it did not touch before. */
  lemma {:induction false} TouchesBack(s: State, step: Step, k: nat, m: int)
    requires Inv(s) && Enabled(s, step) && 0 <= m < |s.table|
    requires k < |s.requests| && m < |Next(s, step).table|
    ensures Touches(Next(s, step), Next(s, step).requests[k], m) ==> Touches(s, s.requests[k], m)
  {
  }

  /** Only the request that inserts a row is handed it. */
  lemma {:induction false} HandedOutBack(s: State, step: Step, k: nat, m: int)
    requires Inv(s) && Enabled(s, step) && k < |Next(s, step).requests|
    ensures HandedOut(Next(s, step).requests[k], m) ==>
      (k < |s.requests| && HandedOut(s.requests[k], m))
      || (step.Advance? && step.r == k && m == |s.table| && Inserts(s.requests[k]) && IsUnused(Next(s, step), m))
    ensures k < |s.requests| && HandedOut(s.requests[k], m) ==> HandedOut(Next(s, step).requests[k], m) && m < |s.table|
  {
  }

  /** A row that has just been inserted is touched by nobody. */
  lemma {:induction false} NewRowUntouched(s: State, step: Step, k: nat)
    requires Inv(s) && Enabled(s, step) && step.Advance? && Inserts(s.requests[step.r])
    requires NotAwaited(s, step.input.hash) && k < |s.requests|
    ensures |Next(s, step).table| == |s.table| + 1
    ensures !Touches(Next(s, step), Next(s, step).requests[k], |s.table|)
  {
  }

  lemma {:induction false} OursBack(w: World, step: Step, m: int)
    requires Safe(w) && OthersMay(w, step)
    requires Ours(w.(server := Next(w.server, step)), m)
    ensures (Ours(w, m) && 0 <= m < |w.server.table|) || (step.Advance? && m == |w.server.table| && Inserts(w.server.requests[step.r]))
  {
    var w' := w.(server := Next(w.server, step));
    var r :| 0 <= r < |w'.server.requests| && r in w.mine && HandedOut(w'.server.requests[r], m);
    HandedOutBack(w.server, step, r, m);
  }

  // ---- server steps keep the invariant

  lemma {:induction false} ServerNoStrays(w: World, step: Step)
    requires Safe(w) && OthersMay(w, step)
    ensures NoStrays(w.(server := Next(w.server, step)))
  {
    var w' := w.(server := Next(w.server, step));
    StepKeepsInv(w.server, step);
    forall k, m | 0 <= k < |w'.server.requests| && 0 <= m < |w'.server.table| && Ours(w', m)
      ensures Touches(w'.server, w'.server.requests[k], m) ==> PostedBy(w') == Some(k)
    {
      OursBack(w, step, m);
      if m < |w.server.table| {
        OldRows(w.server, step, m);
        if k < |w.server.requests| {
          TouchesBack(w.server, step, k, m);
        }
      } else {
        NewRowUntouched(w.server, step, k);
      }
    }
  }

  lemma {:induction false} SavedStays(w: World, step: Step, m: int)
    requires Safe(w) && OthersMay(w, step) && WasSaved(w, m)
    ensures WasSaved(w.(server := Next(w.server, step)), m) && 0 <= m < |w.server.table| && Ours(w, m)
  {
  }

  /** An unused token of ours stays unused unless the lock holder's request marks it. */
  lemma {:induction false} OursStaysUnused(w: World, step: Step, m: nat)
    requires Safe(w) && OthersMay(w, step) && Ours(w, m) && IsUnused(w.server, m)
    ensures IsUnused(Next(w.server, step), m)
         || (step.Advance? && PostedBy(w) == Some(step.r) && w.server.requests[step.r] == Marking(m)
             && Next(w.server, step).requests[step.r] == Retiring(m))
  {
    OldRows(w.server, step, m);
    if step.Advance? {
      assert Touches(w.server, w.server.requests[step.r], m) ==> PostedBy(w) == Some(step.r);
    }
  }

  lemma {:induction false} ServerStoreOk(w: World, step: Step)
    requires Safe(w) && OthersMay(w, step)
    ensures StoreOk(w.(server := Next(w.server, step)))
  {
    var w' := w.(server := Next(w.server, step));
    if w.store.refresh.Some? {
      var hash := w.store.refresh.value;
      var m: nat :| IsStoredToken(w, hash, m) && (IsUnused(w.server, m) || HeldByPosted(w, m));
      SavedStays(w, step, m);
      OldRows(w.server, step, m);
      assert IsStoredToken(w', hash, m);
      if IsUnused(w.server, m) {
        OursStaysUnused(w, step, m);
      } else {
        HeldStays(w, step, m);
      }
      assert IsUnused(w'.server, m) || HeldByPosted(w', m);
    }
  }

  lemma {:induction false} HeldStays(w: World, step: Step, m: nat)
    requires Safe(w) && OthersMay(w, step) && HeldByPosted(w, m)
    ensures HeldByPosted(w.(server := Next(w.server, step)), m)
  {
  }

  lemma {:induction false} ServerPostedOk(w: World, step: Step)
    requires Safe(w) && OthersMay(w, step)
    ensures PostedOk(w.(server := Next(w.server, step)))
  {
    if PostedBy(w).Some? {
      var r := PostedBy(w).value;
      var q := w.server.requests[r];
      if q.Looking? {
        var m :| IsStoredToken(w, q.hash, m) && IsUnused(w.server, m);
        PostedLooks(w, step, r, m);
      } else {
        PostedGoesOn(w, step, r);
      }
      hide Inv, Next, PostOk, LockOk, NoStrays, StoreOk, UnsavedOk, MineOk;
    }
  }

  /** Past its lookup, the lock holder's request goes on with its rotation. */
  lemma {:induction false} PostedGoesOn(w: World, step: Step, r: nat)
    requires Safe(w) && OthersMay(w, step) && PostedBy(w) == Some(r)
    requires r < |w.server.requests| && !w.server.requests[r].Looking?
    ensures r < |Next(w.server, step).requests| && PostOk(w.(server := Next(w.server, step)), r)
  {
    if w.server.requests[r].Marking? {
      SavedStays(w, step, w.server.requests[r].id);
    }
    hide Inv, LockOk, NoStrays, StoreOk, UnsavedOk, MineOk, WasSaved, IsStoredToken;
  }

  /** The lock holder's lookup, whoever moves: it still has an unused token before it, or has found it so. */
  lemma {:induction false} PostedLooks(w: World, step: Step, r: nat, m: int)
    requires Safe(w) && OthersMay(w, step) && PostedBy(w) == Some(r) && r < |w.server.requests| && w.server.requests[r].Looking?
    requires IsStoredToken(w, w.server.requests[r].hash, m) && IsUnused(w.server, m)
    ensures r < |Next(w.server, step).requests| && PostOk(w.(server := Next(w.server, step)), r)
  {
    var w' := w.(server := Next(w.server, step));
    SavedStays(w, step, m);
    OldRows(w.server, step, m);
    OursStaysUnused(w, step, m);
    LookupFinds(w.server.table, m);
    assert IsStoredToken(w', w.server.requests[r].hash, m);
    assert (step.Advance? && step.r == r) || IsUnused(w'.server, m);
  }

  lemma {:induction false} ServerUnsavedOk(w: World, step: Step)
    requires Safe(w) && OthersMay(w, step)
    ensures UnsavedOk(w.(server := Next(w.server, step)))
  {
    var w' := w.(server := Next(w.server, step));
    forall r, m | 0 <= r < |w'.server.requests| && (r in w'.pending || PostedBy(w') == Some(r))
      ensures HandedOut(w'.server.requests[r], m) ==> IsUnused(w'.server, m)
    {
      HandedOutBack(w.server, step, r, m);
      if HandedOut(w'.server.requests[r], m) && r < |w.server.requests| && HandedOut(w.server.requests[r], m) {
        UnsavedStaysUnused(w, step, r, m);
      }
    }
  }

  lemma {:induction false} UnsavedStaysUnused(w: World, step: Step, r: nat, m: int)
    requires Safe(w) && OthersMay(w, step)
    requires r < |w.server.requests| && (r in w.pending || PostedBy(w) == Some(r)) && HandedOut(w.server.requests[r], m)
    ensures IsUnused(Next(w.server, step), m)
  {
    assert IsUnused(w.server, m);
    assert r in w.mine && Ours(w, m);
    UnsavedIsNotSaved(w, r, m);
    OursStaysUnused(w, step, m);
  }

  lemma {:induction false} UnsavedIsNotSaved(w: World, r: nat, m: int)
    requires Safe(w)
    requires r < |w.server.requests| && (r in w.pending || PostedBy(w) == Some(r)) && HandedOut(w.server.requests[r], m)
    ensures !WasSaved(w, m)
  {
  }

  lemma {:induction false} ServerMineOk(w: World, step: Step)
    requires Safe(w) && OthersMay(w, step)
    ensures MineOk(w.(server := Next(w.server, step)))
  {
  }

  lemma {:induction false} ServerKeepsSafe(w: World, step: Step)
    requires Safe(w) && OthersMay(w, step)
    ensures Safe(w.(server := Next(w.server, step)))
  {
    StepKeepsInv(w.server, step);
    ServerNoStrays(w, step);
    ServerStoreOk(w, step);
    ServerPostedOk(w, step);
    ServerUnsavedOk(w, step);
    ServerMineOk(w, step);
  }

  // ---- the app's own steps keep the invariant

  /** Nothing has changed but threads, and perhaps the store has been cleared. */
  lemma {:induction false} SameViewIsSafe(w: World, w': World)
    requires Safe(w) && LockOk(w') && PostedBy(w') == PostedBy(w)
    requires w'.server == w.server && w'.mine == w.mine && w'.pending == w.pending
    requires w'.store.refresh.None? || w'.store == w.store
    ensures Safe(w')
  {
    forall m ensures WasSaved(w, m) <==> WasSaved(w', m) {}
    forall m ensures Ours(w, m) <==> Ours(w', m) {}
    if w'.store.refresh.Some? {
      var m: nat :| IsStoredToken(w, w.store.refresh.value, m) && (IsUnused(w.server, m) || HeldByPosted(w, m));
      assert IsStoredToken(w', w'.store.refresh.value, m) && (IsUnused(w'.server, m) || HeldByPosted(w', m));
    }
    SamePosted(w, w');
    forall r: nat | r in w'.mine ensures r < |w'.server.requests| && (PostedBy(w') != Some(r) ==> IsHarmless(w', r)) {
      assert PostedBy(w) != Some(r) ==> IsHarmless(w, r);
    }
  }

  lemma {:induction false} SamePosted(w: World, w': World)
    requires PostedOk(w) && PostedBy(w') == PostedBy(w)
    requires w'.server == w.server && w'.mine == w.mine && w'.pending <= w.pending
    requires forall m | WasSaved(w, m) :: WasSaved(w', m)
    ensures PostedOk(w')
  {
  }

  /** A request of ours has been sent. */
  ghost predicate HasSent(w: World, w': World, q: Request) {
    var n := |w.server.requests|;
    && (q.Looking? || q.Opening?)
    && w'.server == w.server.(requests := w.server.requests + [q]) && w'.mine == w.mine + {n}
    && (if q.Opening? then w'.pending == w.pending + {n} && PostedBy(w') == PostedBy(w)
        else w'.pending == w.pending && PostedBy(w) == None && PostedBy(w') == Some(n))
  }

  lemma {:induction false} SentHandsOutNothing(w: World, w': World, q: Request)
    requires Safe(w) && HasSent(w, w', q)
    ensures forall m :: Ours(w', m) ==> Ours(w, m)
    ensures forall m | WasSaved(w, m) :: WasSaved(w', m)
    ensures UnsavedOk(w')
  {
    var n := |w.server.requests|;
    forall m | WasSaved(w, m) ensures WasSaved(w', m) {
      var r :| 0 <= r < n && r in w.mine && r !in w.pending && PostedBy(w) != Some(r) && HandedOut(w.server.requests[r], m);
      assert HandedOut(w'.server.requests[r], m);
    }
    forall r, m | 0 <= r < |w'.server.requests| && (r in w'.pending || PostedBy(w') == Some(r))
      ensures HandedOut(w'.server.requests[r], m) ==> IsUnused(w'.server, m)
    {
      assert r < n ==> (HandedOut(w.server.requests[r], m) ==> IsUnused(w.server, m));
    }
  }

  lemma {:induction false} SentKeepsMine(w: World, w': World, q: Request)
    requires Safe(w) && HasSent(w, w', q)
    ensures MineOk(w')
  {
  }

  lemma {:induction false} SentKeepsStore(w: World, w': World, q: Request)
    requires Safe(w) && HasSent(w, w', q) && w'.store == w.store
    ensures StoreOk(w')
  {
    SentHandsOutNothing(w, w', q);
    if w.store.refresh.Some? {
      var m: nat :| IsStoredToken(w, w.store.refresh.value, m) && (IsUnused(w.server, m) || HeldByPosted(w, m));
      assert IsStoredToken(w', w.store.refresh.value, m) && (IsUnused(w'.server, m) || HeldByPosted(w', m));
    }
  }

  lemma {:induction false} SentKeepsNoStrays(w: World, w': World, q: Request)
    requires Safe(w) && HasSent(w, w', q)
    ensures NoStrays(w')
  {
    SentHandsOutNothing(w, w', q);
    forall k, m | 0 <= k < |w'.server.requests| && 0 <= m < |w'.server.table| && Ours(w', m)
      ensures Touches(w'.server, w'.server.requests[k], m) ==> PostedBy(w') == Some(k)
    {
      assert k < |w.server.requests| ==> (Touches(w.server, w.server.requests[k], m) ==> PostedBy(w) == Some(k));
    }
  }

  lemma {:induction false} ReadKeepsSafe(w: World, t: nat)
    requires Safe(w) && May(w, Read(t)) && w.store.refresh.Some?
    ensures Safe(After(w, Read(t)))
  {
    var w' := After(w, Read(t));
    var hash := w.store.refresh.value;
    StepKeepsInv(w.server, Present(hash));
    assert InLock(w.threads[t]);
    SentHandsOutNothing(w, w', Looking(hash));
    SentKeepsMine(w, w', Looking(hash));
    SentKeepsStore(w, w', Looking(hash));
    SentKeepsNoStrays(w, w', Looking(hash));
    var m: nat :| IsStoredToken(w, hash, m) && (IsUnused(w.server, m) || HeldByPosted(w, m));
    assert IsStoredToken(w', hash, m) && IsUnused(w'.server, m);
  }

  lemma {:induction false} ReceiveKeepsSafe(w: World, t: nat)
    requires Safe(w) && May(w, Receive(t))
    ensures Safe(After(w, Receive(t)))
  {
    var w' := After(w, Receive(t));
    var r := w.threads[t].r;
    var q := w.server.requests[r];
    assert InLock(w.threads[t]) && PostedBy(w) == Some(r) && PostedBy(w') == None;
    assert PostOk(w, r);
    forall m | WasSaved(w, m) ensures WasSaved(w', m) {
      var r0 :| 0 <= r0 < |w.server.requests| && r0 in w.mine && r0 !in w.pending && PostedBy(w) != Some(r0)
               && HandedOut(w.server.requests[r0], m);
    }
    forall m ensures Ours(w', m) ==> Ours(w, m) {}
    if q.Rotated? {
      assert Relies(w.server.table, q) && HandedOut(q, q.minted) && WasSaved(w', q.minted);
      assert IsStoredToken(w', w'.store.refresh.value, q.minted) && IsUnused(w'.server, q.minted);
    } else {
      RefusedKeepsStore(w, w', q);
    }
    forall k: nat | k in w'.mine ensures k < |w'.server.requests| && (PostedBy(w') != Some(k) ==> IsHarmless(w', k)) {
      assert k != r ==> IsHarmless(w, k);
    }
  }

  /** After a refusal the stored token is still unused: the refused request did not hold it. */
  lemma {:induction false} RefusedKeepsStore(w: World, w': World, q: Request)
    requires StoreOk(w) && PostedBy(w).Some? && PostedBy(w).value < |w.server.requests| && w.server.requests[PostedBy(w).value] == q
    requires q.Refused? && w'.store == w.store && w'.server == w.server
    requires forall m | WasSaved(w, m) :: WasSaved(w', m)
    ensures StoreOk(w')
  {
    if w.store.refresh.Some? {
      var m: nat :| IsStoredToken(w, w.store.refresh.value, m) && (IsUnused(w.server, m) || HeldByPosted(w, m));
      assert IsStoredToken(w', w.store.refresh.value, m) && IsUnused(w'.server, m);
    }
  }

  lemma {:induction false} StartLoginKeepsSafe(w: World, user: nat, device: nat, family: nat)
    requires Safe(w) && May(w, StartLogin(user, device, family))
    ensures Safe(After(w, StartLogin(user, device, family)))
  {
    var w' := After(w, StartLogin(user, device, family));
    var q := Opening(user, device, family);
    StepKeepsInv(w.server, SignIn(user, device, family));
    SentHandsOutNothing(w, w', q);
    SentKeepsMine(w, w', q);
    SentKeepsStore(w, w', q);
    SentKeepsNoStrays(w, w', q);
    if PostedBy(w).Some? && w.server.requests[PostedBy(w).value].Looking? {
      var hash := w.server.requests[PostedBy(w).value].hash;
      var m :| IsStoredToken(w, hash, m) && IsUnused(w.server, m);
      assert IsStoredToken(w', hash, m) && IsUnused(w'.server, m);
    }
  }

  lemma {:induction false} SaveLoginKeepsSafe(w: World, r: nat)
    requires Safe(w) && May(w, SaveLogin(r))
    ensures Safe(After(w, SaveLogin(r)))
  {
    var w' := After(w, SaveLogin(r));
    var q := w.server.requests[r];
    assert PostedBy(w') == PostedBy(w) != Some(r);
    forall m ensures Ours(w', m) ==> Ours(w, m) {}
    forall m | WasSaved(w, m) ensures WasSaved(w', m) {
      var r0 :| 0 <= r0 < |w.server.requests| && r0 in w.mine && r0 !in w.pending && PostedBy(w) != Some(r0)
               && HandedOut(w.server.requests[r0], m);
    }
    assert Relies(w.server.table, q) && HandedOut(q, q.minted) && WasSaved(w', q.minted);
    assert IsStoredToken(w', w'.store.refresh.value, q.minted) && IsUnused(w'.server, q.minted);
    SamePosted(w, w');
    forall k: nat | k in w'.mine ensures k < |w'.server.requests| && (PostedBy(w') != Some(k) ==> IsHarmless(w', k)) {
      assert PostedBy(w) != Some(k) ==> IsHarmless(w, k);
    }
  }

  lemma {:induction false} EventKeepsSafe(w: World, e: Event)
    requires Safe(w) && May(w, e) && !e.LoseAnswer?
    ensures Safe(After(w, e))
  {
    if e.Server? {
      ServerKeepsSafe(w, e.step);
    } else if e.Read? && w.store.refresh.Some? {
      ReadKeepsSafe(w, e.t);
    } else if e.Receive? {
      ReceiveKeepsSafe(w, e.t);
    } else if e.StartLogin? {
      StartLoginKeepsSafe(w, e.user, e.device, e.family);
    } else if e.SaveLogin? {
      SaveLoginKeepsSafe(w, e.r);
    } else {
      ThreadsOnly(w, e);
      SameViewIsSafe(w, After(w, e));
    }
  }

  lemma {:induction false} ThreadsOnly(w: World, e: Event)
    requires LockOk(w) && May(w, e)
    requires !e.Server? && !e.Receive? && !e.LoseAnswer? && !e.StartLogin? && !e.SaveLogin?
    requires e.Read? ==> w.store.refresh.None?
    ensures LockOk(After(w, e)) && PostedBy(After(w, e)) == PostedBy(w)
  {
  }

  lemma {:induction false} RunKeepsSafe(w: World, events: seq<Event>, w': World)
    requires Safe(w) && RunsTo(w, events, w') && NoAnswerLost(events)
    ensures Safe(w')
    decreases |events|
  {
    if events != [] {
      EventKeepsSafe(w, events[0]);
      assert forall i | 0 <= i < |events[1..]| :: events[1..][i] == events[i + 1];
      RunKeepsSafe(After(w, events[0]), events[1..], w');
    }
  }

  /**
   Any number of threads, in any interleaving with the server and with everybody
   else: no request of this app is taken for a replay, and the stored refresh
   token is used only while the lock holder's request is rotating it.
   */
  lemma {:induction false} NeverReplayed(events: seq<Event>, w: World)
    requires RunsTo(Start(), events, w) && NoAnswerLost(events)
    ensures forall r | r in w.mine :: r < |w.server.requests| && !w.server.requests[r].Burning? && !w.server.requests[r].Replayed?
    ensures forall m: nat | m < |w.server.table| && w.store.refresh == Some(w.server.table[m].hash) ::
      w.server.table[m].usedAt.Some? ==> HeldByPosted(w, m)
  {
    RunKeepsSafe(Start(), events, w);
    forall r | r in w.mine ensures !w.server.requests[r].Burning? && !w.server.requests[r].Replayed? {
      assert PostedBy(w) != Some(r) ==> IsHarmless(w, r);
      assert PostedBy(w) == Some(r) ==> PostOk(w, r);
    }
  }

  /** One lost answer, with another thread at the lock, makes the server revoke the family as stolen. */
  lemma {:induction false} LostAnswerReplays(w: World, t: nat, t': nat, m: nat) returns (events: seq<Event>, w': World, n: nat)
    requires Safe(w) && May(w, LoseAnswer(t)) && IsAt(w, t', Waiting)
    requires w.server.requests[w.threads[t].r].Rotated? && w.server.requests[w.threads[t].r].id == m
    requires m < |w.server.table| && w.store.refresh == Some(w.server.table[m].hash)
    ensures RunsTo(w, events, w') && n in w'.mine && n < |w'.server.requests| && w'.server.requests[n] == Burning(m)
    ensures events != [] && events[0] == LoseAnswer(t) && NoAnswerLost(events[1..])
  {
    AnswerLost(w, t, t', m);
    hide Safe, Inv, Relies, After, May;
    var w1 := After(w, LoseAnswer(t));
    var w2 := After(w1, Leave(t));
    events, w', n := WaiterReplays(w2, t', m);
    Then(w1, Leave(t), events, w');
    Then(w, LoseAnswer(t), [Leave(t)] + events, w');
    events := [LoseAnswer(t)] + ([Leave(t)] + events);
  }

  /** The lock is free again, and the store still has the token that the lost answer replaced. */
  lemma {:induction false} AnswerLost(w: World, t: nat, t': nat, m: nat)
    requires Safe(w) && May(w, LoseAnswer(t)) && IsAt(w, t', Waiting)
    requires w.server.requests[w.threads[t].r].Rotated? && w.server.requests[w.threads[t].r].id == m
    requires m < |w.server.table|
    ensures May(After(w, LoseAnswer(t)), Leave(t))
    ensures var w' := After(After(w, LoseAnswer(t)), Leave(t));
      IsAt(w', t', Waiting) && w'.holder.None? && w'.server == w.server && w'.store == w.store
    ensures IsSound(w.server.table) && w.server.table[m].kind == Refresh && w.server.table[m].usedAt.Some?
  {
    assert InLock(w.threads[t]) && Relies(w.server.table, w.server.requests[w.threads[t].r]);
  }

  lemma {:induction false} WaiterReplays(w: World, t: nat, m: nat) returns (events: seq<Event>, w': World, n: nat)
    requires IsSound(w.server.table) && IsAt(w, t, Waiting) && w.holder.None?
    requires m < |w.server.table| && w.server.table[m].kind == Refresh && w.server.table[m].usedAt.Some?
    requires w.store.refresh == Some(w.server.table[m].hash)
    ensures RunsTo(w, events, w') && n in w'.mine && n < |w'.server.requests| && w'.server.requests[n] == Burning(m)
    ensures NoAnswerLost(events)
  {
    n := |w.server.requests|;
    var look := Server(Advance(n, Input(0, true, "", 0)));
    var w1 := After(w, Enter(t));
    var w2 := After(w1, Read(t));
    w' := After(w2, look);
    WaiterFinds(w, t, m);
    hide *;
    Then(w2, look, [], w');
    Then(w1, Read(t), [look] + [], w');
    Then(w, Enter(t), [Read(t)] + ([look] + []), w');
    events := [Enter(t)] + ([Read(t)] + ([look] + []));
  }

  lemma {:induction false} WaiterFinds(w: World, t: nat, m: nat)
    requires IsSound(w.server.table) && IsAt(w, t, Waiting) && w.holder.None?
    requires m < |w.server.table| && w.server.table[m].kind == Refresh && w.server.table[m].usedAt.Some?
    requires w.store.refresh == Some(w.server.table[m].hash)
    ensures
      var n := |w.server.requests|;
      var look := Server(Advance(n, Input(0, true, "", 0)));
      && May(w, Enter(t)) && May(After(w, Enter(t)), Read(t)) && May(After(After(w, Enter(t)), Read(t)), look)
      && var w' := After(After(After(w, Enter(t)), Read(t)), look);
         RunsTo(w', [], w') && n in w'.mine && n < |w'.server.requests| && w'.server.requests[n] == Burning(m)
  {
    LookupFinds(w.server.table, m);
  }

  lemma {:induction false} Then(w: World, e: Event, events: seq<Event>, w': World)
    requires May(w, e) && RunsTo(After(w, e), events, w')
    ensures RunsTo(w, [e] + events, w')
  {
  }

  // ---- one thread, from its 401 to the end

  lemma {:induction false} LastEvent(w: World, e: Event)
    requires May(w, e)
    ensures RunsTo(w, [e] + [], After(w, e))
  {
    Then(w, e, [], After(w, e));
  }

  /** Without a stored token, a 401 ends the session and nothing is sent. */
  lemma {:induction false} NoTokenEndsSession(w: World, t: nat)
    requires IsAt(w, t, Outside) && w.holder.None? && w.store.refresh.None?
    ensures RunsTo(w, [Unauthorised(t)] + ([Enter(t)] + ([Read(t)] + ([Leave(t)] + ([Clear(t)] + [])))), w.(store := Store(None, None)))
  {
    var w1 := w.(threads := w.threads[t := Waiting]);
    var w2 := w.(threads := w.threads[t := Entered], holder := Some(t));
    var w3 := w.(threads := w.threads[t := Answered(false)], holder := Some(t));
    var w4 := w.(threads := w.threads[t := Clearing]);
    var w5 := w.(store := Store(None, None));
    assert After(w, Unauthorised(t)) == w1 && After(w1, Enter(t)) == w2 && After(w2, Read(t)) == w3;
    assert w3.threads[t := Clearing] == w4.threads && w4.threads[t := Outside] == w.threads;
    assert After(w3, Leave(t)) == w4 && After(w4, Clear(t)) == w5;
    LastEvent(w4, Clear(t));
    Then(w3, Leave(t), [Clear(t)] + [], w5);
    Then(w2, Read(t), [Leave(t)] + ([Clear(t)] + []), w5);
    Then(w1, Enter(t), [Read(t)] + ([Leave(t)] + ([Clear(t)] + [])), w5);
    Then(w, Unauthorised(t), [Enter(t)] + ([Read(t)] + ([Leave(t)] + ([Clear(t)] + []))), w5);
  }

  /** With one, exactly that token is sent, and the thread waits inside the lock. */
  lemma {:induction false} StoredTokenIsSent(w: World, t: nat, token: string)
    requires IsAt(w, t, Outside) && w.holder.None? && w.store.refresh == Some(token)
    ensures
      var n := |w.server.requests|;
      RunsTo(w, [Unauthorised(t)] + ([Enter(t)] + ([Read(t)] + [])),
             w.(server := w.server.(requests := w.server.requests + [Looking(token)]), mine := w.mine + {n},
                holder := Some(t), threads := w.threads[t := Posted(n)]))
  {
    var n := |w.server.requests|;
    var w1 := w.(threads := w.threads[t := Waiting]);
    var w2 := w.(threads := w.threads[t := Entered], holder := Some(t));
    var w3 := w.(server := w.server.(requests := w.server.requests + [Looking(token)]), mine := w.mine + {n},
                 holder := Some(t), threads := w.threads[t := Posted(n)]);
    assert After(w, Unauthorised(t)) == w1 && After(w1, Enter(t)) == w2 && After(w2, Read(t)) == w3;
    LastEvent(w2, Read(t));
    Then(w1, Enter(t), [Read(t)] + [], w3);
    Then(w, Unauthorised(t), [Enter(t)] + ([Read(t)] + []), w3);
  }

  /** The thread's world after it has left the lock, with what the store then holds. */
  function LeftWith(w: World, t: nat, store: Store): World
    requires t < |w.threads|
  {
    w.(threads := w.threads[t := Outside], holder := None, store := store)
  }

  /** The answer decides: a rotation is stored, anything else ends the session; and the lock is free. */
  lemma {:induction false} AnswerDecides(w: World, t: nat)
    requires HasAnswer(w, t) && w.holder == Some(t)
    ensures
      var q := w.server.requests[w.threads[t].r];
      if q.Rotated?
      then RunsTo(w, [Receive(t)] + ([Leave(t)] + []),
                  LeftWith(w, t, Store(Some(w.server.table[q.access].hash), Some(w.server.table[q.minted].hash))))
      else RunsTo(w, [Receive(t)] + ([Leave(t)] + ([Clear(t)] + [])), LeftWith(w, t, Store(None, None)))
  {
    var q := w.server.requests[w.threads[t].r];
    var w1 := After(w, Receive(t));
    var w2 := After(w1, Leave(t));
    if q.Rotated? {
      assert w2.threads == w.threads[t := Outside];
      LastEvent(w1, Leave(t));
      Then(w, Receive(t), [Leave(t)] + [], w2);
    } else {
      var w3 := After(w2, Clear(t));
      assert w3.threads == w.threads[t := Outside];
      LastEvent(w2, Clear(t));
      Then(w1, Leave(t), [Clear(t)] + [], w3);
      Then(w, Receive(t), [Leave(t)] + ([Clear(t)] + []), w3);
    }
  }
}
