/**
 Runs from the empty table: a login, after which a family forks, or comes back
 after it was revoked. What `TokenInterleaving` says of every state is so shown to
 be met by states that are reached.
 */
module TokenRuns {
  import opened Text
  import opened TokenTable
  import opened TokenInterleaving

  function LoginRow(kind: Kind, user: nat, device: nat, family: nat, hash: string): Token {
    Token(family, user, device, kind, hash, None, 1, None, None)
  }

  /** One login, finished, that handed out access token `a` and refresh token `b`. */
  function SignedIn(user: nat, device: nat, family: nat, a: string, b: string): State {
    State([LoginRow(Access, user, device, family, a), LoginRow(Refresh, user, device, family, b)], [Opened(family, 0, 1)])
  }

  /** That login after its first insertion. */
  function SigningIn(user: nat, device: nat, family: nat, a: string): State {
    State([LoginRow(Access, user, device, family, a)], [HalfOpen(user, device, family, 0)])
  }

  function Bring(r: nat, hash: string): Step { Advance(r, Input(0, true, hash, 1)) }

  lemma {:induction false} SignInSteps(user: nat, device: nat, family: nat, a: string, b: string)
    requires a != b
    ensures Enabled(Initial(), SignIn(user, device, family))
    ensures var s := Next(Initial(), SignIn(user, device, family));
      Enabled(s, Bring(0, a)) && Next(s, Bring(0, a)) == SigningIn(user, device, family, a)
    ensures var s := SigningIn(user, device, family, a);
      Enabled(s, Bring(0, b)) && Next(s, Bring(0, b)) == SignedIn(user, device, family, a, b)
  {
  }

  lemma {:induction false} SignInRun(user: nat, device: nat, family: nat, a: string, b: string) returns (steps: seq<Step>)
    requires a != b
    ensures Runs(Initial(), steps, SignedIn(user, device, family, a, b))
    ensures Inv(SignedIn(user, device, family, a, b))
  {
    var s := SignedIn(user, device, family, a, b);
    SignInSteps(user, device, family, a, b);
    hide Next, Enabled;
    RunsThen(SigningIn(user, device, family, a), Bring(0, b), [], s);
    RunsThen(Next(Initial(), SignIn(user, device, family)), Bring(0, a), [Bring(0, b)] + [], s);
    steps := [SignIn(user, device, family)] + ([Bring(0, a)] + ([Bring(0, b)] + []));
    RunsThen(Initial(), SignIn(user, device, family), [Bring(0, a)] + ([Bring(0, b)] + []), s);
    RunKeepsInv(Initial(), steps, s);
  }

  /** From the empty table: one login and two overlapping refreshes, and the family is no longer a chain. */
  lemma {:induction false} ForkHappens(user: nat, device: nat, family: nat) returns (steps: seq<Step>, s: State)
    ensures Runs(Initial(), steps, s) && !IsChain(s.table)
  {
    var login := SignInRun(user, device, family, "a", "b");
    var mid := SignedIn(user, device, family, "a", "b");
    var rest;
    rest, s := TwoLookupsFork(mid, 1);
    RunsAppend(Initial(), login, mid, rest, s);
    steps := login + rest;
  }

  /** A refresh has found the session's token live, and then the session is ended. */
  function EndedMidway(s: State, family: nat): State {
    State(RevokeFamily(s.table, family, 0, "logout"), s.requests + [Marking(1)])
  }

  lemma {:induction false} EndedSteps(user: nat, device: nat, family: nat, a: string, b: string)
    requires a != b
    ensures var s := SignedIn(user, device, family, a, b);
      && Enabled(s, Present(b)) && Enabled(Next(s, Present(b)), Bring(1, ""))
      && Next(Next(s, Present(b)), Bring(1, "")) == s.(requests := s.requests + [Marking(1)])
  {
    var s := SignedIn(user, device, family, a, b);
    LookupFinds(s.table, 1);
  }

  lemma {:induction false} EndedRun(user: nat, device: nat, family: nat, a: string, b: string) returns (steps: seq<Step>)
    requires a != b
    ensures Runs(SignedIn(user, device, family, a, b), steps, EndedMidway(SignedIn(user, device, family, a, b), family))
  {
    var s := SignedIn(user, device, family, a, b);
    var ended := EndedMidway(s, family);
    EndedSteps(user, device, family, a, b);
    var end := EndFamily(family, 0, "logout");
    assert Enabled(s.(requests := s.requests + [Marking(1)]), end);
    assert Next(s.(requests := s.requests + [Marking(1)]), end) == ended;
    hide Next, Enabled;
    RunsThen(s.(requests := s.requests + [Marking(1)]), end, [], ended);
    RunsThen(Next(s, Present(b)), Bring(1, ""), [end] + [], ended);
    RunsThen(s, Present(b), [Bring(1, "")] + ([end] + []), ended);
    steps := [Present(b)] + ([Bring(1, "")] + ([end] + []));
  }

  /** The family that comes back does so by a new row; every row revoked before stays revoked. */
  lemma {:induction false} NewRowRevives(s: State, steps: seq<Step>, s': State, family: nat) returns (j: nat)
    requires Inv(s) && Runs(s, steps, s') && IsDead(s.table, family) && !IsDead(s'.table, family)
    ensures forall i | 0 <= i < |s.table| && s.table[i].family == family :: i < |s'.table| && s'.table[i].revoked.Some?
    ensures |s.table| <= j < |s'.table| && s'.table[j].family == family && s'.table[j].revoked.None?
  {
    RunKeepsInv(s, steps, s');
    assert forall i | 0 <= i < |s.table| :: IsLater(s.table[i], s'.table[i]);
    j :| j < |s'.table| && s'.table[j].family == family && s'.table[j].revoked.None?;
  }

  lemma {:induction false} EndedIsDead(user: nat, device: nat, family: nat, a: string, b: string)
    ensures var s := EndedMidway(SignedIn(user, device, family, a, b), family);
      IsDead(s.table, family) && 1 < |s.requests| && Feeds(s.table, s.requests[1], family)
  {
    RevokedFamilyIsDead(SignedIn(user, device, family, a, b).table, 1, 0, "logout");
  }

  /**
   From the empty table: a login, a refresh that finds the token live, a logout that
   revokes the whole family, and the refresh then inserts a live token into it.
   */
  lemma {:induction false} RevivalHappens(user: nat, device: nat, family: nat)
    returns (steps: seq<Step>, mid: State, more: seq<Step>, s: State, j: nat)
    ensures Runs(Initial(), steps, mid) && IsDead(mid.table, family) && !IsQuiet(mid, family)
    ensures Runs(mid, more, s) && |mid.table| <= j < |s.table|
    ensures s.table[j].family == family && s.table[j].revoked.None?
  {
    var login := SignInRun(user, device, family, "a", "b");
    var ended := EndedRun(user, device, family, "a", "b");
    mid := EndedMidway(SignedIn(user, device, family, "a", "b"), family);
    steps := login + ended;
    RunsAppend(Initial(), login, SignedIn(user, device, family, "a", "b"), ended, mid);
    RunKeepsInv(Initial(), steps, mid);
    EndedIsDead(user, device, family, "a", "b");
    more, s := Revive(mid, 1, family);
    j := NewRowRevives(mid, more, s, family);
  }
}
