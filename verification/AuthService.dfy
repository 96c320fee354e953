/**
 `AuthService`: login, refresh rotation, session lookup and logout, each as the
 sequence of statements it runs. The contracts tie every method to the requests
 of `TokenInterleaving`: run alone, a method does what its request does there.
 */
module AuthService {
  import opened Text
  import opened TokenTable
  import opened TokenInterleaving

  datatype LoginError = UnknownUser | BadPassword | UserDisabled | DeviceNotBound | DeviceBlocked | DeviceNotAttested

  datatype User = User(id: nat, isActive: bool)

  datatype Device = Device(id: nat, user: nat, isBlocked: bool, isVerified: bool)

  datatype LoginResult = LoggedIn(access: nat, refresh: nat) | LoginFailed(error: LoginError)

  datatype RefreshResult = Issued(access: nat, refresh: nat) | UnknownRefreshToken | RefreshReuse | RefreshNotLive

  datatype Resolution = SessionOpened(session: Session) | AccessTokenNotLive | SessionNotAttested

  datatype Session = Session(user: nat, device: nat, token: nat, family: nat)

  /** A request that nothing interrupts, with what each of its statements takes from outside. */
  function Alone(t: Table, q: Request, inputs: seq<Input>): (Table, Request)
    decreases |inputs|
  {
    if inputs == [] || !IsUnfinished(q) || !InTable(t, q) then (t, q)
    else
      var (t', q') := Turn(t, q, inputs[0]);
      Alone(t', q', inputs[1..])
  }

  function RefreshAnswer(t: Table, hash: string, q: Request): RefreshResult {
    match q
    case Rotated(_, access, minted) => Issued(access, minted)
    case Replayed(_) => RefreshReuse
    case _ => if Lookup(t, hash, Refresh).None? then UnknownRefreshToken else RefreshNotLive
  }

  /** The tests of `login`, in its order. */
  function LoginCheck(user: Option<User>, passwordOk: bool, device: Option<Device>, strict: bool): Option<LoginError> {
    if user.None? then Some(UnknownUser)
    else if !passwordOk then Some(BadPassword)
    else if !user.value.isActive then Some(UserDisabled)
    else if device.None? || device.value.user != user.value.id then Some(DeviceNotBound)
    else if device.value.isBlocked then Some(DeviceBlocked)
    else if strict && !device.value.isVerified then Some(DeviceNotAttested)
    else None
  }

  /** `resolve_access_token`, as a function of the table. */
  function Resolve(t: Table, hash: string, now: int, allowed: bool, attested: bool): Resolution {
    match Lookup(t, hash, Access)
    case None => AccessTokenNotLive
    case Some(id) =>
      if !IsLive(t[id], now, allowed) then AccessTokenNotLive
      else if !attested then SessionNotAttested
      else SessionOpened(Session(t[id].user, t[id].device, id, t[id].family))
  }

  // ---- what the answers mean, in the fields of the row that is found

  const LOGIN_ERRORS: seq<LoginError> := [
    UnknownUser, BadPassword, UserDisabled, DeviceNotBound, DeviceBlocked, DeviceNotAttested
  ]

  /** What each refusal of a login says of the user and the device, in that order. */
  function LoginFaults(user: Option<User>, passwordOk: bool, device: Option<Device>, strict: bool): (faults: seq<bool>)
    ensures |faults| == |LOGIN_ERRORS|
  {
    [ user == None,
      !passwordOk,
      user.Some? && !user.value.isActive,
      user.Some? && !(device.Some? && device.value.user == user.value.id),
      device.Some? && device.value.isBlocked,
      device.Some? && strict && !device.value.isVerified ]
  }

  lemma {:induction false} FirstFaultRefusesLogin(user: Option<User>, passwordOk: bool, device: Option<Device>, strict: bool)
    ensures
      var k := FirstTrue(LoginFaults(user, passwordOk, device, strict));
      LoginCheck(user, passwordOk, device, strict) == if k < |LOGIN_ERRORS| then Some(LOGIN_ERRORS[k]) else None
  {
    hide FirstTrue;
    var faults := LoginFaults(user, passwordOk, device, strict);
    var k := FirstTrue(faults);
    FirstOfSix(faults);
  }

  /** `new_` is the table after token `i` was rotated into the last two rows. */
  predicate IsRotation(old_: Table, new_: Table, i: nat, at: seq<Input>) {
    && |at| == 5 && i < |old_| && |new_| == |old_| + 2
    && (forall k | 0 <= k < |old_| && k != i :: new_[k] == old_[k])
    && new_[i].usedAt.Some? && new_[i].revoked == Some(Revocation(at[2].now, "rotated"))
    && IsLater(old_[i], new_[i])
    && new_[|old_|] == Token(old_[i].family, old_[i].user, old_[i].device, Access, at[3].hash, Some(i), at[3].expiresAt, None, None)
    && new_[|old_| + 1]
         == Token(old_[i].family, old_[i].user, old_[i].device, Kind.Refresh, at[4].hash, Some(i), at[4].expiresAt, None, None)
  }

  /** What a refresh answers, and what it leaves of the table, by the row of the token presented. */
  ghost predicate AnswersByRow(old_: Table, new_: Table, hash: string, at: seq<Input>, r: RefreshResult) {
    && |at| == 5
    && (r.UnknownRefreshToken? <==> forall i :: !IsToken(old_, i, hash, Kind.Refresh))
    && (forall i: nat | IsToken(old_, i, hash, Kind.Refresh) ::
          var x := old_[i];
          && (r.RefreshReuse? <==> x.usedAt.Some?)
          && (r.Issued? <==> x.usedAt == None && x.revoked == None && at[0].now < x.expiresAt && at[0].allowed)
          && (r.RefreshReuse? ==> IsBurnt(old_, new_, x.family, at[1].now))
          && (r.Issued? ==> IsRotation(old_, new_, i, at) && r == Issued(|old_|, |old_| + 1)))
    && (r.UnknownRefreshToken? || r.RefreshNotLive? ==> new_ == old_)
  }

  /** Every row of the family is revoked, for reuse unless it was revoked before; nothing else changes. */
  predicate IsBurnt(old_: Table, new_: Table, family: nat, now: int) {
    |new_| == |old_| && forall i | 0 <= i < |old_| ::
      new_[i] == if old_[i].family == family && old_[i].revoked == None
                 then old_[i].(revoked := Some(Revocation(now, "refresh token reuse detected"))) else old_[i]
  }

  class AuthService {
    const tokens: TokenRepository

    constructor (tokens: TokenRepository)
      ensures this.tokens == tokens
    {
      this.tokens := tokens;
    }

    /** `issue_pair`: the access token, then the refresh token. */
    method IssuePair(user: nat, device: nat, family: nat, parent: Option<nat>, first: Input, second: Input)
      returns (access: nat, refresh: nat)
      requires IsFresh(tokens.table, first.hash) && IsFresh(tokens.table, second.hash) && first.hash != second.hash
      modifies tokens
      ensures access == |old(tokens.table)| && refresh == access + 1
      ensures tokens.table == old(tokens.table)
        + [Token(family, user, device, Access, first.hash, parent, first.expiresAt, None, None)]
        + [Token(family, user, device, Kind.Refresh, second.hash, parent, second.expiresAt, None, None)]
    {
      access := tokens.InsertRow(Token(family, user, device, Access, first.hash, parent, first.expiresAt, None, None));
      refresh := tokens.InsertRow(Token(family, user, device, Kind.Refresh, second.hash, parent, second.expiresAt, None, None));
    }

    /** A login that succeeds opens the family `family`, a new random number. */
    method Login(user: Option<User>, passwordOk: bool, device: Option<Device>, strict: bool, family: nat, first: Input, second: Input)
      returns (r: LoginResult)
      requires IsFresh(tokens.table, first.hash) && IsFresh(tokens.table, second.hash) && first.hash != second.hash
      modifies tokens
      ensures r.LoginFailed? <==> LoginCheck(user, passwordOk, device, strict).Some?
      ensures r.LoginFailed? ==> Some(r.error) == LoginCheck(user, passwordOk, device, strict) && tokens.table == old(tokens.table)
      ensures r.LoggedIn? ==> r == LoggedIn(|old(tokens.table)|, |old(tokens.table)| + 1)
      ensures r.LoggedIn? ==>
        tokens.table == old(tokens.table)
          + [Token(family, user.value.id, device.value.id, Access, first.hash, None, first.expiresAt, None, None)]
          + [Token(family, user.value.id, device.value.id, Kind.Refresh, second.hash, None, second.expiresAt, None, None)]
      ensures r.LoggedIn? ==>
        Alone(old(tokens.table), Opening(user.value.id, device.value.id, family), [first, second])
          == (tokens.table, Opened(family, r.access, r.refresh))
    {
      if user.None? { return LoginFailed(UnknownUser); }
      if !passwordOk { return LoginFailed(BadPassword); }
      if !user.value.isActive { return LoginFailed(UserDisabled); }
      if device.None? || device.value.user != user.value.id { return LoginFailed(DeviceNotBound); }
      if device.value.isBlocked { return LoginFailed(DeviceBlocked); }
      if strict && !device.value.isVerified { return LoginFailed(DeviceNotAttested); }
      OpeningAlone(tokens.table, user.value.id, device.value.id, family, first, second);
      var access, refresh := IssuePair(user.value.id, device.value.id, family, None, first, second);
      return LoggedIn(access, refresh);
    }

    /** `at` is what the five statements of a rotation take from outside; a replay uses the first two. */
    method Refresh(hash: string, at: seq<Input>) returns (r: RefreshResult, ghost q: Request)
      requires |at| == 5 && IsSound(tokens.table)
      requires IsFresh(tokens.table, at[3].hash) && IsFresh(tokens.table, at[4].hash) && at[3].hash != at[4].hash
      modifies tokens
      ensures (tokens.table, q) == Alone(old(tokens.table), Looking(hash), at)
      ensures r == RefreshAnswer(old(tokens.table), hash, q) && !IsUnfinished(q)
      ensures q.Replayed? ==> q.id < |tokens.table| && IsDead(tokens.table, tokens.table[q.id].family)
      ensures AnswersByRow(old(tokens.table), tokens.table, hash, at, r)
    {
      ghost var t := tokens.table;
      RefreshAlone(t, hash, at);
      RefreshByRow(t, hash, at);
      q := Alone(t, Looking(hash), at).1;
      var found := tokens.Find(hash, Kind.Refresh);
      if found.None? { return UnknownRefreshToken, q; }
      var id := found.value;
      var record := tokens.table[id];
      if record.usedAt != None {
        Burn(id, at[1].now);
        return RefreshReuse, q;
      }
      if !IsLive(record, at[0].now, at[0].allowed) { return RefreshNotLive, q; }
      var access, refresh := Rotate(id, at[1].now, at[2].now, at[3], at[4]);
      return Issued(access, refresh), q;
    }

    /** A replay ends the family. */
    method Burn(id: nat, now: int)
      requires id < |tokens.table|
      modifies tokens
      ensures tokens.table == RevokeFamily(old(tokens.table), old(tokens.table)[id].family, now, "refresh token reuse detected")
      ensures id < |tokens.table| && IsDead(tokens.table, tokens.table[id].family)
    {
      RevokedFamilyIsDead(tokens.table, id, now, "refresh token reuse detected");
      ghost var t := tokens.table;
      var _ := tokens.RevokeAllOf(tokens.table[id].family, now, "refresh token reuse detected");
      assert tokens.table == RevokeFamily(t, t[id].family, now, "refresh token reuse detected");
    }

    /** Uses the token up and issues its successors. */
    method Rotate(id: nat, usedAt: int, retiredAt: int, first: Input, second: Input) returns (access: nat, refresh: nat)
      requires id < |tokens.table|
      requires IsFresh(tokens.table, first.hash) && IsFresh(tokens.table, second.hash) && first.hash != second.hash
      modifies tokens
      ensures access == |old(tokens.table)| && refresh == access + 1
      ensures
        var x := old(tokens.table)[id];
        tokens.table == Revoke(MarkUsed(old(tokens.table), id, usedAt), id, retiredAt, "rotated")
          + [Token(x.family, x.user, x.device, Access, first.hash, Some(id), first.expiresAt, None, None)]
          + [Token(x.family, x.user, x.device, Kind.Refresh, second.hash, Some(id), second.expiresAt, None, None)]
    {
      var record := tokens.table[id];
      tokens.Use(id, usedAt);
      tokens.RevokeOne(id, retiredAt, "rotated");
      access, refresh := IssuePair(record.user, record.device, record.family, Some(id), first, second);
    }

    method ResolveAccessToken(hash: string, now: int, allowed: bool, strict: bool, isVerified: bool)
      returns (r: Resolution)
      requires HashesUnique(tokens.table)
      ensures r == Resolve(tokens.table, hash, now, allowed, strict ==> isVerified)
      ensures r.AccessTokenNotLive? <==>
        forall i | IsToken(tokens.table, i, hash, Access) ::
          tokens.table[i].revoked.Some? || tokens.table[i].expiresAt <= now || !allowed
      ensures r.SessionNotAttested? ==> strict && !isVerified
      ensures r.SessionOpened? ==> (strict ==> isVerified) && (forall i | IsToken(tokens.table, i, hash, Access) ::
        r.session == Session(tokens.table[i].user, tokens.table[i].device, i, tokens.table[i].family))
    {
      var found := tokens.Find(hash, Access);
      if found.None? || !IsLive(tokens.table[found.value], now, allowed) { return AccessTokenNotLive; }
      if strict && !isVerified { return SessionNotAttested; }
      var record := tokens.table[found.value];
      return SessionOpened(Session(record.user, record.device, found.value, record.family));
    }

    /** After a logout the session's family is over. */
    method Logout(session: Session, allDevices: bool, now: int) returns (revoked: nat)
      requires session.token < |tokens.table| && IsSound(tokens.table)
      requires tokens.table[session.token].family == session.family && tokens.table[session.token].device == session.device
      modifies tokens
      ensures tokens.table ==
        if allDevices then RevokeDevice(old(tokens.table), session.device, now, "logout_all")
        else RevokeFamily(old(tokens.table), session.family, now, "logout")
      ensures IsDead(tokens.table, session.family)
      ensures revoked ==
        if allDevices then |LiveOnDevice(old(tokens.table), session.device)| else |LiveInFamily(old(tokens.table), session.family)|
    {
      assert forall i | 0 <= i < |tokens.table| :: SameOwner(tokens.table[session.token], tokens.table[i]);
      if allDevices {
        revoked := tokens.RevokeAllOn(session.device, now, "logout_all");
      } else {
        revoked := tokens.RevokeAllOf(session.family, now, "logout");
      }
      assert tokens.table[session.token].family == session.family;
    }
  }

  lemma {:induction false} AloneTurn(t: Table, q: Request, input: Input, more: seq<Input>)
    requires IsUnfinished(q) && InTable(t, q)
    ensures Alone(t, q, [input] + more) == Alone(Turn(t, q, input).0, Turn(t, q, input).1, more)
  {
  }

  lemma {:induction false} OpeningAlone(t: Table, user: nat, device: nat, family: nat, first: Input, second: Input)
    ensures Alone(t, Opening(user, device, family), [first, second]) ==
      (t + [Token(family, user, device, Access, first.hash, None, first.expiresAt, None, None)]
         + [Token(family, user, device, Kind.Refresh, second.hash, None, second.expiresAt, None, None)],
       Opened(family, |t|, |t| + 1))
  {
    var opening := Opening(user, device, family);
    assert [first, second] == [first] + ([second] + []);
    AloneTurn(t, opening, first, [second] + []);
    var (t', q') := Turn(t, opening, first);
    AloneTurn(t', q', second, []);
  }

  /** `refresh` without interruption. */
  lemma {:induction false} RefreshAlone(t: Table, hash: string, at: seq<Input>)
    requires |at| == 5
    ensures
      var q := Looked(t, hash, at[0]);
      Alone(t, Looking(hash), at) ==
        match q
        case Burning(id) => (RevokeFamily(t, t[id].family, at[1].now, "refresh token reuse detected"), Replayed(id))
        case Marking(id) =>
          var x := t[id];
          (Revoke(MarkUsed(t, id, at[1].now), id, at[2].now, "rotated")
             + [Token(x.family, x.user, x.device, Access, at[3].hash, Some(id), at[3].expiresAt, None, None)]
             + [Token(x.family, x.user, x.device, Kind.Refresh, at[4].hash, Some(id), at[4].expiresAt, None, None)],
           Rotated(id, |t|, |t| + 1))
        case _ => (t, q)
  {
    assert at == [at[0]] + ([at[1]] + ([at[2]] + ([at[3]] + ([at[4]] + []))));
    AloneTurn(t, Looking(hash), at[0], at[1..]);
    assert at[1..] == [at[1]] + ([at[2]] + ([at[3]] + ([at[4]] + [])));
    var q := Looked(t, hash, at[0]);
    if q.Burning? {
      AloneTurn(t, q, at[1], at[2..]);
      assert at[2..] == [at[2]] + ([at[3]] + ([at[4]] + []));
    } else if q.Marking? {
      RotationAlone(t, q.id, at[1], at[2], at[3], at[4]);
    }
  }

  lemma {:induction false} RefreshByRow(t: Table, hash: string, at: seq<Input>)
    requires |at| == 5 && HashesUnique(t)
    ensures
      var (t', q) := Alone(t, Looking(hash), at);
      AnswersByRow(t, t', hash, at, RefreshAnswer(t, hash, q))
  {
    RefreshAlone(t, hash, at);
    hide Alone;
    var (t', q) := Alone(t, Looking(hash), at);
    forall i: nat | IsToken(t, i, hash, Kind.Refresh) ensures Lookup(t, hash, Kind.Refresh) == Some(i) {
      LookupFinds(t, i);
    }
    match Lookup(t, hash, Kind.Refresh)
    case None =>
      assert q == Refused && t' == t;
      NoRow(t, hash, at);
    case Some(id) =>
      assert IsToken(t, id, hash, Kind.Refresh);
      if t[id].usedAt.Some? {
        BurntByFields(t, t[id].family, at[1].now);
      } else if t[id].revoked == None && at[0].now < t[id].expiresAt && at[0].allowed {
        RotatedByFields(t, id, at);
      } else {
        assert q == Refused && t' == t;
      }
      hide IsRotation, IsBurnt, Lookup, IsLive;
      OneRow(t, t', hash, at, RefreshAnswer(t, hash, q), id);
  }

  lemma {:induction false} NoRow(t: Table, hash: string, at: seq<Input>)
    requires |at| == 5 && forall i :: !IsToken(t, i, hash, Kind.Refresh)
    ensures AnswersByRow(t, t, hash, at, UnknownRefreshToken)
  {
  }

  /** What is true of the one row found is true of every row found. */
  lemma {:induction false} OneRow(old_: Table, new_: Table, hash: string, at: seq<Input>, r: RefreshResult, id: nat)
    requires |at| == 5 && IsToken(old_, id, hash, Kind.Refresh)
    requires forall i | IsToken(old_, i, hash, Kind.Refresh) :: i == id
    requires !r.UnknownRefreshToken? && (r.RefreshNotLive? ==> new_ == old_)
    requires
      var x := old_[id];
      && (r.RefreshReuse? <==> x.usedAt.Some?)
      && (r.Issued? <==> x.usedAt == None && x.revoked == None && at[0].now < x.expiresAt && at[0].allowed)
      && (r.RefreshReuse? ==> IsBurnt(old_, new_, x.family, at[1].now))
      && (r.Issued? ==> IsRotation(old_, new_, id, at) && r == Issued(|old_|, |old_| + 1))
    ensures AnswersByRow(old_, new_, hash, at, r)
  {
    hide IsBurnt, IsRotation;
  }

  lemma {:induction false} BurntByFields(t: Table, family: nat, now: int)
    ensures IsBurnt(t, RevokeFamily(t, family, now, "refresh token reuse detected"), family, now)
  {
    forall i | 0 <= i < |t| && t[i].family == family && t[i].revoked == None
      ensures Revoked(t[i], now, "refresh token reuse detected")
           == t[i].(revoked := Some(Revocation(now, "refresh token reuse detected"))) {
    }
  }

  lemma {:induction false} RotatedByFields(t: Table, id: nat, at: seq<Input>)
    requires |at| == 5 && id < |t| && t[id].revoked == None
    ensures
      var x := t[id];
      IsRotation(t, Revoke(MarkUsed(t, id, at[1].now), id, at[2].now, "rotated")
        + [Token(x.family, x.user, x.device, Access, at[3].hash, Some(id), at[3].expiresAt, None, None)]
        + [Token(x.family, x.user, x.device, Kind.Refresh, at[4].hash, Some(id), at[4].expiresAt, None, None)], id, at)
  {
  }

  lemma {:induction false} RotationAlone(t: Table, id: nat, i1: Input, i2: Input, i3: Input, i4: Input)
    requires id < |t|
    ensures
      var x := t[id];
      Alone(t, Marking(id), [i1] + ([i2] + ([i3] + ([i4] + [])))) ==
        (Revoke(MarkUsed(t, id, i1.now), id, i2.now, "rotated")
           + [Token(x.family, x.user, x.device, Access, i3.hash, Some(id), i3.expiresAt, None, None)]
           + [Token(x.family, x.user, x.device, Kind.Refresh, i4.hash, Some(id), i4.expiresAt, None, None)],
         Rotated(id, |t|, |t| + 1))
  {
    var t1 := MarkUsed(t, id, i1.now);
    var t2 := Revoke(t1, id, i2.now, "rotated");
    var t3 := Insert(t2, NewRow(t2, Minting(id), i3));
    AloneTurn(t, Marking(id), i1, [i2] + ([i3] + ([i4] + [])));
    AloneTurn(t1, Retiring(id), i2, [i3] + ([i4] + []));
    AloneTurn(t2, Minting(id), i3, [i4] + []);
    AloneTurn(t3, Rotating(id, |t|), i4, []);
  }

  function Advances(r: nat, inputs: seq<Input>): (steps: seq<Step>)
    ensures |steps| == |inputs|
  {
    if inputs == [] then [] else [Advance(r, inputs[0])] + Advances(r, inputs[1..])
  }

  /** The new tokens that the inputs bring are not in use. */
  predicate BringsFresh(t: Table, inputs: seq<Input>) {
    && (forall i | 0 <= i < |inputs| :: IsFresh(t, inputs[i].hash))
    && (forall i, j | 0 <= i < j < |inputs| :: inputs[i].hash != inputs[j].hash)
  }

  /** Running a request alone is a run of the interleaving machine in which only that request moves. */
  lemma {:induction false} AloneIsARun(s: State, r: nat, inputs: seq<Input>) returns (used: seq<Input>)
    requires Inv(s) && r < |s.requests| && BringsFresh(s.table, inputs)
    ensures
      var (t, q) := Alone(s.table, s.requests[r], inputs);
      Runs(s, Advances(r, used), State(t, s.requests[r := q]))
    decreases |inputs|
  {
    var q := s.requests[r];
    if inputs == [] || !IsUnfinished(q) || !InTable(s.table, q) {
      used := [];
      assert s.requests[r := q] == s.requests;
    } else {
      var step := Advance(r, inputs[0]);
      var next := Next(s, step);
      StepKeepsInv(s, step);
      StillFresh(s.table, q, inputs);
      var rest := AloneIsARun(next, r, inputs[1..]);
      used := [inputs[0]] + rest;
      assert used[1..] == rest;
      var (t, q') := Alone(s.table, q, inputs);
      assert next.requests[r := q'] == s.requests[r := q'];
      RunsThen(s, step, Advances(r, rest), State(t, s.requests[r := q']));
    }
  }

  lemma {:induction false} StillFresh(t: Table, q: Request, inputs: seq<Input>)
    requires inputs != [] && IsUnfinished(q) && InTable(t, q) && BringsFresh(t, inputs)
    ensures BringsFresh(Turn(t, q, inputs[0]).0, inputs[1..])
  {
  }

  /** No token of a family that is over opens a session. */
  lemma {:induction false} DeadFamilyResolvesNothing(t: Table, family: nat, hash: string, now: int, allowed: bool, attested: bool)
    requires IsDead(t, family)
    ensures var r := Resolve(t, hash, now, allowed, attested); r.SessionOpened? ==> r.session.family != family
  {
  }
}
