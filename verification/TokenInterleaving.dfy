/**
 Token families when requests interleave: any number of logins, refreshes and
 logouts, each advancing one SQL statement at a time, in any order. `refresh` is
 not atomic, so what holds here is weaker than for one request at a time, and
 `ForkIff` and `StaysDeadIff` say by exactly how much.
 */
module TokenInterleaving {
  import opened Text
  import opened TokenTable

  /** How far a request has come; each constructor names the statement that is next. */
  datatype Request =
    | Looking(hash: string)
    | Marking(id: nat)
    | Retiring(id: nat)
    | Minting(id: nat)
    | Rotating(id: nat, access: nat)
    | Rotated(id: nat, access: nat, minted: nat)
    | Burning(id: nat)
    | Replayed(id: nat)
    | Refused
    | Opening(user: nat, device: nat, family: nat)
    | HalfOpen(user: nat, device: nat, family: nat, access: nat)
    | Opened(family: nat, access: nat, minted: nat)

  /** What a statement takes from outside: the clock, whether user and device are allowed, a new token. */
  datatype Input = Input(now: int, allowed: bool, hash: string, expiresAt: int)

  datatype State = State(table: Table, requests: seq<Request>)

  datatype Step =
    | Present(hash: string)
    | SignIn(user: nat, device: nat, family: nat)
    | Advance(r: nat, input: Input)
    | Abandon(r: nat)
    | EndFamily(family: nat, now: int, reason: string)
    | EndDevice(device: nat, now: int, reason: string)

  function Initial(): State { State([], []) }

  predicate IsUnfinished(q: Request) {
    q.Looking? || q.Marking? || q.Retiring? || q.Minting? || q.Rotating? || q.Burning? || q.Opening? || q.HalfOpen?
  }

  predicate Inserts(q: Request) {
    q.Minting? || q.Rotating? || q.Opening? || q.HalfOpen?
  }

  /** The row that a request's next statement inserts. */
  function NewRow(t: Table, q: Request, input: Input): Token
    requires Inserts(q)
    requires q.Minting? ==> q.id < |t|
    requires q.Rotating? ==> q.id < |t|
  {
    match q
    case Minting(id) =>
      Token(t[id].family, t[id].user, t[id].device, Access, input.hash, Some(id), input.expiresAt, None, None)
    case Rotating(id, _) =>
      Token(t[id].family, t[id].user, t[id].device, Refresh, input.hash, Some(id), input.expiresAt, None, None)
    case Opening(user, device, family) =>
      Token(family, user, device, Access, input.hash, None, input.expiresAt, None, None)
    case HalfOpen(user, device, family, _) =>
      Token(family, user, device, Refresh, input.hash, None, input.expiresAt, None, None)
  }

  /** `lookup` and the tests on the record it returns. */
  function Looked(t: Table, hash: string, input: Input): Request {
    match Lookup(t, hash, Refresh)
    case None => Refused
    case Some(id) =>
      if t[id].usedAt.Some? then Burning(id)
      else if IsLive(t[id], input.now, input.allowed) then Marking(id)
      else Refused
  }

  predicate InTable(t: Table, q: Request) {
    match q
    case Marking(id) => id < |t|
    case Retiring(id) => id < |t|
    case Minting(id) => id < |t|
    case Rotating(id, _) => id < |t|
    case Burning(id) => id < |t|
    case _ => true
  }

  /** The next statement of a request. */
  function Turn(t: Table, q: Request, input: Input): (Table, Request)
    requires InTable(t, q)
  {
    match q
    case Looking(hash) => (t, Looked(t, hash, input))
    case Marking(id) => (MarkUsed(t, id, input.now), Retiring(id))
    case Retiring(id) => (Revoke(t, id, input.now, "rotated"), Minting(id))
    case Minting(id) => (Insert(t, NewRow(t, q, input)), Rotating(id, |t|))
    case Rotating(id, access) => (Insert(t, NewRow(t, q, input)), Rotated(id, access, |t|))
    case Burning(id) => (RevokeFamily(t, t[id].family, input.now, "refresh token reuse detected"), Replayed(id))
    case Opening(user, device, family) => (Insert(t, NewRow(t, q, input)), HalfOpen(user, device, family, |t|))
    case HalfOpen(user, device, family, access) => (Insert(t, NewRow(t, q, input)), Opened(family, access, |t|))
    case _ => (t, q)
  }

  /** The family that a login is about to fill. */
  predicate Opens(q: Request, family: nat) {
    (q.Opening? || q.HalfOpen?) && q.family == family
  }

  predicate Enabled(s: State, step: Step) {
    match step
    case Present(_) => true
    case SignIn(_, _, family) =>
      && (forall i | 0 <= i < |s.table| :: s.table[i].family != family)
      && (forall r | 0 <= r < |s.requests| :: !Opens(s.requests[r], family))
    case Advance(r, input) =>
      r < |s.requests| && InTable(s.table, s.requests[r]) && IsUnfinished(s.requests[r])
      && (Inserts(s.requests[r]) ==> IsFresh(s.table, input.hash))
    case Abandon(r) => r < |s.requests| && IsUnfinished(s.requests[r])
    case EndFamily(_, _, _) => true
    case EndDevice(_, _, _) => true
  }

  function Next(s: State, step: Step): State
    requires Enabled(s, step)
  {
    match step
    case Present(hash) => s.(requests := s.requests + [Looking(hash)])
    case SignIn(user, device, family) => s.(requests := s.requests + [Opening(user, device, family)])
    case Advance(r, input) =>
      var (t, q) := Turn(s.table, s.requests[r], input);
      State(t, s.requests[r := q])
    case Abandon(r) => s.(requests := s.requests[r := Refused])
    case EndFamily(family, now, reason) => s.(table := RevokeFamily(s.table, family, now, reason))
    case EndDevice(device, now, reason) => s.(table := RevokeDevice(s.table, device, now, reason))
  }

  ghost predicate Runs(s: State, steps: seq<Step>, s': State)
    decreases |steps|
  {
    if steps == [] then s == s'
    else Enabled(s, steps[0]) && Runs(Next(s, steps[0]), steps[1..], s')
  }

  // ---- what every step keeps

  /** What a request relies on in the table. */
  predicate Relies(t: Table, q: Request) {
    match q
    case Looking(_) => true
    case Marking(id) => IsSpent(t, id, false, false)
    case Retiring(id) => IsSpent(t, id, true, false)
    case Minting(id) => IsSpent(t, id, true, true)
    case Rotating(id, access) => IsSpent(t, id, true, true) && access < |t|
    case Rotated(id, access, minted) => IsSpent(t, id, true, true) && access < |t| && IsMinted(t, minted, t[id].family, Some(id))
    case Burning(id) => IsSpent(t, id, true, false)
    case Replayed(id) => IsSpent(t, id, true, false)
    case Refused => true
    case Opening(user, device, family) => forall i | 0 <= i < |t| :: t[i].family != family
    case HalfOpen(user, device, family, access) =>
      access < |t| && forall i | 0 <= i < |t| && t[i].family == family :: t[i].kind == Access && t[i].user == user && t[i].device == device
    case Opened(family, access, minted) => access < |t| && IsMinted(t, minted, family, None)
  }

  predicate IsSpent(t: Table, id: nat, used: bool, revoked: bool) {
    id < |t| && t[id].kind == Refresh && (used ==> t[id].usedAt.Some?) && (revoked ==> t[id].revoked.Some?)
  }

  predicate IsMinted(t: Table, id: nat, family: nat, parent: Option<nat>) {
    id < |t| && t[id].kind == Refresh && t[id].family == family && t[id].parent == parent
  }

  ghost predicate AllRely(s: State) {
    forall r | 0 <= r < |s.requests| :: Relies(s.table, s.requests[r])
  }

  /** No two logins fill the same family. */
  ghost predicate OwnFamilies(s: State) {
    forall r, r', family | 0 <= r < r' < |s.requests| :: !(Opens(s.requests[r], family) && Opens(s.requests[r'], family))
  }

  /** The refresh token that a finished request handed out. */
  predicate HandedOut(q: Request, minted: int) {
    (q.Rotated? || q.Opened?) && q.minted == minted
  }

  /** No token is handed out twice, and every rotated token by the request that made it. */
  ghost predicate Ledger(s: State) {
    && (forall r, r', m | 0 <= r < r' < |s.requests| :: !(HandedOut(s.requests[r], m) && HandedOut(s.requests[r'], m)))
    && (forall j | 0 <= j < |s.table| && s.table[j].kind == Refresh && s.table[j].parent.Some? :: HasMaker(s, j))
  }

  ghost predicate HasMaker(s: State, j: int) {
    exists r | 0 <= r < |s.requests| :: s.requests[r].Rotated? && s.requests[r].minted == j
  }

  ghost predicate Inv(s: State) {
    IsSound(s.table) && AllRely(s) && OwnFamilies(s) && Ledger(s)
  }

  /** Marks do not disturb any request. */
  lemma {:induction false} ReliesSurvivesMarks(t: Table, t': Table, q: Request)
    requires Relies(t, q) && Marks(t, t')
    ensures Relies(t', q)
  {
  }

  lemma {:induction false} ReliesSurvivesInsert(t: Table, row: Token, q: Request)
    requires Relies(t, q) && !Opens(q, row.family)
    ensures Relies(Insert(t, row), q)
  {
  }

  lemma {:induction false} TurnMarks(t: Table, q: Request, input: Input)
    requires InTable(t, q) && Relies(t, q) && IsUnfinished(q) && !Inserts(q)
    ensures Marks(t, Turn(t, q, input).0)
    ensures Relies(Turn(t, q, input).0, Turn(t, q, input).1)
    ensures var q' := Turn(t, q, input).1; !q'.Opening? && !q'.HalfOpen? && !q'.Rotated? && !q'.Opened?
  {
  }

  lemma {:induction false} TurnMayInsert(s: State, r: nat, input: Input)
    requires Inv(s) && Enabled(s, Advance(r, input)) && Inserts(s.requests[r])
    ensures MayInsert(s.table, NewRow(s.table, s.requests[r], input))
  {
  }

  lemma {:induction false} TurnInserts(s: State, r: nat, input: Input)
    requires Inv(s) && Enabled(s, Advance(r, input)) && Inserts(s.requests[r])
    ensures Inv(Next(s, Advance(r, input))) && Keeps(s.table, Next(s, Advance(r, input)).table)
  {
    var q := s.requests[r];
    var row := NewRow(s.table, q, input);
    var s' := Next(s, Advance(r, input));
    TurnMayInsert(s, r, input);
    InsertKeepsSound(s.table, row);
    assert Relies(s.table, q);
    forall k | 0 <= k < |s'.requests| ensures Relies(s'.table, s'.requests[k]) {
      if k != r {
        OthersFamilyDiffers(s, r, input, k);
        ReliesSurvivesInsert(s.table, row, s.requests[k]);
      }
    }
    InsertLedger(s, r, input);
    hide IsSound, Relies, Ledger;
  }

  lemma {:induction false} InsertLedger(s: State, r: nat, input: Input)
    requires Inv(s) && Enabled(s, Advance(r, input)) && Inserts(s.requests[r])
    ensures Ledger(Next(s, Advance(r, input)))
  {
    var s' := Next(s, Advance(r, input));
    forall j | 0 <= j < |s'.table| && s'.table[j].kind == Refresh && s'.table[j].parent.Some? ensures HasMaker(s', j) {
      if j < |s.table| {
        assert HasMaker(s, j);
        var k :| 0 <= k < |s.requests| && s.requests[k].Rotated? && s.requests[k].minted == j;
        assert s'.requests[k] == s.requests[k];
      } else {
        assert s'.requests[r].Rotated?;
      }
    }
    forall k, k', m | 0 <= k < k' < |s'.requests| ensures !(HandedOut(s'.requests[k], m) && HandedOut(s'.requests[k'], m)) {
      HandedOutInTable(s, k);
      HandedOutInTable(s, k');
    }
  }

  lemma {:induction false} HandedOutInTable(s: State, k: nat)
    requires AllRely(s) && k < |s.requests|
    ensures forall m | HandedOut(s.requests[k], m) :: m < |s.table|
  {
  }

  /** A row goes into a family that no other login is filling. */
  lemma {:induction false} OthersFamilyDiffers(s: State, r: nat, input: Input, k: nat)
    requires Inv(s) && Enabled(s, Advance(r, input)) && Inserts(s.requests[r])
    requires k < |s.requests| && k != r
    ensures !Opens(s.requests[k], NewRow(s.table, s.requests[r], input).family)
  {
  }

  lemma {:induction false} StepKeepsInv(s: State, step: Step)
    requires Inv(s) && Enabled(s, step)
    ensures Inv(Next(s, step)) && Keeps(s.table, Next(s, step).table)
  {
    if step.Advance? && Inserts(s.requests[step.r]) {
      TurnInserts(s, step.r, step.input);
    } else {
      var s' := Next(s, step);
      if step.Advance? {
        assert Relies(s.table, s.requests[step.r]);
        TurnMarks(s.table, s.requests[step.r], step.input);
      }
      assert Marks(s.table, s'.table);
      MarksKeepSound(s.table, s'.table);
      forall k | 0 <= k < |s'.requests| ensures Relies(s'.table, s'.requests[k]) {
        if k < |s.requests| && s'.requests[k] == s.requests[k] {
          ReliesSurvivesMarks(s.table, s'.table, s.requests[k]);
        }
      }
      LedgerSurvives(s, s', step);
    }
  }

  lemma {:induction false} LedgerSurvives(s: State, s': State, step: Step)
    requires Inv(s) && Enabled(s, step) && s' == Next(s, step) && Marks(s.table, s'.table)
    requires step.Advance? ==> !Inserts(s.requests[step.r])
    ensures Ledger(s')
  {
    forall j | 0 <= j < |s'.table| && s'.table[j].kind == Refresh && s'.table[j].parent.Some? ensures HasMaker(s', j) {
      assert IsLater(s.table[j], s'.table[j]) && HasMaker(s, j);
      MakerSurvives(s, step, j);
    }
    HandOutsSurvive(s, step);
    hide Inv, Next, Marks;
  }

  /** A step that inserts nothing hands nothing out. */
  lemma {:induction false} HandOutsSurvive(s: State, step: Step)
    requires Ledger(s) && Enabled(s, step) && (step.Advance? ==> !Inserts(s.requests[step.r]))
    ensures var s' := Next(s, step);
      forall r, r', m | 0 <= r < r' < |s'.requests| :: !(HandedOut(s'.requests[r], m) && HandedOut(s'.requests[r'], m))
  {
    var s' := Next(s, step);
    forall r, m | 0 <= r < |s'.requests| && HandedOut(s'.requests[r], m) ensures r < |s.requests| && HandedOut(s.requests[r], m) {
    }
  }

  lemma {:induction false} MakerSurvives(s: State, step: Step, j: int)
    requires HasMaker(s, j) && Enabled(s, step)
    ensures HasMaker(Next(s, step), j)
  {
    var k :| 0 <= k < |s.requests| && s.requests[k].Rotated? && s.requests[k].minted == j;
    assert Next(s, step).requests[k] == s.requests[k];
  }

  lemma {:induction false} RunKeepsInv(s: State, steps: seq<Step>, s': State)
    requires Inv(s) && Runs(s, steps, s')
    ensures Inv(s') && Keeps(s.table, s'.table)
    decreases |steps|
  {
    if steps != [] {
      StepKeepsInv(s, steps[0]);
      RunKeepsInv(Next(s, steps[0]), steps[1..], s');
      KeepsTransitive(s.table, Next(s, steps[0]).table, s'.table);
    }
  }

  /** What every interleaving keeps: parents are spent when their children appear, and a family has one owner. */
  lemma {:induction false} EveryInterleaving(steps: seq<Step>, s: State, more: seq<Step>, s': State)
    requires Runs(Initial(), steps, s) && Runs(s, more, s')
    ensures ParentsSpent(s'.table) && OneOwner(s'.table) && OneRoot(s'.table)
    ensures Keeps(s.table, s'.table)
  {
    RunKeepsInv(Initial(), steps, s);
    RunKeepsInv(s, more, s');
  }

  // ---- forks

  predicate RotatedSame(q: Request, q': Request) {
    q.Rotated? && q'.Rotated? && q.id == q'.id
  }

  /** Two requests have rotated the same token. */
  ghost predicate RotatedTwice(s: State) {
    exists r, r' | 0 <= r < r' < |s.requests| :: RotatedSame(s.requests[r], s.requests[r'])
  }

  /** Families are single chains exactly when no token has been rotated by two requests. */
  lemma {:induction false} ForkIff(s: State)
    requires Inv(s)
    ensures IsChain(s.table) <==> !RotatedTwice(s)
    ensures !RotatedTwice(s) ==> OneUsable(s.table)
  {
    ChainIffForkless(s.table);
    if IsChain(s.table) {
      ChainHasOneUsable(s.table);
    }
    if r, r' :| 0 <= r < r' < |s.requests| && RotatedSame(s.requests[r], s.requests[r']) {
      RotationsAreSiblings(s, r, r');
    }
    if i, j :| AreSiblings(s.table, i, j) {
      SiblingsAreRotations(s, i, j);
    }
  }

  lemma {:induction false} RotationsAreSiblings(s: State, r: nat, r': nat)
    requires Inv(s) && r < r' < |s.requests| && RotatedSame(s.requests[r], s.requests[r'])
    ensures !Forkless(s.table)
  {
    assert Relies(s.table, s.requests[r]) && Relies(s.table, s.requests[r']);
    var m, m' := s.requests[r].minted, s.requests[r'].minted;
    assert HandedOut(s.requests[r], m) && HandedOut(s.requests[r'], m');
    assert AreSiblings(s.table, m, m') || AreSiblings(s.table, m', m);
  }

  lemma {:induction false} SiblingsAreRotations(s: State, i: int, j: int)
    requires Inv(s) && AreSiblings(s.table, i, j)
    ensures RotatedTwice(s)
  {
  }

  /** The request has found token `id` unused and live. */
  predicate Holds(q: Request, id: nat) {
    (q.Marking? || q.Retiring? || q.Minting? || q.Rotating? || q.Rotated?) && q.id == id
  }

  /** A lookup that finds a token which another request already holds. */
  ghost predicate Overlaps(s: State, step: Step)
    requires Enabled(s, step)
  {
    step.Advance? && s.requests[step.r].Looking? &&
    exists id, k | 0 <= k < |s.requests| :: Next(s, step).requests[step.r] == Marking(id) && Holds(s.requests[k], id)
  }

  ghost predicate OneHolder(s: State) {
    forall r, r', id | 0 <= r < r' < |s.requests| :: !(Holds(s.requests[r], id) && Holds(s.requests[r'], id))
  }

  /** Such a lookup comes after the other's lookup and before its mark: later, it is taken for a replay. */
  lemma {:induction false} OverlapIsBeforeMark(s: State, r: nat, input: Input, k: nat, id: nat)
    requires Inv(s) && Enabled(s, Advance(r, input)) && k < |s.requests| && s.requests[r].Looking?
    requires Next(s, Advance(r, input)).requests[r] == Marking(id) && Holds(s.requests[k], id)
    ensures s.requests[k] == Marking(id)
  {
  }

  ghost predicate RunsWithoutOverlap(s: State, steps: seq<Step>, s': State)
    decreases |steps|
  {
    if steps == [] then s == s'
    else Enabled(s, steps[0]) && !Overlaps(s, steps[0]) && RunsWithoutOverlap(Next(s, steps[0]), steps[1..], s')
  }

  lemma {:induction false} StepKeepsOneHolder(s: State, step: Step)
    requires OneHolder(s) && Enabled(s, step) && !Overlaps(s, step)
    ensures OneHolder(Next(s, step))
  {
  }

  lemma {:induction false} OneHolderRotatesOnce(s: State)
    requires OneHolder(s)
    ensures !RotatedTwice(s)
  {
    forall r, r' | 0 <= r < r' < |s.requests| ensures !RotatedSame(s.requests[r], s.requests[r']) {
      if s.requests[r].Rotated? {
        assert !(Holds(s.requests[r], s.requests[r].id) && Holds(s.requests[r'], s.requests[r].id));
      }
    }
  }

  /** As long as no two lookups of one token overlap, every family is a chain with at most one usable refresh token. */
  lemma {:induction false} NoOverlapNoFork(s: State, steps: seq<Step>, s': State)
    requires Inv(s) && OneHolder(s) && RunsWithoutOverlap(s, steps, s')
    ensures Inv(s') && OneHolder(s') && IsChain(s'.table) && OneUsable(s'.table)
    decreases |steps|
  {
    if steps == [] {
      OneHolderRotatesOnce(s);
      ForkIff(s);
    } else {
      StepKeepsInv(s, steps[0]);
      StepKeepsOneHolder(s, steps[0]);
      NoOverlapNoFork(Next(s, steps[0]), steps[1..], s');
    }
  }

  // ---- letting one request finish

  function AnyInput(t: Table): Input { Input(0, true, UnusedHash(t), 0) }

  lemma {:induction false} RunsThen(s: State, step: Step, steps: seq<Step>, s': State)
    requires Enabled(s, step) && Runs(Next(s, step), steps, s')
    ensures Runs(s, [step] + steps, s')
  {
  }

  predicate Rotates(q: Request) {
    q.Marking? || q.Retiring? || q.Minting? || q.Rotating?
  }

  function Remaining(q: Request): nat {
    if q.Marking? then 4 else if q.Retiring? then 3 else if q.Minting? then 2 else if q.Rotating? then 1 else 0
  }

  lemma {:induction false} AdvanceRotation(s: State, r: nat)
    requires Inv(s) && r < |s.requests| && Rotates(s.requests[r])
    ensures Enabled(s, Advance(r, AnyInput(s.table)))
    ensures var s' := Next(s, Advance(r, AnyInput(s.table)));
      && |s'.requests| == |s.requests| && s'.requests[r].id == s.requests[r].id
      && (Rotates(s'.requests[r]) || s'.requests[r].Rotated?)
      && Remaining(s'.requests[r]) + 1 == Remaining(s.requests[r])
      && forall k | 0 <= k < |s.requests| && k != r :: s'.requests[k] == s.requests[k]
  {
  }

  /** A request that holds a token can always finish, whatever the others have done. */
  lemma {:induction false} FinishRotation(s: State, r: nat) returns (steps: seq<Step>, s': State)
    requires Inv(s) && r < |s.requests| && Rotates(s.requests[r])
    ensures Runs(s, steps, s') && Inv(s') && |s'.requests| == |s.requests|
    ensures s'.requests[r].Rotated? && s'.requests[r].id == s.requests[r].id
    ensures forall k | 0 <= k < |s.requests| && k != r :: s'.requests[k] == s.requests[k]
    decreases Remaining(s.requests[r])
  {
    AdvanceRotation(s, r);
    var step := Advance(r, AnyInput(s.table));
    StepKeepsInv(s, step);
    var next := Next(s, step);
    if Rotates(next.requests[r]) {
      var rest;
      rest, s' := FinishRotation(next, r);
      RunsThen(s, step, rest, s');
      steps := [step] + rest;
    } else {
      steps, s' := [step], next;
      RunsThen(s, step, [], s');
    }
  }

  lemma {:induction false} RunsAppend(s: State, first: seq<Step>, mid: State, second: seq<Step>, s': State)
    requires Runs(s, first, mid) && Runs(mid, second, s')
    ensures Runs(s, first + second, s')
    decreases |first|
  {
    if first == [] {
      assert first + second == second;
    } else {
      RunsAppend(Next(s, first[0]), first[1..], mid, second, s');
      assert (first + second)[1..] == first[1..] + second;
    }
  }

  /** Overlapping lookups do fork the family when both requests are left to finish. */
  lemma {:induction false} OverlapForks(s: State, r: nat, r': nat, id: nat) returns (steps: seq<Step>, s': State)
    requires Inv(s) && r < r' < |s.requests| && s.requests[r] == Marking(id) && s.requests[r'] == Marking(id)
    ensures Runs(s, steps, s') && !IsChain(s'.table)
  {
    var first, mid := FinishRotation(s, r);
    var second;
    second, s' := FinishRotation(mid, r');
    RunsAppend(s, first, mid, second, s');
    steps := first + second;
    assert RotatedSame(s'.requests[r], s'.requests[r']);
    ForkIff(s');
  }

  /** Every usable token can be forked: two lookups in a row are enough. */
  lemma {:induction false} TwoLookupsFork(s: State, id: nat) returns (steps: seq<Step>, s': State)
    requires Inv(s) && IsUsable(s.table, id)
    ensures Runs(s, steps, s') && !IsChain(s'.table)
  {
    var n, hash := |s.requests|, s.table[id].hash;
    var input := Input(s.table[id].expiresAt - 1, true, "", 0);
    LookupFinds(s.table, id);
    var first, second := Advance(n, input), Advance(n + 1, input);
    var s1 := Next(s, Present(hash));
    var s2 := Next(s1, Present(hash));
    var s3 := Next(s2, first);
    var s4 := Next(s3, second);
    StepKeepsInv(s, Present(hash));
    StepKeepsInv(s1, Present(hash));
    StepKeepsInv(s2, first);
    StepKeepsInv(s3, second);
    steps, s' := OverlapForks(s4, n, n + 1, id);
    RunsThen(s3, second, steps, s');
    RunsThen(s2, first, [second] + steps, s');
    RunsThen(s1, Present(hash), [first] + ([second] + steps), s');
    RunsThen(s, Present(hash), [Present(hash)] + ([first] + ([second] + steps)), s');
    steps := [Present(hash)] + ([Present(hash)] + ([first] + ([second] + steps)));
  }

  // ---- families that are over

  /** The request will still insert into the family. */
  predicate Feeds(t: Table, q: Request, family: nat) {
    match q
    case Marking(id) => id < |t| && t[id].family == family
    case Retiring(id) => id < |t| && t[id].family == family
    case Minting(id) => id < |t| && t[id].family == family
    case Rotating(id, _) => id < |t| && t[id].family == family
    case HalfOpen(_, _, f, _) => f == family
    case _ => false
  }

  ghost predicate IsQuiet(s: State, family: nat) {
    forall r | 0 <= r < |s.requests| :: !Feeds(s.table, s.requests[r], family)
  }

  /** Nothing that can still happen brings the family back. */
  ghost predicate StaysDead(s: State, family: nat) {
    forall steps, s' | Runs(s, steps, s') :: IsDead(s'.table, family)
  }

  lemma {:induction false} QuietStep(s: State, step: Step, family: nat)
    requires Inv(s) && Enabled(s, step) && IsDead(s.table, family) && IsQuiet(s, family)
    ensures IsDead(Next(s, step).table, family) && IsQuiet(Next(s, step), family)
  {
    var s' := Next(s, step);
    StepKeepsInv(s, step);
    if step.Advance? && Inserts(s.requests[step.r]) {
      InsertsElsewhere(s, step.r, step.input, family);
    }
    DeadSurvives(s.table, s'.table, family);
    forall r | 0 <= r < |s'.requests| ensures !Feeds(s'.table, s'.requests[r], family) {
      QuietRequest(s, step, family, r);
    }
  }

  lemma {:induction false} QuietRequest(s: State, step: Step, family: nat, r: nat)
    requires Inv(s) && Enabled(s, step) && IsDead(s.table, family) && IsQuiet(s, family)
    requires Keeps(s.table, Next(s, step).table) && r < |Next(s, step).requests|
    ensures !Feeds(Next(s, step).table, Next(s, step).requests[r], family)
  {
    if r < |s.requests| {
      var q := s.requests[r];
      assert Relies(s.table, q) && !Feeds(s.table, q, family);
      if step.Advance? && step.r == r {
        TurnStaysQuiet(s.table, q, step.input, family);
      } else {
        WaitStaysQuiet(s.table, Next(s, step).table, q, family);
      }
      hide Inv, IsDead, IsQuiet, Keeps, Relies, Feeds, Turn;
    }
  }

  /** A request that would not feed a dead family does not after its next statement either. */
  lemma {:induction false} TurnStaysQuiet(t: Table, q: Request, input: Input, family: nat)
    requires InTable(t, q) && IsDead(t, family) && !Feeds(t, q, family)
    requires q.Opening? ==> Relies(t, q)
    ensures !Feeds(Turn(t, q, input).0, Turn(t, q, input).1, family)
  {
    if q.Looking? {
      LookedIsQuiet(t, q.hash, input, family);
    }
  }

  lemma {:induction false} LookedIsQuiet(t: Table, hash: string, input: Input, family: nat)
    requires IsDead(t, family)
    ensures !Feeds(t, Looked(t, hash, input), family)
  {
  }

  lemma {:induction false} WaitStaysQuiet(t: Table, t': Table, q: Request, family: nat)
    requires Keeps(t, t') && Relies(t, q) && !Feeds(t, q, family)
    ensures !Feeds(t', q, family)
  {
  }

  lemma {:induction false} InsertsElsewhere(s: State, r: nat, input: Input, family: nat)
    requires Inv(s) && Enabled(s, Advance(r, input)) && Inserts(s.requests[r])
    requires IsDead(s.table, family) && IsQuiet(s, family)
    ensures NewRow(s.table, s.requests[r], input).family != family
  {
  }

  lemma {:induction false} DeadSurvives(t: Table, t': Table, family: nat)
    requires IsDead(t, family) && Keeps(t, t')
    requires forall i | |t| <= i < |t'| :: t'[i].family != family
    ensures IsDead(t', family)
  {
  }

  lemma {:induction false} QuietRun(s: State, steps: seq<Step>, s': State, family: nat)
    requires Inv(s) && Runs(s, steps, s') && IsDead(s.table, family) && IsQuiet(s, family)
    ensures IsDead(s'.table, family)
    decreases |steps|
  {
    if steps != [] {
      QuietStep(s, steps[0], family);
      StepKeepsInv(s, steps[0]);
      QuietRun(Next(s, steps[0]), steps[1..], s', family);
    }
  }

  lemma {:induction false} LivesAgain(t: Table, row: Token)
    requires row.revoked.None?
    ensures !IsDead(Insert(t, row), row.family)
  {
    assert Insert(t, row)[|t|] == row;
  }

  /** A request that still feeds the family can bring it back to life. */
  lemma {:induction false} Revive(s: State, r: nat, family: nat) returns (steps: seq<Step>, s': State)
    requires Inv(s) && r < |s.requests| && Feeds(s.table, s.requests[r], family)
    ensures Runs(s, steps, s') && !IsDead(s'.table, family)
    decreases Remaining(s.requests[r])
  {
    var input := AnyInput(s.table);
    var step := Advance(r, input);
    assert Relies(s.table, s.requests[r]);
    assert IsFresh(s.table, input.hash);
    var next := Next(s, step);
    if Inserts(s.requests[r]) {
      LivesAgain(s.table, NewRow(s.table, s.requests[r], input));
      steps, s' := [step], next;
      RunsThen(s, step, [], s');
    } else {
      StepKeepsInv(s, step);
      var rest;
      rest, s' := Revive(next, r, family);
      RunsThen(s, step, rest, s');
      steps := [step] + rest;
    }
  }

  /** A revoked family is over for good exactly when no request that found it live is still under way. */
  lemma {:induction false} StaysDeadIff(s: State, family: nat)
    requires Inv(s) && IsDead(s.table, family)
    ensures StaysDead(s, family) <==> IsQuiet(s, family)
  {
    if IsQuiet(s, family) {
      forall steps, s' | Runs(s, steps, s') ensures IsDead(s'.table, family) {
        QuietRun(s, steps, s', family);
      }
    }
    if r :| 0 <= r < |s.requests| && Feeds(s.table, s.requests[r], family) {
      var steps, s' := Revive(s, r, family);
    }
  }

  // ---- one request at a time

  ghost predicate AllFinished(s: State) {
    forall r | 0 <= r < |s.requests| :: !IsUnfinished(s.requests[r])
  }

  /** A request starts, or a session ends, only when every earlier request is finished. */
  ghost predicate IsInTurn(s: State, step: Step) {
    step.Advance? || step.Abandon? || AllFinished(s)
  }

  ghost predicate RunsInTurn(s: State, steps: seq<Step>, s': State)
    decreases |steps|
  {
    if steps == [] then s == s'
    else Enabled(s, steps[0]) && IsInTurn(s, steps[0]) && RunsInTurn(Next(s, steps[0]), steps[1..], s')
  }

  ghost predicate OneUnfinished(s: State) {
    forall r, r' | 0 <= r < r' < |s.requests| :: OneUnfinishedAt(s, r, r')
  }

  predicate OneUnfinishedAt(s: State, r: nat, r': nat)
    requires r < |s.requests| && r' < |s.requests|
  {
    !(IsUnfinished(s.requests[r]) && IsUnfinished(s.requests[r']))
  }

  lemma {:induction false} TurnsDoNotOverlap(s: State, steps: seq<Step>, s': State)
    requires Inv(s) && OneUnfinished(s) && RunsInTurn(s, steps, s')
    ensures RunsWithoutOverlap(s, steps, s')
    decreases |steps|
  {
    if steps != [] {
      NoOverlapInTurn(s, steps[0]);
      StepKeepsInv(s, steps[0]);
      TurnsDoNotOverlap(Next(s, steps[0]), steps[1..], s');
    }
  }

  lemma {:induction false} NoOverlapInTurn(s: State, step: Step)
    requires Inv(s) && OneUnfinished(s) && Enabled(s, step) && IsInTurn(s, step)
    ensures !Overlaps(s, step) && OneUnfinished(Next(s, step))
  {
    var s' := Next(s, step);
    forall r, r' | 0 <= r < r' < |s'.requests| ensures OneUnfinishedAt(s', r, r') {
      if r' < |s.requests| {
        assert OneUnfinishedAt(s, r, r');
      }
    }
    if step.Advance? && s.requests[step.r].Looking? {
      forall id, k | 0 <= k < |s.requests| && Next(s, step).requests[step.r] == Marking(id)
        ensures !Holds(s.requests[k], id)
      {
        var first, last := if k < step.r then k else step.r, if k < step.r then step.r else k;
        assert first < last ==> OneUnfinishedAt(s, first, last);
        if Holds(s.requests[k], id) {
          OverlapIsBeforeMark(s, step.r, step.input, k, id);
        }
      }
    }
  }

  /** Requests one at a time: at every point each family is a single chain with at most one usable refresh token. */
  lemma {:induction false} SerialFamilies(steps: seq<Step>, s: State)
    requires RunsInTurn(Initial(), steps, s)
    ensures IsChain(s.table) && OneUsable(s.table)
  {
    TurnsDoNotOverlap(Initial(), steps, s);
    NoOverlapNoFork(Initial(), steps, s);
  }

  /** Between requests, a family that is over is over for good. */
  lemma {:induction false} SerialEnd(s: State, family: nat)
    requires Inv(s) && AllFinished(s) && IsDead(s.table, family)
    ensures StaysDead(s, family)
  {
    forall r | 0 <= r < |s.requests| ensures !Feeds(s.table, s.requests[r], family) {
      assert !IsUnfinished(s.requests[r]);
    }
    StaysDeadIff(s, family);
  }
}
