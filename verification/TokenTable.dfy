/**
 The table `acs.tokens` and the statements that `TokenRepository` runs on it.

 A token's id is its position in the table; rows are never deleted. A `hash`
 stands for the token that hashes to it: `token_hash` is UNIQUE, and tokens are
 256 random bits.
 */
module TokenTable {
  import opened Text

  datatype Kind = Access | Refresh

  /** `revoked_at` and `revoked_reason`, which every statement sets together. */
  datatype Revocation = Revocation(at: int, reason: string)

  datatype Token = Token(
    family: nat, user: nat, device: nat, kind: Kind, hash: string, parent: Option<nat>, expiresAt: int,
    usedAt: Option<int>, revoked: Option<Revocation>)

  type Table = seq<Token>

  // ---- the statements

  predicate IsFresh(t: Table, hash: string) {
    forall i | 0 <= i < |t| :: t[i].hash != hash
  }

  predicate HashesUnique(t: Table) {
    forall i, j | 0 <= i < j < |t| :: t[i].hash != t[j].hash
  }

  function Insert(t: Table, row: Token): Table { t + [row] }

  /** `lookup`: the row with this hash, if it is of this kind. */
  function Lookup(t: Table, hash: string, kind: Kind): (r: Option<nat>)
    ensures r.Some? ==> r.value < |t| && t[r.value].hash == hash && t[r.value].kind == kind
    ensures r.None? ==> forall i | 0 <= i < |t| :: !(t[i].hash == hash && t[i].kind == kind)
  {
    if t == [] then None
    else if t[|t| - 1].hash == hash && t[|t| - 1].kind == kind then Some(|t| - 1)
    else Lookup(t[..|t| - 1], hash, kind)
  }

  /** Row `i` is the token that hashes to `hash`, and of that kind. */
  predicate IsToken(t: Table, i: int, hash: string, kind: Kind) {
    0 <= i < |t| && t[i].hash == hash && t[i].kind == kind
  }

  lemma {:induction false} LookupFinds(t: Table, i: nat)
    requires HashesUnique(t) && i < |t|
    ensures Lookup(t, t[i].hash, t[i].kind) == Some(i)
  {
  }

  function MarkedUsed(x: Token, now: int): (y: Token)
    ensures x.usedAt.Some? ==> y == x
    ensures x.usedAt.None? ==> y.usedAt == Some(now) && y.(usedAt := None) == x
  {
    if x.usedAt.None? then x.(usedAt := Some(now)) else x
  }

  function Revoked(x: Token, now: int, reason: string): (y: Token)
    ensures x.revoked.Some? ==> y == x
    ensures x.revoked.None? ==> y.revoked == Some(Revocation(now, reason)) && y.(revoked := None) == x
  {
    if x.revoked.None? then x.(revoked := Some(Revocation(now, reason))) else x
  }

  function MarkUsed(t: Table, id: nat, now: int): Table
    requires id < |t|
  {
    t[id := MarkedUsed(t[id], now)]
  }

  function Revoke(t: Table, id: nat, now: int, reason: string): Table
    requires id < |t|
  {
    t[id := Revoked(t[id], now, reason)]
  }

  function RevokeFamily(t: Table, family: nat, now: int, reason: string): (r: Table)
    ensures |r| == |t|
  {
    seq(|t|, i requires 0 <= i < |t| => if t[i].family == family then Revoked(t[i], now, reason) else t[i])
  }

  function RevokeDevice(t: Table, device: nat, now: int, reason: string): (r: Table)
    ensures |r| == |t|
  {
    seq(|t|, i requires 0 <= i < |t| => if t[i].device == device then Revoked(t[i], now, reason) else t[i])
  }

  /** `is_live`; `allowed` says that the user is active and the device not blocked. */
  predicate IsLive(x: Token, now: int, allowed: bool) {
    x.revoked.None? && x.expiresAt > now && allowed
  }

  /** Some hash is not in use. */
  function UnusedHash(t: Table): (h: string)
    ensures forall i | 0 <= i < |t| :: |t[i].hash| < |h|
  {
    if t == [] then "x"
    else
      var h := UnusedHash(t[..|t| - 1]);
      if |t[|t| - 1].hash| < |h| then h else seq(|t[|t| - 1].hash| + 1, _ => 'x')
  }

  /** The rows that a revocation of the family, or of the device, changes. */
  function LiveInFamily(t: Table, family: nat): set<int> {
    set i | 0 <= i < |t| && t[i].family == family && t[i].revoked.None?
  }

  function LiveOnDevice(t: Table, device: nat): set<int> {
    set i | 0 <= i < |t| && t[i].device == device && t[i].revoked.None?
  }

  lemma {:induction false} LiveInFamilyStep(t: Table, i: nat, family: nat)
    requires i < |t|
    ensures |LiveInFamily(t[..i + 1], family)| ==
      |LiveInFamily(t[..i], family)| + if t[i].family == family && t[i].revoked.None? then 1 else 0
  {
    assert LiveInFamily(t[..i + 1], family) ==
      LiveInFamily(t[..i], family) + if t[i].family == family && t[i].revoked.None? then {i} else {};
  }

  lemma {:induction false} LiveOnDeviceStep(t: Table, i: nat, device: nat)
    requires i < |t|
    ensures |LiveOnDevice(t[..i + 1], device)| ==
      |LiveOnDevice(t[..i], device)| + if t[i].device == device && t[i].revoked.None? then 1 else 0
  {
    assert LiveOnDevice(t[..i + 1], device) ==
      LiveOnDevice(t[..i], device) + if t[i].device == device && t[i].revoked.None? then {i} else {};
  }

  // ---- what no statement undoes

  /** The same row later: its identity is fixed, and a mark once set never changes. */
  predicate IsLater(x: Token, y: Token) {
    && y.family == x.family && y.user == x.user && y.device == x.device && y.kind == x.kind
    && y.hash == x.hash && y.parent == x.parent && y.expiresAt == x.expiresAt
    && (x.usedAt.Some? ==> y.usedAt == x.usedAt)
    && (x.revoked.Some? ==> y.revoked == x.revoked)
  }

  ghost predicate Keeps(t: Table, t': Table) {
    |t| <= |t'| && forall i | 0 <= i < |t| :: IsLater(t[i], t'[i])
  }

  lemma {:induction false} KeepsTransitive(t: Table, u: Table, v: Table)
    requires Keeps(t, u) && Keeps(u, v)
    ensures Keeps(t, v)
  {
  }

  // ---- families

  predicate IsRefreshOf(t: Table, i: int, family: nat) {
    0 <= i < |t| && t[i].kind == Refresh && t[i].family == family
  }

  /** A refresh token that the service would still rotate, expiry and blocking aside. */
  predicate IsUsable(t: Table, i: int) {
    0 <= i < |t| && t[i].kind == Refresh && t[i].usedAt.None? && t[i].revoked.None?
  }

  /** Every row's parent is an earlier refresh token of its family, already used and revoked. */
  predicate ParentSpent(t: Table, j: nat)
    requires j < |t|
  {
    t[j].parent.Some? ==>
      var p := t[j].parent.value;
      p < j && IsRefreshOf(t, p, t[j].family) && t[p].usedAt.Some? && t[p].revoked.Some?
  }

  ghost predicate ParentsSpent(t: Table) {
    forall j: nat | j < |t| :: ParentSpent(t, j)
  }

  predicate SameOwner(x: Token, y: Token) {
    x.family == y.family ==> x.user == y.user && x.device == y.device
  }

  /** A family has one user and one device. */
  ghost predicate OneOwner(t: Table) {
    forall i, j | 0 <= i < |t| && 0 <= j < |t| :: SameOwner(t[i], t[j])
  }

  predicate IsRoot(t: Table, i: int) {
    0 <= i < |t| && t[i].kind == Refresh && t[i].parent.None?
  }

  /** A family has one refresh token without a parent: the one its login issued. */
  ghost predicate OneRoot(t: Table) {
    forall i, j | IsRoot(t, i) && IsRoot(t, j) && t[i].family == t[j].family :: i == j
  }

  predicate AreSiblings(t: Table, i: int, j: int) {
    0 <= i < j < |t| && t[i].kind == Refresh && t[j].kind == Refresh && t[i].parent.Some? && t[i].parent == t[j].parent
  }

  /** No refresh token was rotated into two. */
  ghost predicate Forkless(t: Table) {
    forall i, j :: !AreSiblings(t, i, j)
  }

  ghost predicate Lineage(t: Table) {
    ParentsSpent(t) && OneRoot(t)
  }

  /** `t[j]` continues the family directly after its previous refresh token, or starts it. */
  ghost predicate FollowsPrevious(t: Table, j: int)
    requires 0 <= j < |t|
  {
    match t[j].parent
    case None => forall i | IsRefreshOf(t, i, t[j].family) :: i >= j
    case Some(p) => p < j && IsRefreshOf(t, p, t[j].family) && forall i | IsRefreshOf(t, i, t[j].family) :: i <= p || i >= j
  }

  /** The refresh tokens of every family, in the order they were issued, are a single chain of parents, all used but the last. */
  ghost predicate IsChain(t: Table) {
    && (forall j | 0 <= j < |t| && t[j].kind == Refresh :: FollowsPrevious(t, j))
    && (forall i, j | 0 <= i < j < |t| && t[i].kind == Refresh && t[j].kind == Refresh && t[i].family == t[j].family
          :: t[i].usedAt.Some?)
  }

  ghost predicate OneUsable(t: Table) {
    forall i, j | IsUsable(t, i) && IsUsable(t, j) && t[i].family == t[j].family :: i == j
  }

  lemma {:induction false} ChainHasOneUsable(t: Table)
    requires IsChain(t)
    ensures OneUsable(t)
  {
  }

  /** The first refresh token of the family after `i`. */
  lemma {:induction false} FirstAfter(t: Table, i: int, j: nat, family: nat) returns (first: nat)
    requires -1 <= i < j && IsRefreshOf(t, j, family)
    ensures i < first <= j && IsRefreshOf(t, first, family)
    ensures forall k | IsRefreshOf(t, k, family) :: k <= i || k >= first
  {
    first := j;
    var k := j - 1;
    while k > i
      invariant i <= k < first <= j && IsRefreshOf(t, first, family)
      invariant forall m | IsRefreshOf(t, m, family) :: m <= k || m >= first
    {
      if IsRefreshOf(t, k, family) { first := k; }
      k := k - 1;
    }
  }

  /** Where lineages are sound, being a chain is the same as never having forked. */
  lemma {:induction false} ChainIffForkless(t: Table)
    requires Lineage(t)
    ensures IsChain(t) <==> Forkless(t)
  {
    if IsChain(t) {
      forall i, j ensures !AreSiblings(t, i, j) {
        if AreSiblings(t, i, j) {
          SiblingsBreakChain(t, i, j);
        }
      }
    }
    if Forkless(t) {
      forall j | 0 <= j < |t| && t[j].kind == Refresh ensures FollowsPrevious(t, j) {
        ForklessFollows(t, j);
      }
      forall i, j | 0 <= i < j < |t| && t[i].kind == Refresh && t[j].kind == Refresh && t[i].family == t[j].family
        ensures t[i].usedAt.Some?
      {
        var next := FirstAfter(t, i, j, t[i].family);
        ForklessFollows(t, next);
        assert IsRefreshOf(t, i, t[next].family);
        assert ParentSpent(t, next);
      }
    }
  }

  lemma {:induction false} SiblingsBreakChain(t: Table, i: int, j: int)
    requires Lineage(t) && AreSiblings(t, i, j)
    ensures !IsChain(t)
  {
    assert ParentSpent(t, i) && ParentSpent(t, j);
    assert IsRefreshOf(t, i, t[j].family);
    assert !FollowsPrevious(t, j);
  }

  lemma {:induction false} ForklessFollows(t: Table, j: nat)
    requires Lineage(t) && Forkless(t) && j < |t| && t[j].kind == Refresh
    ensures FollowsPrevious(t, j)
    decreases j
  {
    var family := t[j].family;
    assert IsRefreshOf(t, j, family) && ParentSpent(t, j);
    var from := if t[j].parent.Some? then t[j].parent.value as int else -1;
    var next := FirstAfter(t, from, j, family);
    assert !AreSiblings(t, next, j) && IsRoot(t, j) == (from == -1);
    if next < j {
      ForklessFollows(t, next);
      FirstAfterParent(t, from, next);
      assert false;
    }
  }

  lemma {:induction false} FirstAfterParent(t: Table, from: int, next: nat)
    requires next < |t| && FollowsPrevious(t, next) && ParentSpent(t, next) && from < next
    requires from == -1 || IsRefreshOf(t, from, t[next].family)
    requires forall k | IsRefreshOf(t, k, t[next].family) :: k <= from || k >= next
    ensures t[next].parent == if from == -1 then None else Some(from)
    ensures t[next].kind == Refresh ==> IsRoot(t, next) == (from == -1)
  {
  }

  // ---- what statements keep

  /** The table after statements that only set marks. */
  ghost predicate Marks(t: Table, t': Table) {
    |t| == |t'| && Keeps(t, t')
  }

  ghost predicate IsSound(t: Table) {
    HashesUnique(t) && Lineage(t) && OneOwner(t)
  }

  lemma {:induction false} MarksKeepSound(t: Table, t': Table)
    requires IsSound(t) && Marks(t, t')
    ensures IsSound(t')
  {
    assert forall i | 0 <= i < |t| :: IsLater(t[i], t'[i]);
    forall j: nat | j < |t'| ensures ParentSpent(t', j) {
      assert ParentSpent(t, j);
      assert t[j].parent.Some? ==> IsRefreshOf(t, t[j].parent.value, t[j].family);
    }
    forall i, j | IsRoot(t', i) && IsRoot(t', j) && t'[i].family == t'[j].family ensures i == j {
      assert IsRoot(t, i) && IsRoot(t, j);
    }
    forall i, j | 0 <= i < |t'| && 0 <= j < |t'| ensures SameOwner(t'[i], t'[j]) {
      assert SameOwner(t[i], t[j]);
    }
  }

  /** What a new row must respect for the table to stay sound. */
  ghost predicate MayInsert(t: Table, row: Token) {
    && IsFresh(t, row.hash)
    && (row.parent.Some? ==>
          var p := row.parent.value;
          IsRefreshOf(t, p, row.family) && t[p].usedAt.Some? && t[p].revoked.Some?)
    && (forall i | 0 <= i < |t| :: SameOwner(t[i], row))
    && (row.kind == Refresh && row.parent.None? ==> forall i | IsRoot(t, i) :: t[i].family != row.family)
  }

  lemma {:induction false} InsertKeepsSound(t: Table, row: Token)
    requires IsSound(t) && MayInsert(t, row)
    ensures IsSound(Insert(t, row)) && Keeps(t, Insert(t, row))
  {
    var t' := Insert(t, row);
    assert forall i | 0 <= i < |t| :: t'[i] == t[i];
    forall j: nat | j < |t'| ensures ParentSpent(t', j) {
      if j < |t| {
        assert ParentSpent(t, j);
        assert t[j].parent.Some? ==> IsRefreshOf(t, t[j].parent.value, t[j].family);
      }
    }
    forall i, j | IsRoot(t', i) && IsRoot(t', j) && t'[i].family == t'[j].family ensures i == j {
      assert i < |t| ==> IsRoot(t, i);
      assert j < |t| ==> IsRoot(t, j);
    }
    forall i, j | 0 <= i < |t'| && 0 <= j < |t'| ensures SameOwner(t'[i], t'[j]) {
      if i < |t| && j < |t| {
        assert SameOwner(t[i], t[j]);
      }
    }
  }

  // ---- families that are over

  /** Every token of the family is revoked. */
  ghost predicate IsDead(t: Table, family: nat) {
    && (exists i | 0 <= i < |t| :: t[i].family == family)
    && forall i | 0 <= i < |t| && t[i].family == family :: t[i].revoked.Some?
  }

  lemma {:induction false} RevokedFamilyIsDead(t: Table, id: nat, now: int, reason: string)
    requires id < |t|
    ensures IsDead(RevokeFamily(t, t[id].family, now, reason), t[id].family)
  {
    assert RevokeFamily(t, t[id].family, now, reason)[id].family == t[id].family;
  }

  // ---- the repository

  class TokenRepository {
    var table: Table

    constructor ()
      ensures table == []
    {
      table := [];
    }

    method InsertRow(row: Token) returns (id: nat)
      requires IsFresh(table, row.hash)
      modifies this
      ensures id == |old(table)| && table == old(table) + [row]
    {
      id := |table|;
      table := table + [row];
    }

    method Find(hash: string, kind: Kind) returns (r: Option<nat>)
      ensures r == Lookup(table, hash, kind)
    {
      r := Lookup(table, hash, kind);
    }

    method Use(id: nat, now: int)
      requires id < |table|
      modifies this
      ensures table == MarkUsed(old(table), id, now)
    {
      if table[id].usedAt == None {
        table := table[id := table[id].(usedAt := Some(now))];
      }
    }

    method RevokeOne(id: nat, now: int, reason: string)
      requires id < |table|
      modifies this
      ensures table == Revoke(old(table), id, now, reason)
    {
      if table[id].revoked == None {
        table := table[id := table[id].(revoked := Some(Revocation(now, reason)))];
      }
    }

    /** Revokes the rows of a family that are not revoked, and tells how many. */
    method RevokeAllOf(family: nat, now: int, reason: string) returns (revoked: nat)
      modifies this
      ensures |table| == |old(table)|
      ensures forall i | 0 <= i < |table| ::
        table[i] == if old(table)[i].family == family then Revoked(old(table)[i], now, reason) else old(table)[i]
      ensures revoked == |LiveInFamily(old(table), family)|
    {
      revoked := 0;
      ghost var was := table;
      for i := 0 to |table|
        invariant |table| == |was| && revoked == |LiveInFamily(was[..i], family)|
        invariant forall k | 0 <= k < |table| ::
          table[k] == if k < i && was[k].family == family then Revoked(was[k], now, reason) else was[k]
      {
        LiveInFamilyStep(was, i, family);
        if table[i].family == family && table[i].revoked == None {
          table := table[i := table[i].(revoked := Some(Revocation(now, reason)))];
          revoked := revoked + 1;
        }
      }
      assert was[..|was|] == was;
    }

    /** The same for the rows of a device. */
    method RevokeAllOn(device: nat, now: int, reason: string) returns (revoked: nat)
      modifies this
      ensures |table| == |old(table)|
      ensures forall i | 0 <= i < |table| ::
        table[i] == if old(table)[i].device == device then Revoked(old(table)[i], now, reason) else old(table)[i]
      ensures revoked == |LiveOnDevice(old(table), device)|
    {
      revoked := 0;
      ghost var was := table;
      for i := 0 to |table|
        invariant |table| == |was| && revoked == |LiveOnDevice(was[..i], device)|
        invariant forall k | 0 <= k < |table| ::
          table[k] == if k < i && was[k].device == device then Revoked(was[k], now, reason) else was[k]
      {
        LiveOnDeviceStep(was, i, device);
        if table[i].device == device && table[i].revoked == None {
          table := table[i := table[i].(revoked := Some(Revocation(now, reason)))];
          revoked := revoked + 1;
        }
      }
      assert was[..|was|] == was;
    }
  }
}
