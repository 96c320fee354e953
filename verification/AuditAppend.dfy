/**
 Appending to the audit log: the trigger `audit_hash_chain`, first for one
 session at a time (class `AuditLog`), then for any number of concurrent
 transactions.

 A row's `seq` is a column default, so it is drawn before the trigger takes the
 advisory lock. Two transactions can therefore pass the lock in the opposite
 order of their sequence numbers, and the verifier, which reads in sequence
 order, then rejects an honest log. `CommittedLogVerifies` says exactly when.
 */
module AuditAppend {
  import opened Text
  import opened AuditPayload
  import opened AuditChain

  // ---- the table in any order, and its ORDER BY seq

  function InsertBySeq(log: seq<Row>, r: Row): seq<Row> {
    if log == [] || r.entry.seqNo < log[0].entry.seqNo then [r] + log else [log[0]] + InsertBySeq(log[1..], r)
  }

  /** `SELECT * .. ORDER BY seq`. */
  function BySeq(table: seq<Row>): seq<Row> {
    if table == [] then [] else InsertBySeq(BySeq(table[..|table| - 1]), table[|table| - 1])
  }

  lemma {:induction false} InsertKeepsRows(log: seq<Row>, r: Row)
    ensures multiset(InsertBySeq(log, r)) == multiset(log) + multiset{r}
  {
    if log != [] {
      assert log == [log[0]] + log[1..];
      InsertKeepsRows(log[1..], r);
    }
  }

  lemma {:induction false} SortKeepsRows(table: seq<Row>)
    ensures multiset(BySeq(table)) == multiset(table)
  {
    if table != [] {
      var n := |table| - 1;
      assert table == table[..n] + [table[n]];
      SortKeepsRows(table[..n]);
      InsertKeepsRows(BySeq(table[..n]), table[n]);
    }
  }

  /** `ORDER BY seq DESC LIMIT 1`. */
  function HeadRow(table: seq<Row>): (r: Option<Row>)
    ensures r.None? <==> table == []
    ensures r.Some? ==> r.value in table && forall x | x in table :: x.entry.seqNo <= r.value.entry.seqNo
  {
    if table == [] then None
    else
      var n := |table| - 1;
      assert forall x | x in table :: x in table[..n] || x == table[n];
      var best := HeadRow(table[..n]);
      if best.Some? && best.value.entry.seqNo > table[n].entry.seqNo then best else Some(table[n])
  }

  function HeadHash(table: seq<Row>): string {
    match HeadRow(table)
    case Some(r) => r.rowHash
    case None => Genesis()
  }

  /** What the trigger makes of a new row, given the rows it can see. */
  function ChainRow(sha: Sha256, table: seq<Row>, e: Entry): Row {
    Row(e, HeadHash(table), sha(HashInput(e, HeadHash(table))))
  }

  /** Every row was chained to the head of the rows that were committed before it. */
  predicate ChainedInTurn(sha: Sha256, table: seq<Row>) {
    forall i | 0 <= i < |table| :: InTurn(sha, table, i)
  }

  predicate InTurn(sha: Sha256, table: seq<Row>, i: nat)
    requires i < |table|
  {
    table[i] == ChainRow(sha, table[..i], table[i].entry)
  }

  predicate Ascending(table: seq<Row>) {
    forall i, j | 0 <= i < j < |table| :: table[i].entry.seqNo < table[j].entry.seqNo
  }

  predicate Distinct(table: seq<Row>) {
    forall i, j | 0 <= i < j < |table| :: table[i].entry.seqNo != table[j].entry.seqNo
  }

  predicate Positive(table: seq<Row>) {
    forall r | r in table :: r.entry.seqNo >= 1
  }

  // ---- one session at a time

  class AuditLog {
    const sha: Sha256
    var nextSeq: int
    var table: seq<Row>

    ghost predicate Valid()
      reads this
    {
      && nextSeq >= 1
      && Ascending(table)
      && (forall r | r in table :: 1 <= r.entry.seqNo < nextSeq)
      && ChainedInTurn(sha, table)
    }

    constructor (sha: Sha256)
      ensures Valid() && table == [] && nextSeq == 1 && this.sha == sha
    {
      this.sha := sha;
      nextSeq := 1;
      table := [];
    }

    /** The BEFORE INSERT trigger: whatever hashes the caller sent are overwritten. */
    method AuditHashChain(new_: Row) returns (stored: Row)
      ensures stored == ChainRow(sha, table, new_.entry)
    {
      var head := HeadRow(table);
      var prev: string := if head.Some? then head.value.rowHash else Genesis();
      stored := new_.(prevHash := prev);
      stored := stored.(rowHash := sha(HashInput(stored.entry, prev)));
    }

    /** INSERT: draw `seq`, run the trigger, store the row. */
    method Append(e: Entry) returns (seqNo: int)
      requires Valid()
      modifies this
      ensures Valid()
      ensures seqNo == old(nextSeq) && nextSeq == seqNo + 1
      ensures table == old(table) + [ChainRow(sha, old(table), e.(seqNo := seqNo))]
    {
      seqNo := nextSeq;
      nextSeq := nextSeq + 1;
      var row := AuditHashChain(Row(e.(seqNo := seqNo), "", ""));
      ExtendInTurn(sha, table, row);
      ExtendAscending(table, row);
      table := table + [row];
    }

    /** In a single session every log the application can build verifies, from any start. */
    method Verify(from: int) returns (v: Verdict)
      requires Valid()
      ensures v.ok && v.firstBadSeq == None
    {
      AscendingIsSorted(table);
      InTurnVerifies(sha, table);
      AnySuffixVerifies(sha, table, from);
      v := VerifyAuditChain(sha, BySeq(table), from);
      VerdictIsChained(sha, StartHash(table, from), table[Below(table, from)..], v);
    }
  }

  // ---- facts about the sorted scan

  lemma {:induction false} ExtendAscending(table: seq<Row>, r: Row)
    requires Ascending(table) && r.entry.seqNo >= 1
    requires forall x | x in table :: 1 <= x.entry.seqNo < r.entry.seqNo
    ensures Ascending(table + [r]) && forall x | x in table + [r] :: 1 <= x.entry.seqNo < r.entry.seqNo + 1
  {
    assert forall i | 0 <= i < |table| :: table[i] in table;
  }

  lemma {:induction false} ExtendInTurn(sha: Sha256, table: seq<Row>, r: Row)
    requires ChainedInTurn(sha, table) && r == ChainRow(sha, table, r.entry)
    ensures ChainedInTurn(sha, table + [r])
  {
    var longer := table + [r];
    forall i | 0 <= i < |longer| ensures InTurn(sha, longer, i) {
      if i < |table| {
        assert InTurn(sha, table, i);
        assert longer[..i] == table[..i];
      } else {
        assert longer[..i] == table;
      }
    }
  }

  /** No row of the log has a number above `bound`. */
  predicate NoneAbove(log: seq<Row>, bound: int) {
    forall i | 0 <= i < |log| :: log[i].entry.seqNo <= bound
  }

  lemma {:induction false} InsertLast(log: seq<Row>, r: Row)
    requires NoneAbove(log, r.entry.seqNo)
    ensures InsertBySeq(log, r) == log + [r]
  {
    if log != [] {
      InsertLast(log[1..], r);
      assert log == [log[0]] + log[1..];
    }
  }

  lemma {:induction false} AscendingPrefix(table: seq<Row>, n: nat)
    requires Ascending(table) && n < |table|
    ensures Ascending(table[..n]) && NoneAbove(table[..n], table[n].entry.seqNo)
  {
  }

  lemma {:induction false} AscendingIsSorted(table: seq<Row>)
    requires Ascending(table)
    ensures BySeq(table) == table
  {
    if table != [] {
      var init, last := table[..|table| - 1], table[|table| - 1];
      AscendingPrefix(table, |table| - 1);
      AscendingIsSorted(init);
      InsertLast(init, last);
    }
  }

  lemma {:induction false} InsertKeepsOrder(log: seq<Row>, r: Row)
    requires Ascending(log) && forall x | x in log :: x.entry.seqNo != r.entry.seqNo
    ensures Ascending(InsertBySeq(log, r))
  {
    if log == [] || r.entry.seqNo < log[0].entry.seqNo {
      AscendingFrom(r, log);
    } else {
      assert log[0] in log;
      InsertKeepsOrder(log[1..], r);
      var rest := InsertBySeq(log[1..], r);
      InsertKeepsRows(log[1..], r);
      forall x | x in rest ensures log[0].entry.seqNo < x.entry.seqNo {
        assert x in multiset(rest);
        assert x in log[1..] || x == r;
      }
      AscendingFrom(log[0], rest);
    }
  }

  lemma {:induction false} AscendingFrom(first: Row, rest: seq<Row>)
    requires Ascending(rest) && forall x | x in rest :: first.entry.seqNo < x.entry.seqNo
    ensures Ascending([first] + rest)
  {
    assert forall i | 0 <= i < |rest| :: rest[i] in rest;
  }

  lemma {:induction false} SortedAscends(table: seq<Row>)
    requires Distinct(table)
    ensures Ascending(BySeq(table))
  {
    if table != [] {
      var n := |table| - 1;
      SortedAscends(table[..n]);
      SortKeepsRows(table[..n]);
      forall x | x in BySeq(table[..n]) ensures x.entry.seqNo != table[n].entry.seqNo {
        assert x in multiset(BySeq(table[..n]));
        assert x in table[..n];
      }
      InsertKeepsOrder(BySeq(table[..n]), table[n]);
    }
  }

  lemma {:induction false} SameMembers(table: seq<Row>, r: Row)
    ensures r in table <==> r in BySeq(table)
  {
    SortKeepsRows(table);
    assert r in table <==> r in multiset(table);
    assert r in BySeq(table) <==> r in multiset(BySeq(table));
  }

  lemma {:induction false} HeadOfAscending(table: seq<Row>)
    requires Ascending(table) && table != []
    ensures HeadRow(table) == Some(table[|table| - 1])
  {
  }

  /** Rows chained in ascending order form one chain from genesis. */
  lemma {:induction false} InTurnVerifies(sha: Sha256, table: seq<Row>)
    requires Ascending(table) && ChainedInTurn(sha, table)
    ensures Chained(sha, Genesis(), table)
  {
    forall i | 0 <= i < |table| ensures Good(sha, Genesis(), table, i) {
      assert InTurn(sha, table, i);
      if i > 0 {
        HeadOfAscending(table[..i]);
      }
    }
  }

  lemma {:induction false} AnySuffixVerifies(sha: Sha256, log: seq<Row>, from: int)
    requires Ascending(log) && Positive(log) && Chained(sha, Genesis(), log)
    ensures Verifies(sha, log, from)
  {
    assert Numbered(log);
    BelowUnique(log, 0, 0);
    assert log[0..] == log;
    VerifyInTwoParts(sha, log, from);
  }

  // ---- concurrent transactions

  /** Where one transaction stands. `ticket` counts lock acquisitions. */
  datatype Txn =
    | Drawn(entry: Entry)
    | Locked(entry: Entry, ticket: nat)
    | HeadRead(entry: Entry, ticket: nat, prev: string)
    | Inserted(row: Row, ticket: nat)
  {
    function SeqNo(): int {
      if Inserted? then row.entry.seqNo else entry.seqNo
    }
    predicate Critical() { !Drawn? }
  }

  /** `table` is in commit order; `tickets[i]` is the lock acquisition of the transaction that wrote `table[i]`. */
  datatype State = State(
    nextSeq: int,
    acquisitions: nat,
    holder: Option<nat>,
    txns: map<nat, Txn>,
    table: seq<Row>,
    tickets: seq<nat>
  )

  datatype Step =
    | Draw(t: nat, e: Entry)
    | TakeLock(t: nat)
    | ReadHead(t: nat)
    | Insert(t: nat)
    | Commit(t: nat)
    | Abort(t: nat)

  function Initial(): State {
    State(1, 0, None, map[], [], [])
  }

  predicate Enabled(s: State, step: Step) {
    match step
    case Draw(t, e) => t !in s.txns
    case TakeLock(t) => t in s.txns && s.txns[t].Drawn? && s.holder.None?
    case ReadHead(t) => t in s.txns && s.txns[t].Locked?
    case Insert(t) => t in s.txns && s.txns[t].HeadRead?
    case Commit(t) => t in s.txns && s.txns[t].Inserted?
    case Abort(t) => t in s.txns
  }

  function Next(sha: Sha256, s: State, step: Step): State
    requires Enabled(s, step)
  {
    match step
    case Draw(t, e) =>
      s.(nextSeq := s.nextSeq + 1, txns := s.txns[t := Drawn(e.(seqNo := s.nextSeq))])
    case TakeLock(t) =>
      s.(acquisitions := s.acquisitions + 1, holder := Some(t), txns := s.txns[t := Locked(s.txns[t].entry, s.acquisitions)])
    case ReadHead(t) =>
      var x := s.txns[t];
      s.(txns := s.txns[t := HeadRead(x.entry, x.ticket, HeadHash(s.table))])
    case Insert(t) =>
      var x := s.txns[t];
      s.(txns := s.txns[t := Inserted(Row(x.entry, x.prev, sha(HashInput(x.entry, x.prev))), x.ticket)])
    case Commit(t) =>
      var x := s.txns[t];
      s.(holder := None, txns := s.txns - {t}, table := s.table + [x.row], tickets := s.tickets + [x.ticket])
    case Abort(t) =>
      s.(holder := if s.txns[t].Critical() then None else s.holder, txns := s.txns - {t})
  }

  /** The states reached by taking `steps` in order, when each is enabled. */
  predicate Runs(sha: Sha256, s: State, steps: seq<Step>, s': State)
    decreases |steps|
  {
    if steps == [] then s == s'
    else Enabled(s, steps[0]) && Runs(sha, Next(sha, s, steps[0]), steps[1..], s')
  }

  predicate Inv(sha: Sha256, s: State) {
    && OneHolder(s)
    && SeqsAreFresh(s)
    && TicketsAscend(s)
    && ChainedInTurn(sha, s.table)
    && forall t | t in s.txns :: ReadsCurrentHead(sha, s, s.txns[t])
  }

  /** The lock is held by exactly the transaction that is past it. */
  predicate OneHolder(s: State) {
    && (s.holder.Some? ==> s.holder.value in s.txns)
    && (forall t | t in s.txns :: s.txns[t].Critical() <==> s.holder == Some(t))
  }

  predicate SeqsAreFresh(s: State) {
    s.nextSeq >= 1 && FreshRows(s.table, s.nextSeq) && FreshTxns(s.txns, s.nextSeq) && Unclaimed(s.txns, s.table)
  }

  predicate FreshRows(table: seq<Row>, nextSeq: int) {
    Distinct(table) && forall i | 0 <= i < |table| :: 1 <= table[i].entry.seqNo < nextSeq
  }

  predicate FreshTxns(txns: map<nat, Txn>, nextSeq: int) {
    && (forall t | t in txns :: 1 <= txns[t].SeqNo() < nextSeq)
    && (forall t, u | t in txns && u in txns && t != u :: txns[t].SeqNo() != txns[u].SeqNo())
  }

  /** No open transaction has the number of a committed row. */
  predicate Unclaimed(txns: map<nat, Txn>, table: seq<Row>) {
    forall t, i | t in txns && 0 <= i < |table| :: txns[t].SeqNo() != table[i].entry.seqNo
  }

  predicate TicketsAscend(s: State) {
    && |s.tickets| == |s.table|
    && (forall i, j | 0 <= i < j < |s.tickets| :: s.tickets[i] < s.tickets[j])
    && (forall i | 0 <= i < |s.tickets| :: s.tickets[i] < s.acquisitions)
    && (forall t | t in s.txns && s.txns[t].Critical() ::
          s.txns[t].ticket < s.acquisitions
          && forall i | 0 <= i < |s.tickets| :: s.tickets[i] < s.txns[t].ticket)
  }

  /** What a transaction read inside the lock is still the head. */
  predicate ReadsCurrentHead(sha: Sha256, s: State, x: Txn) {
    && (x.HeadRead? ==> x.prev == HeadHash(s.table))
    && (x.Inserted? ==> x.row == ChainRow(sha, s.table, x.row.entry))
  }

  lemma {:induction false} StepKeepsHolder(sha: Sha256, s: State, step: Step)
    requires OneHolder(s) && Enabled(s, step)
    ensures OneHolder(Next(sha, s, step))
  {
  }

  lemma {:induction false} StepKeepsFreshSeqs(sha: Sha256, s: State, step: Step)
    requires SeqsAreFresh(s) && Enabled(s, step)
    ensures SeqsAreFresh(Next(sha, s, step))
  {
    var s' := Next(sha, s, step);
    RowsStayFresh(sha, s, step);
    TxnsStayFresh(sha, s, step);
    NumbersStayUnclaimed(sha, s, step);
    hide Next, FreshRows, FreshTxns, Unclaimed;
    assert s'.nextSeq >= 1;
  }

  lemma {:induction false} RowsStayFresh(sha: Sha256, s: State, step: Step)
    requires SeqsAreFresh(s) && Enabled(s, step)
    ensures Next(sha, s, step).nextSeq >= 1 && FreshRows(Next(sha, s, step).table, Next(sha, s, step).nextSeq)
  {
  }

  lemma {:induction false} NumbersStayUnclaimed(sha: Sha256, s: State, step: Step)
    requires SeqsAreFresh(s) && Enabled(s, step)
    ensures Unclaimed(Next(sha, s, step).txns, Next(sha, s, step).table)
  {
  }

  lemma {:induction false} TxnsStayFresh(sha: Sha256, s: State, step: Step)
    requires FreshTxns(s.txns, s.nextSeq) && s.nextSeq >= 1 && Enabled(s, step)
    ensures FreshTxns(Next(sha, s, step).txns, Next(sha, s, step).nextSeq)
  {
  }

  lemma {:induction false} StepKeepsTickets(sha: Sha256, s: State, step: Step)
    requires OneHolder(s) && TicketsAscend(s) && Enabled(s, step)
    ensures TicketsAscend(Next(sha, s, step))
  {
  }

  lemma {:induction false} StepKeepsChain(sha: Sha256, s: State, step: Step)
    requires Inv(sha, s) && Enabled(s, step)
    ensures ChainedInTurn(sha, Next(sha, s, step).table)
    ensures forall t | t in Next(sha, s, step).txns ::
              ReadsCurrentHead(sha, Next(sha, s, step), Next(sha, s, step).txns[t])
  {
    var s' := Next(sha, s, step);
    if step.Commit? {
      ExtendInTurn(sha, s.table, s.txns[step.t].row);
      forall t | t in s'.txns ensures ReadsCurrentHead(sha, s', s'.txns[t]) {
        assert !s.txns[t].Critical();
      }
    } else {
      forall t | t in s'.txns ensures ReadsCurrentHead(sha, s', s'.txns[t]) {
        assert t != step.t ==> ReadsCurrentHead(sha, s, s.txns[t]);
        assert step.Insert? ==> ReadsCurrentHead(sha, s, s.txns[step.t]);
      }
    }
  }

  lemma {:induction false} StepKeepsInv(sha: Sha256, s: State, step: Step)
    requires Inv(sha, s) && Enabled(s, step)
    ensures Inv(sha, Next(sha, s, step))
  {
    StepKeepsHolder(sha, s, step);
    StepKeepsFreshSeqs(sha, s, step);
    StepKeepsTickets(sha, s, step);
    StepKeepsChain(sha, s, step);
  }

  lemma {:induction false} RunKeepsInv(sha: Sha256, s: State, steps: seq<Step>, s': State)
    requires Inv(sha, s) && Runs(sha, s, steps, s')
    ensures Inv(sha, s')
    decreases |steps|
  {
    if steps != [] {
      StepKeepsInv(sha, s, steps[0]);
      RunKeepsInv(sha, Next(sha, s, steps[0]), steps[1..], s');
    }
  }

  /** Of any two committed rows, the one whose transaction passed the lock first has the lower number. */
  predicate TookLockInSeqOrder(s: State)
    requires |s.tickets| == |s.table|
  {
    forall i, j | 0 <= i < |s.table| && 0 <= j < |s.table| && s.tickets[i] < s.tickets[j] ::
      s.table[i].entry.seqNo < s.table[j].entry.seqNo
  }

  /** The strings that the trigger hashed for the committed rows. */
  function Written(table: seq<Row>): set<string> {
    set i | 0 <= i < |table| :: HashInput(table[i].entry, table[i].prevHash)
  }

  /** No two transactions are ever between taking the lock and ending, so no head is read twice. */
  lemma {:induction false} HeadReadIsExclusive(sha: Sha256, steps: seq<Step>, s: State, t: nat, u: nat)
    requires Runs(sha, Initial(), steps, s)
    requires t in s.txns && u in s.txns && s.txns[t].Critical() && s.txns[u].Critical()
    ensures t == u
  {
    RunKeepsInv(sha, Initial(), steps, s);
    assert s.holder == Some(t) && s.holder == Some(u);
  }

  /**
   Over every interleaving, the committed log verifies exactly when its rows took
   the lock in the order of their sequence numbers.
   */
  lemma {:induction false} CommittedLogVerifies(sha: Sha256, steps: seq<Step>, s: State)
    requires Runs(sha, Initial(), steps, s)
    ensures |s.tickets| == |s.table|
    ensures TookLockInSeqOrder(s) ==> Verifies(sha, BySeq(s.table), 0)
    ensures Verifies(sha, BySeq(s.table), 0) ==> TookLockInSeqOrder(s) || Broken(sha, Written(s.table))
  {
    RunKeepsInv(sha, Initial(), steps, s);
    LockOrderIsTableOrder(s);
    assert Positive(s.table);
    if Ascending(s.table) {
      AscendingIsSorted(s.table);
      InTurnVerifies(sha, s.table);
      AnySuffixVerifies(sha, s.table, 0);
    } else if Verifies(sha, BySeq(s.table), 0) {
      DisorderIsCaught(sha, s.table);
    }
  }

  /** Commits happen inside the lock, so the table is in lock order. */
  lemma {:induction false} LockOrderIsTableOrder(s: State)
    requires TicketsAscend(s)
    ensures TookLockInSeqOrder(s) <==> Ascending(s.table)
  {
  }

  /** The first row of the table whose number is below its predecessor's. */
  lemma {:induction false} FirstDescent(table: seq<Row>) returns (i: nat)
    requires !Ascending(table) && Distinct(table)
    ensures 0 < i < |table| && Ascending(table[..i]) && table[i].entry.seqNo < table[i - 1].entry.seqNo
    decreases |table|
  {
    var n := |table| - 1;
    if Ascending(table[..n]) {
      i := n;
      OneMoreAscends(table);
    } else {
      i := FirstDescent(table[..n]);
      assert table[..n][..i] == table[..i];
    }
  }

  lemma {:induction false} OneMoreAscends(table: seq<Row>)
    requires |table| > 1 && Ascending(table[..|table| - 1])
    ensures table[|table| - 2].entry.seqNo < table[|table| - 1].entry.seqNo ==> Ascending(table)
  {
    var n := |table| - 1;
    if table[n - 1].entry.seqNo < table[n].entry.seqNo {
      forall j, k | 0 <= j < k < |table| ensures table[j].entry.seqNo < table[k].entry.seqNo {
        assert table[..n][j] == table[j] && (k < n ==> table[..n][k] == table[k]);
        assert j < n - 1 ==> table[..n][j].entry.seqNo < table[..n][n - 1].entry.seqNo;
      }
    }
  }

  lemma {:induction false} WrittenRow(sha: Sha256, table: seq<Row>, r: Row)
    requires ChainedInTurn(sha, table) && r in table
    ensures HashInput(r.entry, r.prevHash) in Written(table)
    ensures r.rowHash == sha(HashInput(r.entry, r.prevHash))
    ensures |r.prevHash| == 32
  {
    var i :| 0 <= i < |table| && table[i] == r;
    assert InTurn(sha, table, i);
    var head := HeadRow(table[..i]);
    if head.Some? {
      var j :| 0 <= j < i && table[j] == head.value;
      assert InTurn(sha, table, j);
    }
  }

  /** The scan of a table in which the row after `high` in lock order comes before it in sequence order. */
  lemma {:induction false} DisorderIsCaught(sha: Sha256, table: seq<Row>)
    requires ChainedInTurn(sha, table) && Distinct(table) && Positive(table) && !Ascending(table)
    requires Verifies(sha, BySeq(table), 0)
    ensures Broken(sha, Written(table))
  {
    var log := BySeq(table);
    SortedAscends(table);
    FullScan(sha, table);
    var i := FirstDescent(table);
    var late, high := table[i], table[i - 1];
    HeadOfAscending(table[..i]);
    assert late.prevHash == high.rowHash by {
      assert InTurn(sha, table, i);
    }
    WrittenRow(sha, table, high);
    SameMembers(table, late);
    var m :| 0 <= m < |log| && log[m] == late;
    assert Good(sha, Genesis(), log, m);
    if m > 0 {
      SameMembers(table, log[m - 1]);
      assert log[m - 1].entry.seqNo < log[m].entry.seqNo;
      SharedHash(sha, table, log[m - 1], high);
    }
  }

  lemma {:induction false} FullScan(sha: Sha256, table: seq<Row>)
    requires Distinct(table) && Positive(table) && Verifies(sha, BySeq(table), 0)
    ensures Chained(sha, Genesis(), BySeq(table))
  {
    var log := BySeq(table);
    SortedAscends(table);
    forall r | r in log ensures r.entry.seqNo >= 1 {
      SameMembers(table, r);
    }
    BelowUnique(log, 0, 0);
    assert log[0..] == log;
  }

  lemma {:induction false} SharedHash(sha: Sha256, table: seq<Row>, x: Row, y: Row)
    requires ChainedInTurn(sha, table) && x in table && y in table
    requires x.entry.seqNo != y.entry.seqNo && x.rowHash == y.rowHash
    ensures Collision(sha, Written(table))
  {
    WrittenRow(sha, table, x);
    WrittenRow(sha, table, y);
    HashInputDeterminesRow(x.entry, x.prevHash, y.entry, y.prevHash);
  }

  // ---- the disorder is reachable

  /** Two transactions, numbered 1 and 2, of which the second passes the lock first. */
  function OvertakingRun(e: Entry): seq<Step> {
    [Draw(0, e), Draw(1, e),
     TakeLock(1), ReadHead(1), Insert(1), Commit(1),
     TakeLock(0), ReadHead(0), Insert(0), Commit(0)]
  }

  /** Running a sequence with one more step at its end. */
  lemma {:induction false} RunOneMore(sha: Sha256, s: State, steps: seq<Step>, mid: State, step: Step)
    requires Runs(sha, s, steps, mid) && Enabled(mid, step)
    ensures Runs(sha, s, steps + [step], Next(sha, mid, step))
    decreases |steps|
  {
    var longer := steps + [step];
    if steps == [] {
      assert longer[1..] == [];
    } else {
      RunOneMore(sha, Next(sha, s, steps[0]), steps[1..], mid, step);
      assert longer[1..] == steps[1..] + [step];
    }
  }

  lemma {:induction false} Take(sha: Sha256, s: State, steps: seq<Step>, i: nat) returns (s': State)
    requires i < |steps| && Runs(sha, Initial(), steps[..i], s) && Enabled(s, steps[i])
    ensures s' == Next(sha, s, steps[i]) && Runs(sha, Initial(), steps[..i + 1], s')
  {
    s' := Next(sha, s, steps[i]);
    RunOneMore(sha, Initial(), steps[..i], s, steps[i]);
    assert steps[..i] + [steps[i]] == steps[..i + 1];
  }

  /** One transaction, alone past the lock, from taking it to committing. */
  lemma {:induction false} TakeFour(sha: Sha256, s: State, steps: seq<Step>, i: nat, t: nat) returns (s': State)
    requires i + 4 <= |steps| && Runs(sha, Initial(), steps[..i], s)
    requires steps[i] == TakeLock(t) && steps[i + 1] == ReadHead(t) && steps[i + 2] == Insert(t) && steps[i + 3] == Commit(t)
    requires s.holder.None? && t in s.txns && s.txns[t].Drawn?
    ensures Runs(sha, Initial(), steps[..i + 4], s')
    ensures s'.holder.None? && s'.acquisitions == s.acquisitions + 1 && s'.txns == s.txns - {t}
    ensures s'.table == s.table + [ChainRow(sha, s.table, s.txns[t].entry)]
    ensures s'.tickets == s.tickets + [s.acquisitions]
  {
    FourAlone(sha, s, t);
    hide Next, Enabled, Runs, ChainRow;
    s' := Take(sha, s, steps, i);
    s' := Take(sha, s', steps, i + 1);
    s' := Take(sha, s', steps, i + 2);
    s' := Take(sha, s', steps, i + 3);
  }

  lemma {:induction false} FourAlone(sha: Sha256, s: State, t: nat)
    requires s.holder.None? && t in s.txns && s.txns[t].Drawn?
    ensures Enabled(s, TakeLock(t))
    ensures Enabled(Next(sha, s, TakeLock(t)), ReadHead(t))
    ensures Enabled(Next(sha, Next(sha, s, TakeLock(t)), ReadHead(t)), Insert(t))
    ensures Enabled(Next(sha, Next(sha, Next(sha, s, TakeLock(t)), ReadHead(t)), Insert(t)), Commit(t))
    ensures Next(sha, Next(sha, Next(sha, Next(sha, s, TakeLock(t)), ReadHead(t)), Insert(t)), Commit(t)) == Served(sha, s, t)
  {
    assert Next(sha, Next(sha, Next(sha, Next(sha, s, TakeLock(t)), ReadHead(t)), Insert(t)), Commit(t)).txns == s.txns - {t};
  }

  /** The state after transaction `t`, alone past the lock, has committed. */
  function Served(sha: Sha256, s: State, t: nat): State
    requires t in s.txns && s.txns[t].Drawn?
  {
    s.(acquisitions := s.acquisitions + 1, txns := s.txns - {t},
       table := s.table + [ChainRow(sha, s.table, s.txns[t].entry)], tickets := s.tickets + [s.acquisitions])
  }

  lemma {:induction false} OvertakingRunEnds(sha: Sha256, e: Entry) returns (s: State)
    ensures Runs(sha, Initial(), OvertakingRun(e), s)
    ensures |s.table| == 2 && |s.tickets| == 2
    ensures s.tickets[0] < s.tickets[1] && s.table[0].entry.seqNo > s.table[1].entry.seqNo
  {
    var steps := OvertakingRun(e);
    BothDrawn(sha, e);
    OvertakingSteps(e);
    hide Next, Enabled, Runs, OvertakingRun, ChainRow;
    s := Take(sha, Initial(), steps, 0);
    s := Take(sha, s, steps, 1);
    s := TakeFour(sha, s, steps, 2, 1);
    var table := s.table;
    s := TakeFour(sha, s, steps, 6, 0);
    assert steps[..10] == steps;
    ChainRowKeeps(sha, [], e.(seqNo := 2));
    ChainRowKeeps(sha, table, e.(seqNo := 1));
  }

  lemma {:induction false} ChainRowKeeps(sha: Sha256, table: seq<Row>, e: Entry)
    ensures ChainRow(sha, table, e).entry == e
  {
  }

  lemma {:induction false} OvertakingSteps(e: Entry)
    ensures var steps := OvertakingRun(e);
      && |steps| == 10 && steps[0] == Draw(0, e) && steps[1] == Draw(1, e)
      && steps[2] == TakeLock(1) && steps[3] == ReadHead(1) && steps[4] == Insert(1) && steps[5] == Commit(1)
      && steps[6] == TakeLock(0) && steps[7] == ReadHead(0) && steps[8] == Insert(0) && steps[9] == Commit(0)
  {
  }

  lemma {:induction false} BothDrawn(sha: Sha256, e: Entry)
    ensures Runs(sha, Initial(), OvertakingRun(e)[..0], Initial()) && Enabled(Initial(), Draw(0, e))
    ensures Enabled(Next(sha, Initial(), Draw(0, e)), Draw(1, e))
    ensures Next(sha, Next(sha, Initial(), Draw(0, e)), Draw(1, e))
         == State(3, 0, None, map[0 := Drawn(e.(seqNo := 1)), 1 := Drawn(e.(seqNo := 2))], [], [])
  {
    assert OvertakingRun(e)[..0] == [];
  }

  /** An honest run after which the verifier rejects the log. */
  lemma {:induction false} HonestLogRejected(sha: Sha256, e: Entry) returns (s: State)
    ensures Runs(sha, Initial(), OvertakingRun(e), s)
    ensures Verifies(sha, BySeq(s.table), 0) ==> Broken(sha, Written(s.table))
  {
    s := OvertakingRunEnds(sha, e);
    CommittedLogVerifies(sha, OvertakingRun(e), s);
  }
}
