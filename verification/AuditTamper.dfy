/**
 What an intruder changes in the stored log is what the verifier names.

 The verifier reads `ORDER BY seq`, so changing a row's `seq` moves it in the
 scan, or out of it. The key of the table is (seq, occurred_at): a changed `seq`
 may equal another, and the database may then return the two rows in either
 order. The results here hold for every order that it may choose.
 */
module AuditTamper {
  import opened Text
  import opened AuditPayload
  import opened AuditChain
  import AuditAppend

  /** A result of `SELECT * .. ORDER BY seq`. */
  predicate IsScan(table: seq<Row>, scan: seq<Row>) {
    Ordered(scan) && multiset(scan) == multiset(table)
  }

  /** The scan with the numbers as they are has only one result where they differ; `BySeq` is it. */
  lemma {:induction false} BySeqIsScan(table: seq<Row>)
    requires AuditAppend.Distinct(table)
    ensures IsScan(table, AuditAppend.BySeq(table))
    ensures forall scan | IsScan(table, scan) :: scan == AuditAppend.BySeq(table)
  {
    AuditAppend.SortedAscends(table);
    AuditAppend.SortKeepsRows(table);
    forall scan | IsScan(table, scan) ensures scan == AuditAppend.BySeq(table) {
      OneOrder(AuditAppend.BySeq(table), scan);
    }
  }

  /** Rows with different numbers have one order. */
  lemma {:induction false} OneOrder(a: seq<Row>, b: seq<Row>)
    requires AuditAppend.Ascending(a) && Ordered(b) && multiset(a) == multiset(b)
    ensures a == b
    decreases |a|
  {
    if a == [] || b == [] {
      assert |multiset(a)| == |a| && |multiset(b)| == |b|;
    } else {
      SameFirst(a, b);
      TailRows(a);
      TailRows(b);
      OneOrder(a[1..], b[1..]);
    }
  }

  lemma {:induction false} TailRows(rows: seq<Row>)
    requires rows != []
    ensures multiset(rows[1..]) == multiset(rows) - multiset{rows[0]} && rows == [rows[0]] + rows[1..]
  {
    assert rows == [rows[0]] + rows[1..];
  }

  lemma {:induction false} SameFirst(a: seq<Row>, b: seq<Row>)
    requires a != [] && b != []
    requires AuditAppend.Ascending(a) && Ordered(b) && multiset(a) == multiset(b)
    ensures a[0] == b[0]
  {
    assert a[0] in multiset(b) && b[0] in multiset(a);
    var i :| 0 <= i < |b| && b[i] == a[0];
    var j :| 0 <= j < |a| && a[j] == b[0];
  }

  // ---- where a tampered row stands

  function Without(log: seq<Row>, k: nat): seq<Row>
    requires k < |log|
  {
    log[..k] + log[k + 1..]
  }

  function PutAt(rest: seq<Row>, p: nat, x: Row): seq<Row>
    requires p <= |rest|
  {
    rest[..p] + [x] + rest[p..]
  }

  /** Number `s` stands at position `p` among the rows: none before it is higher, none after it lower. */
  predicate IsPlace(rest: seq<Row>, s: int, p: nat) {
    && p <= |rest|
    && (forall i | 0 <= i < p :: rest[i].entry.seqNo <= s)
    && (forall i | p <= i < |rest| :: s <= rest[i].entry.seqNo)
  }

  /** The new number still lies between those of the neighbours. */
  predicate KeepsPlace(log: seq<Row>, k: nat, s: int)
    requires k < |log|
  {
    (k > 0 ==> log[k - 1].entry.seqNo < s) && (k + 1 < |log| ==> s < log[k + 1].entry.seqNo)
  }

  lemma {:induction false} RowsOfTable(log: seq<Row>, k: nat, x: Row)
    requires k < |log|
    ensures multiset(log[k := x]) == multiset(Without(log, k)) + multiset{x}
  {
    assert log[k := x] == log[..k] + [x] + log[k + 1..];
  }

  lemma {:induction false} RowsOfScan(scan: seq<Row>, p: nat)
    requires p < |scan|
    ensures multiset(scan) == multiset(Without(scan, p)) + multiset{scan[p]}
    ensures scan == PutAt(Without(scan, p), p, scan[p])
  {
    assert scan == scan[..p] + [scan[p]] + scan[p + 1..];
  }

  lemma {:induction false} WithoutAscends(log: seq<Row>, k: nat)
    requires Numbered(log) && k < |log|
    ensures AuditAppend.Ascending(Without(log, k))
  {
  }

  lemma {:induction false} WithoutOrdered(scan: seq<Row>, p: nat)
    requires Ordered(scan) && p < |scan|
    ensures Ordered(Without(scan, p)) && IsPlace(Without(scan, p), scan[p].entry.seqNo, p)
  {
  }

  lemma {:induction false} SameRest(a: multiset<Row>, b: multiset<Row>, x: Row)
    requires a + multiset{x} == b + multiset{x}
    ensures a == b
  {
    assert a == (a + multiset{x}) - multiset{x};
    assert b == (b + multiset{x}) - multiset{x};
  }

  lemma {:induction false} PositionOf(scan: seq<Row>, x: Row) returns (p: nat)
    requires x in multiset(scan)
    ensures p < |scan| && scan[p] == x
  {
    p :| 0 <= p < |scan| && scan[p] == x;
  }

  /** Every scan of a table in which row `k` became `x` is the other rows in order, with `x` at its place. */
  lemma {:induction false} ScanShape(log: seq<Row>, k: nat, x: Row, scan: seq<Row>) returns (p: nat)
    requires Numbered(log) && k < |log| && IsScan(log[k := x], scan)
    ensures IsPlace(Without(log, k), x.entry.seqNo, p) && scan == PutAt(Without(log, k), p, x)
  {
    RowsOfTable(log, k, x);
    p := PositionOf(scan, x);
    RowsOfScan(scan, p);
    WithoutOrdered(scan, p);
    WithoutAscends(log, k);
    SameRest(multiset(Without(scan, p)), multiset(Without(log, k)), x);
    OneOrder(Without(log, k), Without(scan, p));
  }

  /** A number that keeps its place puts the row back where it was. */
  lemma {:induction false} KeptPlace(log: seq<Row>, k: nat, s: int, p: nat)
    requires Numbered(log) && k < |log| && IsPlace(Without(log, k), s, p)
    ensures KeepsPlace(log, k, s) ==> p == k
    ensures k + 1 < |log| && s > log[k + 1].entry.seqNo ==> p > k
    ensures k > 0 && s < log[k - 1].entry.seqNo ==> p < k
  {
    var rest := Without(log, k);
    assert k > 0 ==> rest[k - 1] == log[k - 1];
    assert k + 1 < |log| ==> rest[k] == log[k + 1];
  }

  /** The scan around the tampered row. */
  lemma {:induction false} ScanAround(log: seq<Row>, k: nat, x: Row, p: nat)
    requires k < |log| && p <= |log| - 1
    ensures var scan := PutAt(Without(log, k), p, x);
      && |scan| == |log|
      && (p > k ==> scan[..k] == log[..k] && scan[k] == log[k + 1])
      && (p <= k ==> scan[..p] == log[..p] && scan[p] == x)
      && (p < k ==> scan[p + 1] == log[p])
      && (p == k && k + 1 < |log| ==> scan[k + 1] == log[k + 1])
  {
  }

  /** With numbers from 0 on, verification from 0 reads the whole scan. */
  lemma {:induction false} WholeScan(sha: Sha256, scan: seq<Row>, v: Verdict)
    requires forall i | 0 <= i < |scan| :: scan[i].entry.seqNo >= 0
    requires VerifyResult(sha, scan, 0, v)
    ensures IsVerdict(sha, Genesis(), scan, v)
  {
    assert scan[0..] == scan;
  }

  lemma {:induction false} NumbersFromZero(log: seq<Row>, k: nat, x: Row, p: nat)
    requires Numbered(log) && k < |log| && p <= |log| - 1 && x.entry.seqNo >= 0
    ensures forall i | 0 <= i < |log| :: PutAt(Without(log, k), p, x)[i].entry.seqNo >= 0
  {
    var rest := Without(log, k);
    RestFromOne(log, k);
    hide Without;
    forall i | 0 <= i < |log| ensures PutAt(rest, p, x)[i].entry.seqNo >= 0 {
      assert PutAt(rest, p, x)[i] == if i < p then rest[i] else if i == p then x else rest[i - 1];
    }
  }

  lemma {:induction false} RestFromOne(log: seq<Row>, k: nat)
    requires Numbered(log) && k < |log|
    ensures |Without(log, k)| == |log| - 1 && forall i | 0 <= i < |log| - 1 :: Without(log, k)[i].entry.seqNo >= 1
  {
    forall i | 0 <= i < |log| - 1 ensures Without(log, k)[i].entry.seqNo >= 1 {
      assert Without(log, k)[i] == if i < k then log[i] else log[i + 1];
    }
  }

  lemma {:induction false} ChainOfLog(sha: Sha256, log: seq<Row>)
    requires Numbered(log) && Verifies(sha, log, 0)
    ensures Chained(sha, Genesis(), log)
  {
    assert log[0..] == log;
  }

  // ---- what is named

  /** The strings hashed for the log, and the one that the tampered row is checked against. */
  function TamperInputs(log: seq<Row>, e: Entry, p: nat): set<string>
    requires p <= |log|
  {
    Inputs(Genesis(), log) + {HashInput(e, Before(Genesis(), log, p))}
  }

  lemma {:induction false} StillBroken(sha: Sha256, log: seq<Row>, e: Entry, p: nat)
    requires p <= |log| && Broken(sha, Inputs(Genesis(), log))
    ensures Broken(sha, TamperInputs(log, e, p))
  {
  }

  /**
   A row that hashes to the hash of row `j`, but is a different record or continues
   from a different hash, collides with it.
   */
  lemma {:induction false} ForgedHash(sha: Sha256, log: seq<Row>, e: Entry, p: nat, j: nat)
    requires Chained(sha, Genesis(), log) && p <= |log| && j < |log|
    requires sha(HashInput(e, Before(Genesis(), log, p))) == log[j].rowHash
    requires Recorded(e) != Recorded(log[j].entry) || Before(Genesis(), log, p) != Before(Genesis(), log, j)
    ensures Broken(sha, TamperInputs(log, e, p))
  {
    var mine, theirs := HashInput(e, Before(Genesis(), log, p)), HashInput(log[j].entry, Before(Genesis(), log, j));
    assert Good(sha, Genesis(), log, j);
    InputOf(sha, Genesis(), log, j);
    HashLength(sha, log, p);
    HashLength(sha, log, j);
    HashInputDeterminesRow(e, Before(Genesis(), log, p), log[j].entry, Before(Genesis(), log, j));
    assert mine != theirs && mine in TamperInputs(log, e, p) && theirs in TamperInputs(log, e, p);
  }

  /** What the verifier says of an edit that puts the row at position `p`. */
  function EditVerdict(log: seq<Row>, k: nat, s: int, p: nat): Verdict
    requires k < |log| && p <= |log| - 1
  {
    if p == k then Verdict(false, k + 1, Some(s), Some(RowHashMismatch))
    else if p < k then Verdict(false, p + 1, Some(s), Some(PrevHashMismatch))
    else Verdict(false, k + 1, Some(log[k + 1].entry.seqNo), Some(PrevHashMismatch))
  }

  lemma {:induction false} EditAtPlace(sha: Sha256, log: seq<Row>, k: nat, edited: Entry, p: nat, v: Verdict)
    requires Numbered(log) && Chained(sha, Genesis(), log) && k < |log| && p <= |log| - 1
    requires Recorded(edited) != Recorded(log[k].entry)
    requires IsVerdict(sha, Genesis(), PutAt(Without(log, k), p, log[k].(entry := edited)), v)
    ensures v == EditVerdict(log, k, edited.seqNo, p) || Broken(sha, TamperInputs(log, edited, p))
  {
    var x := log[k].(entry := edited);
    var scan := PutAt(Without(log, k), p, x);
    ScanAround(log, k, x, p);
    assert Good(sha, Genesis(), log, k);
    if Broken(sha, Inputs(Genesis(), log)) {
      StillBroken(sha, log, edited, p);
    } else if p > k {
      GapIsNamed(sha, log, k, scan, v);
    } else {
      SharedPrefix(sha, log, scan, p);
      if p < k && Before(Genesis(), log, p) == Before(Genesis(), log, k) {
        HashesDiffer(sha, log, p, k);
      } else if p == k && sha(HashInput(edited, Before(Genesis(), log, k))) == log[k].rowHash {
        ForgedHash(sha, log, edited, k, k);
      } else {
        NamedAt(sha, scan, p, v);
      }
    }
  }

  /** Whether a verdict names the row at position `n` of a scan. */
  predicate NamesRow(v: Verdict, n: nat, seqNo: int) {
    !v.ok && v.rowsChecked == n + 1 && v.firstBadSeq == Some(seqNo)
  }

  /** What the verifier may say of a row that was rewritten, hash columns and all, and stands at position `p`. */
  predicate RewriteVerdict(log: seq<Row>, k: nat, s: int, p: nat, v: Verdict)
    requires k < |log| && p <= |log| - 1
  {
    if p > k then v == Verdict(false, k + 1, Some(log[k + 1].entry.seqNo), Some(PrevHashMismatch))
    else
      || NamesRow(v, p, s)
      || (p + 1 < |log| && v == Verdict(false, p + 2, Some(log[if p < k then p else k + 1].entry.seqNo), Some(PrevHashMismatch)))
      || (p == |log| - 1 && v.ok)
  }

  lemma {:induction false} RewriteAtPlace(sha: Sha256, log: seq<Row>, k: nat, forged: Row, p: nat, v: Verdict)
    requires Numbered(log) && Chained(sha, Genesis(), log) && k < |log| && p <= |log| - 1
    requires Recorded(forged.entry) != Recorded(log[k].entry)
    requires IsVerdict(sha, Genesis(), PutAt(Without(log, k), p, forged), v)
    ensures RewriteVerdict(log, k, forged.entry.seqNo, p, v) || Broken(sha, TamperInputs(log, forged.entry, p))
  {
    if p <= k {
      RewriteBack(sha, log, k, forged, p, v);
    } else {
      ScanAround(log, k, forged, p);
      GapIsNamed(sha, log, k, PutAt(Without(log, k), p, forged), v);
      if Broken(sha, Inputs(Genesis(), log)) {
        StillBroken(sha, log, forged.entry, p);
      }
    }
  }

  lemma {:induction false} RewriteBack(sha: Sha256, log: seq<Row>, k: nat, forged: Row, p: nat, v: Verdict)
    requires Numbered(log) && Chained(sha, Genesis(), log) && p <= k < |log|
    requires Recorded(forged.entry) != Recorded(log[k].entry)
    requires IsVerdict(sha, Genesis(), PutAt(Without(log, k), p, forged), v)
    ensures RewriteVerdict(log, k, forged.entry.seqNo, p, v) || Broken(sha, TamperInputs(log, forged.entry, p))
  {
    var scan := PutAt(Without(log, k), p, forged);
    ScanAround(log, k, forged, p);
    SharedPrefix(sha, log, scan, p);
    if !Good(sha, Genesis(), scan, p) {
      NamedAt(sha, scan, p, v);
    } else if p + 1 < |log| {
      NextIsNamed(sha, log, k, forged, p, scan, v);
    } else {
      VerdictIsChained(sha, Genesis(), scan, v);
      assert Chained(sha, Genesis(), scan);
    }
  }

  /** A forged row that is good itself gives itself away at the row after it. */
  lemma {:induction false} NextIsNamed(sha: Sha256, log: seq<Row>, k: nat, forged: Row, p: nat, scan: seq<Row>, v: Verdict)
    requires Numbered(log) && Chained(sha, Genesis(), log) && p <= k < |log| && p + 1 < |log|
    requires Recorded(forged.entry) != Recorded(log[k].entry)
    requires |scan| == |log| && scan[..p] == log[..p] && scan[p] == forged && scan[p + 1] == log[if p < k then p else k + 1]
    requires IsVerdict(sha, Genesis(), scan, v) && Good(sha, Genesis(), scan, p)
    ensures v == Verdict(false, p + 2, Some(scan[p + 1].entry.seqNo), Some(PrevHashMismatch))
         || Broken(sha, TamperInputs(log, forged.entry, p))
  {
    SharedPrefix(sha, log, scan, p);
    NextExpects(sha, log, k, p);
    hide Chained, Recorded, Broken, TamperInputs, IsVerdict, Numbered;
    if forged.rowHash == scan[p + 1].prevHash {
      NextFits(sha, log, k, forged.entry, p);
    } else {
      NamedAt(sha, scan, p + 1, v);
    }
  }

  lemma {:induction false} NextExpects(sha: Sha256, log: seq<Row>, k: nat, p: nat)
    requires Chained(sha, Genesis(), log) && p <= k < |log| && p + 1 < |log|
    ensures log[if p < k then p else k + 1].prevHash == if p < k then Before(Genesis(), log, p) else log[k].rowHash
  {
    assert Good(sha, Genesis(), log, p) && Good(sha, Genesis(), log, p + 1);
  }

  lemma {:induction false} NextFits(sha: Sha256, log: seq<Row>, k: nat, e: Entry, p: nat)
    requires Numbered(log) && Chained(sha, Genesis(), log) && p <= k < |log|
    requires Recorded(e) != Recorded(log[k].entry)
    requires sha(HashInput(e, Before(Genesis(), log, p))) == if p < k then Before(Genesis(), log, p) else log[k].rowHash
    ensures Broken(sha, TamperInputs(log, e, p))
  {
    if p == k {
      ForgedHash(sha, log, e, k, k);
    } else if p == 0 {
      assert HashInput(e, Before(Genesis(), log, 0)) in TamperInputs(log, e, 0);
    } else if Before(Genesis(), log, p - 1) == Before(Genesis(), log, p) {
      HashesDiffer(sha, log, p - 1, p);
      StillBroken(sha, log, e, p);
    } else {
      ForgedHash(sha, log, e, p, p - 1);
    }
  }

  // ---- the theorems

  /** An honest log, one row of which became `x`, and a verification from 0. */
  ghost predicate IsChange(sha: Sha256, log: seq<Row>, k: nat, x: Row, scan: seq<Row>, v: Verdict) {
    && Numbered(log) && Verifies(sha, log, 0) && k < |log|
    && IsScan(log[k := x], scan) && VerifyResult(sha, scan, 0, v)
  }

  /** A change of something that is recorded. */
  ghost predicate IsTampering(sha: Sha256, log: seq<Row>, k: nat, x: Row, scan: seq<Row>, v: Verdict) {
    IsChange(sha, log, k, x, scan, v) && Recorded(x.entry) != Recorded(log[k].entry)
  }

  lemma {:induction false} TamperPlace(sha: Sha256, log: seq<Row>, k: nat, x: Row, scan: seq<Row>, v: Verdict) returns (p: nat)
    requires IsChange(sha, log, k, x, scan, v) && x.entry.seqNo >= 0
    ensures IsPlace(Without(log, k), x.entry.seqNo, p) && p <= |log| - 1
    ensures Chained(sha, Genesis(), log) && IsVerdict(sha, Genesis(), PutAt(Without(log, k), p, x), v)
  {
    p := ScanShape(log, k, x, scan);
    NumbersFromZero(log, k, x, p);
    WholeScan(sha, scan, v);
    ChainOfLog(sha, log);
  }

  /** What the verifier says of a row that is the same record under other hashes. */
  function ColumnsVerdict(log: seq<Row>, k: nat, x: Row): Verdict
    requires k < |log|
  {
    if x.prevHash != log[k].prevHash then Verdict(false, k + 1, Some(log[k].entry.seqNo), Some(PrevHashMismatch))
    else if x.rowHash != log[k].rowHash then Verdict(false, k + 1, Some(log[k].entry.seqNo), Some(RowHashMismatch))
    else Verdict(true, |log|, None, None)
  }

  /**
   A changed hash column is named at its row, whatever the hash function; a change
   of nothing but the era or the network mask is not noticed.
   */
  lemma {:induction false} HashColumnsAreNamed(sha: Sha256, log: seq<Row>, k: nat, x: Row, scan: seq<Row>, v: Verdict)
    requires IsChange(sha, log, k, x, scan, v) && Recorded(x.entry) == Recorded(log[k].entry)
    ensures v == ColumnsVerdict(log, k, x)
  {
    assert x.entry.seqNo == log[k].entry.seqNo;
    var p := TamperPlace(sha, log, k, x, scan, v);
    KeptPlace(log, k, x.entry.seqNo, p);
    ColumnsAtPlace(sha, log, k, x, v);
  }

  lemma {:induction false} ColumnsAtPlace(sha: Sha256, log: seq<Row>, k: nat, x: Row, v: Verdict)
    requires Chained(sha, Genesis(), log) && k < |log| && Recorded(x.entry) == Recorded(log[k].entry)
    requires x.entry.seqNo == log[k].entry.seqNo
    requires IsVerdict(sha, Genesis(), PutAt(Without(log, k), k, x), v)
    ensures v == ColumnsVerdict(log, k, x)
  {
    var scan := PutAt(Without(log, k), k, x);
    ScanAround(log, k, x, k);
    SharedPrefix(sha, log, scan, k);
    GoodColumns(sha, log, k, scan);
    hide Recorded, Chained, IsVerdict, Good;
    if Good(sha, Genesis(), scan, k) {
      SameColumns(sha, log, k, x);
      assert scan == log[k := x];
      VerdictIsChained(sha, Genesis(), scan, v);
    } else {
      NamedAt(sha, scan, k, v);
    }
  }

  /** The same record is good exactly with the same hashes. */
  lemma {:induction false} GoodColumns(sha: Sha256, log: seq<Row>, k: nat, scan: seq<Row>)
    requires Chained(sha, Genesis(), log) && k < |log| && k < |scan| && Recorded(scan[k].entry) == Recorded(log[k].entry)
    requires Before(Genesis(), scan, k) == Before(Genesis(), log, k)
    ensures Links(scan[k], Before(Genesis(), scan, k)) <==> scan[k].prevHash == log[k].prevHash
    ensures Good(sha, Genesis(), scan, k) <==> scan[k].prevHash == log[k].prevHash && scan[k].rowHash == log[k].rowHash
  {
    var prev := Before(Genesis(), log, k);
    assert Good(sha, Genesis(), log, k);
    HashInputDeterminesRow(scan[k].entry, prev, log[k].entry, prev);
    hide Payload, Recorded, Before;
  }

  lemma {:induction false} SameColumns(sha: Sha256, log: seq<Row>, k: nat, x: Row)
    requires Chained(sha, Genesis(), log) && k < |log| && Recorded(x.entry) == Recorded(log[k].entry)
    requires x.prevHash == log[k].prevHash && x.rowHash == log[k].rowHash
    ensures Chained(sha, Genesis(), log[k := x])
  {
    var same := log[k := x];
    forall i | 0 <= i < |same| ensures Good(sha, Genesis(), same, i) {
      assert Good(sha, Genesis(), log, i);
      if i == k {
        GoodColumns(sha, log, k, same);
      }
    }
  }

  /** An edit that keeps the row's place is named at that row. */
  lemma {:induction false} EditIsNamed(sha: Sha256, log: seq<Row>, k: nat, edited: Entry, scan: seq<Row>, v: Verdict)
    requires k < |log| && IsTampering(sha, log, k, log[k].(entry := edited), scan, v)
    requires edited.seqNo >= 0 && KeepsPlace(log, k, edited.seqNo)
    ensures || v == Verdict(false, k + 1, Some(edited.seqNo), Some(RowHashMismatch))
            || Broken(sha, TamperInputs(log, edited, k))
  {
    var p := TamperPlace(sha, log, k, log[k].(entry := edited), scan, v);
    KeptPlace(log, k, edited.seqNo, p);
    EditAtPlace(sha, log, k, edited, k, v);
  }

  /**
   An edit of `seq` that moves the row: a row moved back is named itself, where it
   now stands; a row moved on is missed at its old place, and its successor named.
   On a tie the database decides which of the two it is.
   */
  lemma {:induction false} MovedEditIsNamed(sha: Sha256, log: seq<Row>, k: nat, edited: Entry, scan: seq<Row>, v: Verdict)
    returns (p: nat)
    requires k < |log| && IsTampering(sha, log, k, log[k].(entry := edited), scan, v)
    requires edited.seqNo >= 0 && !KeepsPlace(log, k, edited.seqNo)
    ensures IsPlace(Without(log, k), edited.seqNo, p) && p <= |log| - 1
    ensures k + 1 < |log| && edited.seqNo > log[k + 1].entry.seqNo ==> p > k
    ensures k > 0 && edited.seqNo < log[k - 1].entry.seqNo ==> p < k
    ensures v == EditVerdict(log, k, edited.seqNo, p) || Broken(sha, TamperInputs(log, edited, p))
  {
    p := TamperPlace(sha, log, k, log[k].(entry := edited), scan, v);
    KeptPlace(log, k, edited.seqNo, p);
    EditAtPlace(sha, log, k, edited, p, v);
  }

  /** Rewriting a row and its hash columns in place only moves the alarm: the row or the one after it is named, if there is one. */
  lemma {:induction false} RewriteIsNamed(sha: Sha256, log: seq<Row>, k: nat, forged: Row, scan: seq<Row>, v: Verdict)
    requires IsTampering(sha, log, k, forged, scan, v)
    requires forged.entry.seqNo >= 0 && KeepsPlace(log, k, forged.entry.seqNo)
    ensures RewriteVerdict(log, k, forged.entry.seqNo, k, v) || Broken(sha, TamperInputs(log, forged.entry, k))
  {
    var p := TamperPlace(sha, log, k, forged, scan, v);
    KeptPlace(log, k, forged.entry.seqNo, p);
    RewriteAtPlace(sha, log, k, forged, k, v);
  }

  /** Rewriting a row elsewhere: moved back, it or the row after it is named; moved on, its old successor is. */
  lemma {:induction false} MovedRewriteIsNamed(sha: Sha256, log: seq<Row>, k: nat, forged: Row, scan: seq<Row>, v: Verdict)
    returns (p: nat)
    requires IsTampering(sha, log, k, forged, scan, v)
    requires forged.entry.seqNo >= 0 && !KeepsPlace(log, k, forged.entry.seqNo)
    ensures IsPlace(Without(log, k), forged.entry.seqNo, p) && p <= |log| - 1
    ensures k + 1 < |log| && forged.entry.seqNo > log[k + 1].entry.seqNo ==> p > k
    ensures k > 0 && forged.entry.seqNo < log[k - 1].entry.seqNo ==> p < k
    ensures RewriteVerdict(log, k, forged.entry.seqNo, p, v) || Broken(sha, TamperInputs(log, forged.entry, p))
  {
    p := TamperPlace(sha, log, k, forged, scan, v);
    KeptPlace(log, k, forged.entry.seqNo, p);
    RewriteAtPlace(sha, log, k, forged, p, v);
  }

  /** A row whose number is made negative leaves the scan: its successor is named, and the newest row is not missed. */
  lemma {:induction false} HiddenRowIsNamed(sha: Sha256, log: seq<Row>, k: nat, x: Row, scan: seq<Row>, v: Verdict)
    requires IsTampering(sha, log, k, x, scan, v) && x.entry.seqNo < 0
    ensures k + 1 < |log| ==>
      || v == Verdict(false, k + 1, Some(log[k + 1].entry.seqNo), Some(PrevHashMismatch))
      || Broken(sha, Inputs(Genesis(), log))
    ensures k + 1 == |log| ==> v == Verdict(true, k, None, None)
  {
    HiddenScan(log, k, x, scan);
    ChainOfLog(sha, log);
    if k + 1 < |log| {
      DeletionIsNamed(sha, log, k, v);
    } else {
      assert Without(log, k) == log[..k];
      PrefixChained(sha, Genesis(), log, k);
      VerdictIsChained(sha, Genesis(), log[..k], v);
    }
  }

  lemma {:induction false} FirstPlace(rest: seq<Row>, s: int, p: nat)
    requires IsPlace(rest, s, p) && s < 0
    requires forall i | 0 <= i < |rest| :: rest[i].entry.seqNo >= 1
    ensures p == 0
  {
    assert rest != [] ==> rest[0].entry.seqNo >= 1;
  }

  /** A row with a negative number comes first, and a verification from 0 passes over it. */
  lemma {:induction false} HiddenScan(log: seq<Row>, k: nat, x: Row, scan: seq<Row>)
    requires Numbered(log) && k < |log| && IsScan(log[k := x], scan) && x.entry.seqNo < 0
    ensures Below(scan, 0) == 1 && 1 <= |scan| && scan[1..] == Without(log, k) && StartHash(scan, 0) == Genesis()
  {
    var p := ScanShape(log, k, x, scan);
    var rest := Without(log, k);
    RestFromOne(log, k);
    hide Without, Below;
    FirstPlace(rest, x.entry.seqNo, p);
    assert scan == [x] + rest && scan[1..] == rest;
    hide Numbered, PutAt;
    BelowUnique([x] + rest, 0, 1);
  }
}
