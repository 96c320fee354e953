/**
 The hash chain over the audit log: the insert trigger, the verifier and the
 head that an external witness anchors.

 SHA-256 is an arbitrary function `sha` to 32 bytes. Nothing assumes that it is
 injective: where a result needs that, it says "or two of the strings that these
 very logs hash collide" (`Collision`), or "or one of them hashes to the all-zero
 genesis" (`GenesisPreimage`).
 */
module AuditChain {
  import opened Text
  import opened AuditPayload

  type Digest = d: string | |d| == 32 witness seq(32, _ => '\0')

  type Sha256 = string -> Digest

  /** A stored row. The hash columns are plain `bytea`: an intruder may have put anything there. */
  datatype Row = Row(entry: Entry, prevHash: string, rowHash: string)

  function Genesis(): Digest {
    seq(32, _ => '\0')
  }

  function HashInput(e: Entry, prev: string): string {
    Payload(e) + prev
  }

  // ---- the chain predicate, row by row

  /** The hash that row `i` of a scan has to continue from. */
  function Before(start: string, rows: seq<Row>, i: nat): string
    requires i <= |rows|
  {
    if i == 0 then start else rows[i - 1].rowHash
  }

  predicate Links(r: Row, prev: string) { r.prevHash == prev }

  predicate Hashes(sha: Sha256, r: Row, prev: string) { r.rowHash == sha(HashInput(r.entry, prev)) }

  predicate Good(sha: Sha256, start: string, rows: seq<Row>, i: nat)
    requires i < |rows|
  {
    Links(rows[i], Before(start, rows, i)) && Hashes(sha, rows[i], Before(start, rows, i))
  }

  predicate Chained(sha: Sha256, start: string, rows: seq<Row>) {
    forall i | 0 <= i < |rows| :: Good(sha, start, rows, i)
  }

  // ---- the verifier

  datatype Reason = PrevHashMismatch | RowHashMismatch

  datatype Verdict = Verdict(ok: bool, rowsChecked: nat, firstBadSeq: Option<int>, reason: Option<Reason>)

  predicate GoodBefore(sha: Sha256, start: string, rows: seq<Row>, n: nat)
    requires n <= |rows|
  {
    forall i | 0 <= i < n :: Good(sha, start, rows, i)
  }

  /** What the verifier must say about a scan: `bad` is the least failing position, `|rows|` if there is none. */
  predicate FirstBad(sha: Sha256, start: string, rows: seq<Row>, bad: nat) {
    && bad <= |rows|
    && GoodBefore(sha, start, rows, bad)
    && (bad < |rows| ==> !Good(sha, start, rows, bad))
  }

  function Judge(start: string, rows: seq<Row>, bad: nat): Verdict
    requires bad <= |rows|
  {
    if bad == |rows| then Verdict(true, bad, None, None)
    else Verdict(false, bad + 1, Some(rows[bad].entry.seqNo),
                 Some(if Links(rows[bad], Before(start, rows, bad)) then RowHashMismatch else PrevHashMismatch))
  }

  ghost predicate IsVerdict(sha: Sha256, start: string, rows: seq<Row>, v: Verdict) {
    exists bad :: FirstBad(sha, start, rows, bad) && v == Judge(start, rows, bad)
  }

  /** The loop of `verify_audit_chain` over the rows of its cursor. */
  method Walk(sha: Sha256, start: string, rows: seq<Row>) returns (v: Verdict)
    ensures IsVerdict(sha, start, rows, v)
  {
    var prev, count := start, 0;
    for i := 0 to |rows|
      invariant count == i
      invariant prev == Before(start, rows, i)
      invariant GoodBefore(sha, start, rows, i)
    {
      count := count + 1;
      if rows[i].prevHash != prev {
        Named(sha, start, rows, i);
        return Verdict(false, count, Some(rows[i].entry.seqNo), Some(PrevHashMismatch));
      }
      var expected := sha(HashInput(rows[i].entry, prev));
      if rows[i].rowHash != expected {
        Named(sha, start, rows, i);
        return Verdict(false, count, Some(rows[i].entry.seqNo), Some(RowHashMismatch));
      }
      OneMoreGood(sha, start, rows, i);
      prev := rows[i].rowHash;
    }
    Named(sha, start, rows, |rows|);
    v := Verdict(true, count, None, None);
  }

  lemma {:induction false} OneMoreGood(sha: Sha256, start: string, rows: seq<Row>, i: nat)
    requires i < |rows| && GoodBefore(sha, start, rows, i) && Good(sha, start, rows, i)
    ensures GoodBefore(sha, start, rows, i + 1)
  {
  }

  lemma {:induction false} Named(sha: Sha256, start: string, rows: seq<Row>, bad: nat)
    requires FirstBad(sha, start, rows, bad)
    ensures IsVerdict(sha, start, rows, Judge(start, rows, bad))
  {
  }

  /** The verdict is the pointwise chain predicate, and there is only one verdict. */
  lemma {:induction false} VerdictIsChained(sha: Sha256, start: string, rows: seq<Row>, v: Verdict)
    requires IsVerdict(sha, start, rows, v)
    ensures v.ok <==> Chained(sha, start, rows)
    ensures v.ok ==> v == Verdict(true, |rows|, None, None)
    ensures forall w :: IsVerdict(sha, start, rows, w) ==> w == v
  {
  }

  // ---- a log: the table in `ORDER BY seq` order

  predicate Ordered(log: seq<Row>) {
    forall i, j | 0 <= i < j < |log| :: log[i].entry.seqNo <= log[j].entry.seqNo
  }

  /** Sequence numbers as `audit_seq` deals them: distinct, starting at 1. */
  predicate Numbered(log: seq<Row>) {
    && (forall i | 0 <= i < |log| :: log[i].entry.seqNo >= 1)
    && (forall i, j | 0 <= i < j < |log| :: log[i].entry.seqNo < log[j].entry.seqNo)
  }

  /** How many rows have a lower sequence number than `from`. */
  function Below(log: seq<Row>, from: int): (n: nat)
    ensures n <= |log|
    ensures forall i | 0 <= i < n :: log[i].entry.seqNo < from
    ensures n < |log| ==> log[n].entry.seqNo >= from
  {
    if log == [] || log[0].entry.seqNo >= from then 0 else 1 + Below(log[1..], from)
  }

  /** The hash a verification from `from` starts with. */
  function StartHash(log: seq<Row>, from: int): string {
    if from <= 0 || Below(log, from) == 0 then Genesis() else log[Below(log, from) - 1].rowHash
  }

  /** `verify_audit_chain(from)` accepts the log. */
  predicate Verifies(sha: Sha256, log: seq<Row>, from: int) {
    Chained(sha, StartHash(log, from), log[Below(log, from)..])
  }

  ghost predicate VerifyResult(sha: Sha256, log: seq<Row>, from: int, v: Verdict) {
    IsVerdict(sha, StartHash(log, from), log[Below(log, from)..], v)
  }

  /** `verify_audit_chain`: the first query, then the loop over `seq >= from`. */
  method VerifyAuditChain(sha: Sha256, log: seq<Row>, from: int) returns (v: Verdict)
    requires Ordered(log)
    ensures VerifyResult(sha, log, from, v)
    ensures v.ok <==> Verifies(sha, log, from)
  {
    var first := 0;
    while first < |log| && log[first].entry.seqNo < from
      invariant first <= |log|
      invariant forall i | 0 <= i < first :: log[i].entry.seqNo < from
    {
      first := first + 1;
    }
    BelowUnique(log, from, first);
    var start: string := if from <= 0 || first == 0 then Genesis() else log[first - 1].rowHash;
    v := Walk(sha, start, log[first..]);
    VerdictIsChained(sha, start, log[first..], v);
  }

  /** Row `i` is the last with a lower number. */
  predicate IsLastBelow(log: seq<Row>, from: int, i: int) {
    0 <= i < |log| && log[i].entry.seqNo < from && (i + 1 < |log| ==> from <= log[i + 1].entry.seqNo)
  }

  /** A start past 0 continues from the last row with a lower number, if there is one; every other start from genesis. */
  lemma {:induction false} StartsFrom(log: seq<Row>, from: int)
    requires Ordered(log)
    ensures from <= 0 || (forall i :: !IsLastBelow(log, from, i)) ==> StartHash(log, from) == Genesis()
    ensures from > 0 ==> forall i | IsLastBelow(log, from, i) :: StartHash(log, from) == log[i].rowHash
  {
    var n := Below(log, from);
    if n > 0 {
      assert IsLastBelow(log, from, n - 1);
    }
    forall i | IsLastBelow(log, from, i) ensures i == n - 1 {
      BelowUnique(log, from, i + 1);
    }
  }

  datatype Head = Head(seqNo: int, occurredAt: Instant, rowHash: string)

  /** `audit_chain_head`. */
  function ChainHead(log: seq<Row>): Option<Head> {
    if log == [] then None
    else var r := log[|log| - 1]; Some(Head(r.entry.seqNo, r.entry.occurredAt, r.rowHash))
  }

  // ---- collisions among the strings that were really hashed

  /** The strings that verifying `rows` feeds to SHA-256. */
  function Inputs(start: string, rows: seq<Row>): set<string> {
    set i | 0 <= i < |rows| :: HashInput(rows[i].entry, Before(start, rows, i))
  }

  predicate Collision(sha: Sha256, inputs: set<string>) {
    exists x, y | x in inputs && y in inputs :: x != y && sha(x) == sha(y)
  }

  predicate GenesisPreimage(sha: Sha256, inputs: set<string>) {
    exists x | x in inputs :: sha(x) == Genesis()
  }

  predicate Broken(sha: Sha256, inputs: set<string>) {
    Collision(sha, inputs) || GenesisPreimage(sha, inputs)
  }

  lemma {:induction false} PrefixChained(sha: Sha256, start: string, rows: seq<Row>, n: nat)
    requires n <= |rows| && Chained(sha, start, rows)
    ensures Chained(sha, start, rows[..n])
  {
    forall i | 0 <= i < n ensures Good(sha, start, rows[..n], i) {
      assert Good(sha, start, rows, i);
    }
  }

  lemma {:induction false} InputOf(sha: Sha256, start: string, rows: seq<Row>, i: nat)
    requires i < |rows| && Good(sha, start, rows, i)
    ensures HashInput(rows[i].entry, Before(start, rows, i)) in Inputs(start, rows)
    ensures sha(HashInput(rows[i].entry, Before(start, rows, i))) == rows[i].rowHash
  {
  }

  // ---- tamper evidence

  predicate SameRow(x: Row, y: Row) {
    Recorded(x.entry) == Recorded(y.entry) && x.prevHash == y.prevHash && x.rowHash == y.rowHash
  }

  predicate SameRecords(a: seq<Row>, b: seq<Row>) {
    |a| == |b| && forall i | 0 <= i < |a| :: SameRow(a[i], b[i])
  }

  lemma {:induction false} HashLength(sha: Sha256, rows: seq<Row>, i: nat)
    requires Chained(sha, Genesis(), rows) && i <= |rows|
    ensures |Before(Genesis(), rows, i)| == 32
  {
    if i > 0 { assert Good(sha, Genesis(), rows, i - 1); }
  }

  /** Equal hashes of two good rows: the rows and what they continue from are equal too. */
  lemma {:induction false} SameHashSameRow(sha: Sha256, a: seq<Row>, i: nat, b: seq<Row>, j: nat)
    requires Chained(sha, Genesis(), a) && Chained(sha, Genesis(), b)
    requires i < |a| && j < |b| && a[i].rowHash == b[j].rowHash
    ensures || Collision(sha, Inputs(Genesis(), a) + Inputs(Genesis(), b))
            || (Recorded(a[i].entry) == Recorded(b[j].entry)
                && a[i].prevHash == Before(Genesis(), a, i) == Before(Genesis(), b, j) == b[j].prevHash)
  {
    var p, q := Before(Genesis(), a, i), Before(Genesis(), b, j);
    assert Good(sha, Genesis(), a, i) && Good(sha, Genesis(), b, j);
    InputOf(sha, Genesis(), a, i);
    InputOf(sha, Genesis(), b, j);
    HashLength(sha, a, i);
    HashLength(sha, b, j);
    HashInputDeterminesRow(a[i].entry, p, b[j].entry, q);
  }

  /** The strings hashed for both logs. */
  function BothInputs(a: seq<Row>, b: seq<Row>): set<string> {
    Inputs(Genesis(), a) + Inputs(Genesis(), b)
  }

  lemma {:induction false} ReachesGenesis(sha: Sha256, rows: seq<Row>, n: nat)
    requires Chained(sha, Genesis(), rows) && 0 < n <= |rows|
    requires Before(Genesis(), rows, n) == Genesis()
    ensures GenesisPreimage(sha, Inputs(Genesis(), rows))
  {
    assert Good(sha, Genesis(), rows, n - 1);
    InputOf(sha, Genesis(), rows, n - 1);
  }

  lemma {:induction false} RowsAgree(sha: Sha256, a: seq<Row>, m: nat, b: seq<Row>, n: nat) returns (same: bool)
    requires Chained(sha, Genesis(), a) && Chained(sha, Genesis(), b) && m < |a| && n < |b|
    requires a[m].rowHash == b[n].rowHash
    ensures same ==> SameRow(a[m], b[n]) && Before(Genesis(), a, m) == Before(Genesis(), b, n)
    ensures !same ==> Broken(sha, BothInputs(a, b))
  {
    SameHashSameRow(sha, a, m, b, n);
    same := !Collision(sha, BothInputs(a, b));
  }

  /** Two chains that reach the same hash after `m` and `n` rows, walked back to genesis. */
  lemma {:induction false} CompareChains(sha: Sha256, a: seq<Row>, m: nat, b: seq<Row>, n: nat) returns (same: bool)
    requires Chained(sha, Genesis(), a) && Chained(sha, Genesis(), b) && m <= |a| && n <= |b|
    requires Before(Genesis(), a, m) == Before(Genesis(), b, n)
    ensures same ==> m == n && forall i | 0 <= i < m :: SameRow(a[i], b[i])
    ensures !same ==> Broken(sha, BothInputs(a, b))
    decreases m
  {
    if m == 0 || n == 0 {
      same := m == n;
      if m > 0 { ReachesGenesis(sha, a, m); }
      if n > 0 { ReachesGenesis(sha, b, n); }
    } else {
      same := RowsAgree(sha, a, m - 1, b, n - 1);
      if same {
        same := CompareChains(sha, a, m - 1, b, n - 1);
      }
    }
  }

  /** Two chains from genesis that end in the same hash hold the same records. */
  lemma {:induction false} SameEndSameRecords(sha: Sha256, a: seq<Row>, b: seq<Row>)
    requires Chained(sha, Genesis(), a) && Chained(sha, Genesis(), b)
    requires Before(Genesis(), a, |a|) == Before(Genesis(), b, |b|)
    ensures SameRecords(a, b) || Broken(sha, BothInputs(a, b))
  {
    var same := CompareChains(sha, a, |a|, b, |b|);
  }

  /**
   Tamper evidence. Once a head is published, no other log of any length can be
   shown in its place: two logs that verify from 0 and have that head agree, row
   for row, on every recorded field.
   */
  lemma {:induction false} AnchoredHeadFixesLog(sha: Sha256, a: seq<Row>, b: seq<Row>)
    requires Ordered(a) && Ordered(b)
    requires Verifies(sha, a, 0) && Verifies(sha, b, 0)
    requires ChainHead(a).Some? && ChainHead(a) == ChainHead(b) && ChainHead(a).value.seqNo >= 0
    ensures var a', b' := a[Below(a, 0)..], b[Below(b, 0)..];
            SameRecords(a', b') || Broken(sha, BothInputs(a', b'))
  {
    var a', b' := a[Below(a, 0)..], b[Below(b, 0)..];
    assert a' != [] && a'[|a'| - 1] == a[|a| - 1];
    assert b' != [] && b'[|b'| - 1] == b[|b| - 1];
    SameEndSameRecords(sha, a', b');
  }

  /** The published head is of the row with the greatest number. */
  lemma {:induction false} HeadIsLast(log: seq<Row>)
    requires Ordered(log)
    ensures ChainHead(log).None? <==> log == []
    ensures ChainHead(log).Some? ==>
      var h := ChainHead(log).value;
      && (exists r :: r in log && r.entry.seqNo == h.seqNo && r.entry.occurredAt == h.occurredAt && r.rowHash == h.rowHash)
      && (forall r | r in log :: r.entry.seqNo <= h.seqNo)
  {
    if log != [] {
      assert log[|log| - 1] in log;
    }
  }

  // ---- exactness: what an intruder changes is what the verifier names

  /** No hash comes round again in a chain of differently numbered rows. */
  lemma {:induction false} HashesDiffer(sha: Sha256, rows: seq<Row>, i: nat, j: nat)
    requires Numbered(rows) && Chained(sha, Genesis(), rows) && i < j <= |rows|
    requires Before(Genesis(), rows, i) == Before(Genesis(), rows, j)
    ensures Broken(sha, Inputs(Genesis(), rows))
  {
    if i == 0 {
      ReachesGenesis(sha, rows, j);
    } else {
      SameHashSameRow(sha, rows, i - 1, rows, j - 1);
      assert BothInputs(rows, rows) == Inputs(Genesis(), rows);
      assert Recorded(rows[i - 1].entry) != Recorded(rows[j - 1].entry);
    }
  }

  /** The verdict when the first `n` rows of a scan are good and the next is not. */
  lemma {:induction false} NamedAt(sha: Sha256, scan: seq<Row>, n: nat, v: Verdict)
    requires n < |scan| && !Good(sha, Genesis(), scan, n)
    requires forall i | 0 <= i < n :: Good(sha, Genesis(), scan, i)
    requires IsVerdict(sha, Genesis(), scan, v)
    ensures v == Judge(Genesis(), scan, n)
  {
    assert FirstBad(sha, Genesis(), scan, n);
    assert IsVerdict(sha, Genesis(), scan, Judge(Genesis(), scan, n));
    VerdictIsChained(sha, Genesis(), scan, v);
  }

  /** A prefix that a scan shares with a chain is good in both. */
  lemma {:induction false} SharedPrefix(sha: Sha256, rows: seq<Row>, scan: seq<Row>, n: nat)
    requires Chained(sha, Genesis(), rows) && n <= |rows| && n <= |scan| && scan[..n] == rows[..n]
    ensures forall i | 0 <= i < n :: Good(sha, Genesis(), scan, i)
    ensures Before(Genesis(), scan, n) == Before(Genesis(), rows, n)
  {
    forall i | 0 <= i < n ensures scan[i] == rows[i] {
      assert scan[..n][i] == rows[..n][i];
    }
    forall i | 0 <= i < n ensures Good(sha, Genesis(), scan, i) {
      assert Good(sha, Genesis(), rows, i);
    }
  }

  /** Where row `k` is gone and row `k + 1` stands in its place, that row is named. */
  lemma {:induction false} GapIsNamed(sha: Sha256, rows: seq<Row>, k: nat, scan: seq<Row>, v: Verdict)
    requires Numbered(rows) && Chained(sha, Genesis(), rows) && k + 1 < |rows|
    requires k < |scan| && scan[..k] == rows[..k] && scan[k] == rows[k + 1]
    requires IsVerdict(sha, Genesis(), scan, v)
    ensures || v == Verdict(false, k + 1, Some(rows[k + 1].entry.seqNo), Some(PrevHashMismatch))
            || Broken(sha, Inputs(Genesis(), rows))
  {
    assert Good(sha, Genesis(), rows, k + 1);
    SharedPrefix(sha, rows, scan, k);
    if rows[k].rowHash == Before(Genesis(), rows, k) {
      HashesDiffer(sha, rows, k, k + 1);
    } else {
      NamedAt(sha, scan, k, v);
    }
  }

  /** Deleting row `k` with a row left after it is named at that next row. */
  lemma {:induction false} DeletionIsNamed(sha: Sha256, rows: seq<Row>, k: nat, v: Verdict)
    requires k + 1 < |rows| && Numbered(rows) && Chained(sha, Genesis(), rows)
    requires IsVerdict(sha, Genesis(), rows[..k] + rows[k + 1..], v)
    ensures || v == Verdict(false, k + 1, Some(rows[k + 1].entry.seqNo), Some(PrevHashMismatch))
            || Broken(sha, Inputs(Genesis(), rows))
  {
    GapIsNamed(sha, rows, k, rows[..k] + rows[k + 1..], v);
  }

  // ---- verifying in pieces, and after old partitions were detached

  lemma {:induction false} BelowUnique(log: seq<Row>, from: int, n: nat)
    requires Ordered(log) && n <= |log|
    requires forall i | 0 <= i < n :: log[i].entry.seqNo < from
    requires n < |log| ==> log[n].entry.seqNo >= from
    ensures Below(log, from) == n
  {
  }

  /** The chain over a whole scan is the chain over each half, the second continuing from the first. */
  lemma {:induction false} ChainSplits(sha: Sha256, start: string, rows: seq<Row>, n: nat)
    requires n <= |rows|
    ensures Chained(sha, start, rows)
       <==> Chained(sha, start, rows[..n]) && Chained(sha, Before(start, rows, n), rows[n..])
  {
    var middle := Before(start, rows, n);
    if Chained(sha, start, rows) {
      PrefixChained(sha, start, rows, n);
      forall i | 0 <= i < |rows| - n ensures Good(sha, middle, rows[n..], i) {
        assert Good(sha, start, rows, n + i);
      }
    }
    if Chained(sha, start, rows[..n]) && Chained(sha, middle, rows[n..]) {
      forall i | 0 <= i < |rows| ensures Good(sha, start, rows, i) {
        if i < n {
          assert Good(sha, start, rows[..n], i);
        } else {
          assert Good(sha, middle, rows[n..], i - n);
        }
      }
    }
  }

  /** A full verification is a verification of the rows before `k` and one started at `k`. */
  lemma {:induction false} VerifyInTwoParts(sha: Sha256, log: seq<Row>, k: int)
    requires Numbered(log)
    ensures Verifies(sha, log, 0) <==> Verifies(sha, log[..Below(log, k)], 0) && Verifies(sha, log, k)
  {
    var n := Below(log, k);
    BelowUnique(log, 0, 0);
    BelowUnique(log[..n], 0, 0);
    assert log[0..] == log && log[..n][0..] == log[..n];
    if k <= 0 {
      BelowUnique(log, k, 0);
    }
    ChainSplits(sha, Genesis(), log, n);
    assert StartHash(log, k) == Before(Genesis(), log, n);
  }

  /** Detaching the first `d` rows changes no verdict for a start after the first row that is left. */
  lemma {:induction false} DetachKeepsVerdicts(sha: Sha256, log: seq<Row>, d: nat, from: int, v: Verdict)
    requires Numbered(log) && d < |log|
    requires from > log[d].entry.seqNo
    ensures VerifyResult(sha, log[d..], from, v) <==> VerifyResult(sha, log, from, v)
  {
    DetachKeepsStart(log, d, from);
  }

  lemma {:induction false} DetachKeepsStart(log: seq<Row>, d: nat, from: int)
    requires Numbered(log) && d < |log|
    requires from > log[d].entry.seqNo
    ensures StartHash(log[d..], from) == StartHash(log, from)
    ensures log[d..][Below(log[d..], from)..] == log[Below(log, from)..]
  {
    BelowInCut(log, d, from);
    DropDrop(log, d, Below(log, from));
  }

  lemma {:induction false} DropDrop(log: seq<Row>, d: nat, n: nat)
    requires d < n <= |log|
    ensures log[d..][n - d..] == log[n..] && log[d..][n - d - 1] == log[n - 1]
  {
  }

  lemma {:induction false} BelowInCut(log: seq<Row>, d: nat, from: int)
    requires Numbered(log) && d < |log| && from > log[d].entry.seqNo
    ensures Below(log, from) > d && Below(log[d..], from) == Below(log, from) - d
  {
  }

  /** A start at or before the first row that is left accuses that row instead. */
  lemma {:induction false} DetachedStartIsAccused(sha: Sha256, log: seq<Row>, d: nat, from: int, v: Verdict)
    requires Numbered(log) && 0 < d < |log|
    requires Chained(sha, Genesis(), log)
    requires from <= log[d].entry.seqNo
    requires VerifyResult(sha, log[d..], from, v)
    ensures || v == Verdict(false, 1, Some(log[d].entry.seqNo), Some(PrevHashMismatch))
            || GenesisPreimage(sha, Inputs(Genesis(), log))
  {
    BelowUnique(log[d..], from, 0);
    var rows := log[d..][0..];
    assert rows == log[d..];
    assert Good(sha, Genesis(), log, d) && Good(sha, Genesis(), log, d - 1);
    InputOf(sha, Genesis(), log, d - 1);
    if log[d - 1].rowHash != Genesis() {
      assert FirstBad(sha, Genesis(), rows, 0);
      VerdictIsChained(sha, Genesis(), rows, v);
      assert IsVerdict(sha, Genesis(), rows, Judge(Genesis(), rows, 0));
    }
  }
}
