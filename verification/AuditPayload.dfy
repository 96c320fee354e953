/**
 `acs.audit_payload`: the bytes that are hashed for one row of the audit log.
 */
module AuditPayload {
  import opened Text

  /** The unit separator, E'\x1f'. */
  const SEPARATOR: char := '\U{1f}'

  /** Text that a column type keeps non-empty and free of the separator. */
  type Plain = s: string | s != "" && SEPARATOR !in s witness "0"

  datatype Outcome = Success | Failure | Denied {
    function Label(): Plain {
      match this
      case Success => "success"
      case Failure => "failure"
      case Denied => "denied"
    }
  }

  datatype ActorType = User | Device | Controller | Admin | System | Anonymous {
    function Label(): Plain {
      match this
      case User => "user"
      case Device => "device"
      case Controller => "controller"
      case Admin => "admin"
      case System => "system"
      case Anonymous => "anonymous"
    }
  }

  datatype Era = AD | BC

  /** A finite `timestamptz`, broken down in UTC. */
  datatype Instant = Instant(era: Era, year: nat, month: nat, day: nat,
                             hour: nat, minute: nat, second: nat, micro: nat)

  /** An `inet`: the address that `host()` prints, and the mask that it drops. */
  datatype Inet = Inet(host: Plain, maskLength: nat)

  /** A row before it is chained. Only `eventType` is free text. */
  datatype Entry = Entry(
    seqNo: int,
    occurredAt: Instant,
    eventType: string,
    outcome: Outcome,
    actorType: ActorType,
    actorId: Option<Uuid>,
    deviceId: Option<Uuid>,
    doorId: Option<Uuid>,
    controllerId: Option<Uuid>,
    clientIp: Option<Inet>,
    detail: Option<Plain>
  )

  // ---- serialisation

  /** to_char(.., 'YYYY-MM-DD"T"HH24:MI:SS.US"Z"'); the pattern has no era. */
  function InstantText(t: Instant): string {
    Padded(t.year, 4) + ['-'] + (Padded(t.month, 2) + ['-'] + (Padded(t.day, 2) + ['T'] + ClockText(t)))
  }

  function ClockText(t: Instant): string {
    Padded(t.hour, 2) + [':'] + (Padded(t.minute, 2) + [':'] + (Padded(t.second, 2) + ['.'] + (Padded(t.micro, 6) + ['Z'] + "")))
  }

  function OptionalUuid(u: Option<Uuid>): string {
    if u.None? then "" else UuidText(u.value)
  }

  function OptionalHost(ip: Option<Inet>): string {
    if ip.None? then "" else ip.value.host
  }

  function OptionalText(t: Option<Plain>): string {
    if t.None? then "" else t.value
  }

  function Fields(e: Entry): (fs: seq<string>)
    ensures |fs| == 11
  {
    [ IntText(e.seqNo), InstantText(e.occurredAt), e.eventType, e.outcome.Label(), e.actorType.Label(),
      OptionalUuid(e.actorId), OptionalUuid(e.deviceId), OptionalUuid(e.doorId), OptionalUuid(e.controllerId),
      OptionalHost(e.clientIp), OptionalText(e.detail) ]
  }

  /** `concat_ws` on arguments that are never NULL. */
  function ConcatWs(fs: seq<string>): string
    requires |fs| > 0
  {
    if |fs| == 1 then fs[0] else fs[0] + [SEPARATOR] + ConcatWs(fs[1..])
  }

  function Payload(e: Entry): string { ConcatWs(Fields(e)) }

  /** The payload in full: eleven texts, in this order, with the separator between them. */
  lemma {:induction false} PayloadInFull(e: Entry)
    ensures
      var sep := [SEPARATOR];
      Payload(e) ==
        IntText(e.seqNo) + sep + (InstantText(e.occurredAt) + sep + (e.eventType + sep + (e.outcome.Label() + sep
        + (e.actorType.Label() + sep + (OptionalUuid(e.actorId) + sep + (OptionalUuid(e.deviceId) + sep
        + (OptionalUuid(e.doorId) + sep + (OptionalUuid(e.controllerId) + sep + (OptionalHost(e.clientIp) + sep
        + OptionalText(e.detail))))))))))
  {
    hide IntText, InstantText, OptionalUuid, OptionalHost, OptionalText;
    var fs := Fields(e);
    Joined(fs, 10);
    Joined(fs, 9);
    Joined(fs, 8);
    Joined(fs, 7);
    Joined(fs, 6);
    Joined(fs, 5);
    Joined(fs, 4);
    Joined(fs, 3);
    Joined(fs, 2);
    Joined(fs, 1);
    Joined(fs, 0);
    assert fs[0..] == fs;
  }

  lemma {:induction false} Joined(fs: seq<string>, i: nat)
    requires i < |fs|
    ensures ConcatWs(fs[i..]) == if i + 1 == |fs| then fs[i] else fs[i] + [SEPARATOR] + ConcatWs(fs[i + 1..])
  {
    assert i + 1 < |fs| ==> fs[i..][1..] == fs[i + 1..];
  }

  // ---- what the bytes determine

  /** The part of a row that reaches the hash: no era, no network mask. */
  function Recorded(e: Entry): Entry {
    e.(occurredAt := e.occurredAt.(era := AD),
       clientIp := if e.clientIp.None? then None else Some(e.clientIp.value.(maskLength := 0)))
  }

  /**
   Two rows have the same payload exactly when they agree on everything that is
   recorded. The event type may contain the separator; as it is the only field
   that can, the other ten still mark where it begins and ends.
   */
  lemma {:induction false} PayloadDeterminesRow(e: Entry, f: Entry)
    ensures Payload(e) == Payload(f) <==> Recorded(e) == Recorded(f)
  {
    if Payload(e) == Payload(f) {
      OneFreeField(Fields(e), Fields(f), 2) by {
        FieldsArePlain(e);
        FieldsArePlain(f);
      }
      FieldsDetermineRow(e, f);
    }
    if Recorded(e) == Recorded(f) {
      assert e.occurredAt.(era := AD) == f.occurredAt.(era := AD);
      assert InstantText(e.occurredAt) == InstantText(f.occurredAt);
      assert OptionalHost(e.clientIp) == OptionalHost(f.clientIp);
      assert Fields(e) == Fields(f);
    }
  }

  /** Appending a previous hash of fixed length keeps the serialisation injective. */
  lemma {:induction false} HashInputDeterminesRow(e: Entry, prev: string, f: Entry, prev': string)
    requires |prev| == |prev'|
    ensures Payload(e) + prev == Payload(f) + prev' <==> Recorded(e) == Recorded(f) && prev == prev'
  {
    if Payload(e) + prev == Payload(f) + prev' {
      SplitAtLength(Payload(e), prev, Payload(f), prev');
    }
    PayloadDeterminesRow(e, f);
  }

  predicate PlainExcept(fs: seq<string>, k: nat) {
    forall i | 0 <= i < |fs| && i != k :: SEPARATOR !in fs[i]
  }

  /** A separated list is unambiguous when at most one field, number k, contains the separator. */
  lemma {:induction false} OneFreeField(fs: seq<string>, gs: seq<string>, k: nat)
    requires |fs| == |gs| && k < |fs|
    requires PlainExcept(fs, k) && PlainExcept(gs, k)
    requires ConcatWs(fs) == ConcatWs(gs)
    ensures fs == gs
    decreases |fs|
  {
    if |fs| == 1 {
      assert fs == [fs[0]] && gs == [gs[0]];
    } else if k > 0 {
      SplitAtFirst(fs[0], ConcatWs(fs[1..]), gs[0], ConcatWs(gs[1..]), SEPARATOR);
      OneFreeField(fs[1..], gs[1..], k - 1);
      assert fs == [fs[0]] + fs[1..] && gs == [gs[0]] + gs[1..];
    } else {
      var n := |fs| - 1;
      LastField(fs);
      LastField(gs);
      SplitAtLast(ConcatWs(fs[..n]), fs[n], ConcatWs(gs[..n]), gs[n], SEPARATOR);
      OneFreeField(fs[..n], gs[..n], k);
      assert fs == fs[..n] + [fs[n]] && gs == gs[..n] + [gs[n]];
    }
  }

  lemma {:induction false} LastField(fs: seq<string>)
    requires |fs| > 1
    ensures ConcatWs(fs) == ConcatWs(fs[..|fs| - 1]) + [SEPARATOR] + fs[|fs| - 1]
  {
    var n := |fs| - 1;
    if n > 1 {
      LastField(fs[1..]);
      assert fs[1..][..n - 1] == fs[..n][1..];
    }
  }

  lemma {:induction false} FieldsArePlain(e: Entry)
    ensures PlainExcept(Fields(e), 2)
  {
    EarlyFieldsArePlain(e);
    LateFieldsArePlain(e);
    hide Fields;
  }

  lemma {:induction false} EarlyFieldsArePlain(e: Entry)
    ensures |Fields(e)| == 11
    ensures SEPARATOR !in Fields(e)[0] && SEPARATOR !in Fields(e)[1] && SEPARATOR !in Fields(e)[3] && SEPARATOR !in Fields(e)[4]
  {
    InstantIsPlain(e.occurredAt);
    LabelsArePlain(e);
  }

  lemma {:induction false} LateFieldsArePlain(e: Entry)
    ensures forall i | 5 <= i < |Fields(e)| :: SEPARATOR !in Fields(e)[i]
  {
    MiddleFieldsArePlain(e);
    LastFieldsArePlain(e);
    hide Fields;
  }

  lemma {:induction false} MiddleFieldsArePlain(e: Entry)
    ensures |Fields(e)| == 11
    ensures SEPARATOR !in Fields(e)[5] && SEPARATOR !in Fields(e)[6] && SEPARATOR !in Fields(e)[7]
  {
    LabelsArePlain(e);
  }

  lemma {:induction false} LastFieldsArePlain(e: Entry)
    ensures SEPARATOR !in Fields(e)[8] && SEPARATOR !in Fields(e)[9] && SEPARATOR !in Fields(e)[10]
  {
    LabelsArePlain(e);
  }

  lemma {:induction false} LabelsArePlain(e: Entry)
    ensures SEPARATOR !in e.outcome.Label() && SEPARATOR !in e.actorType.Label()
  {
  }

  lemma {:induction false} InstantIsPlain(t: Instant)
    ensures SEPARATOR !in InstantText(t)
  {
  }

  lemma {:induction false} FieldsDetermineRow(e: Entry, f: Entry)
    requires Fields(e) == Fields(f)
    ensures Recorded(e) == Recorded(f)
  {
    var fs, gs := Fields(e), Fields(f);
    assert fs[0] == gs[0] && fs[1] == gs[1] && fs[2] == gs[2] && fs[3] == gs[3] && fs[4] == gs[4] && fs[5] == gs[5];
    assert fs[6] == gs[6] && fs[7] == gs[7] && fs[8] == gs[8] && fs[9] == gs[9] && fs[10] == gs[10];
    IntTextInjective(e.seqNo, f.seqNo);
    InstantTextInjective(e.occurredAt, f.occurredAt);
    LabelsInjective(e, f);
    OptionalUuidInjective(e.actorId, f.actorId);
    OptionalUuidInjective(e.deviceId, f.deviceId);
    OptionalUuidInjective(e.doorId, f.doorId);
    OptionalUuidInjective(e.controllerId, f.controllerId);
  }

  lemma {:induction false} LabelsInjective(e: Entry, f: Entry)
    requires e.outcome.Label() == f.outcome.Label() && e.actorType.Label() == f.actorType.Label()
    ensures e.outcome == f.outcome && e.actorType == f.actorType
  {
  }

  lemma {:induction false} OptionalUuidInjective(u: Option<Uuid>, v: Option<Uuid>)
    requires OptionalUuid(u) == OptionalUuid(v)
    ensures u == v
  {
    if u.Some? && v.Some? {
      UuidTextInjective(u.value, v.value);
    }
  }

  /** Peels one numeral and the mark after it. */
  lemma {:induction false} SplitNumeral(a: nat, x: string, b: nat, y: string, width: nat, mark: char)
    requires !IsDigit(mark)
    requires Padded(a, width) + [mark] + x == Padded(b, width) + [mark] + y
    ensures a == b && x == y
  {
    SplitAtFirst(Padded(a, width), x, Padded(b, width), y, mark);
    PaddedInjective(a, b, width);
  }

  lemma {:induction false} InstantTextInjective(t: Instant, u: Instant)
    requires InstantText(t) == InstantText(u)
    ensures t.(era := AD) == u.(era := AD)
  {
    SplitNumeral(t.year, Padded(t.month, 2) + ['-'] + (Padded(t.day, 2) + ['T'] + ClockText(t)),
                 u.year, Padded(u.month, 2) + ['-'] + (Padded(u.day, 2) + ['T'] + ClockText(u)), 4, '-');
    SplitNumeral(t.month, Padded(t.day, 2) + ['T'] + ClockText(t), u.month, Padded(u.day, 2) + ['T'] + ClockText(u), 2, '-');
    SplitNumeral(t.day, ClockText(t), u.day, ClockText(u), 2, 'T');
    ClockTextInjective(t, u);
  }

  lemma {:induction false} ClockTextInjective(t: Instant, u: Instant)
    requires ClockText(t) == ClockText(u)
    ensures t.hour == u.hour && t.minute == u.minute && t.second == u.second && t.micro == u.micro
  {
    SplitNumeral(t.hour, Padded(t.minute, 2) + [':'] + (Padded(t.second, 2) + ['.'] + (Padded(t.micro, 6) + ['Z'] + "")),
                 u.hour, Padded(u.minute, 2) + [':'] + (Padded(u.second, 2) + ['.'] + (Padded(u.micro, 6) + ['Z'] + "")), 2, ':');
    SplitNumeral(t.minute, Padded(t.second, 2) + ['.'] + (Padded(t.micro, 6) + ['Z'] + ""),
                 u.minute, Padded(u.second, 2) + ['.'] + (Padded(u.micro, 6) + ['Z'] + ""), 2, ':');
    SplitNumeral(t.second, Padded(t.micro, 6) + ['Z'] + "", u.second, Padded(u.micro, 6) + ['Z'] + "", 2, '.');
    SplitNumeral(t.micro, "", u.micro, "", 6, 'Z');
  }
}
