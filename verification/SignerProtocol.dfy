/**
 The signer: what it validates, the bytes it signs, and how it answers.
 */
module SignerProtocol {
  import opened Text
  import opened JsonText

  const COMMAND_DOMAIN: string := "acs-command:v1\0"
  const MAX_COMMAND_TTL_SECONDS: int := 30
  const MAX_DURATION_MS: int := 10000

  const REQUIRED_COMMAND_FIELDS: seq<string> := [
    "command_id", "cmd", "controller_code", "door_code", "relay_channel",
    "duration_ms", "issued_at", "expires_at", "nonce"
  ]

  function CanonicalBytes(payload: seq<Member>): string {
    COMMAND_DOMAIN + Dumps(Obj(payload))
  }

  datatype Refusal =
    | MissingFields | UnknownCommand | DurationOutOfRange | TimestampsNotIntegers | TtlOutOfRange | NonceTooShort

  /** `isinstance(v, int)`, which in Python also holds of True and False. */
  function PyInt(v: Json): Option<int> {
    match v
    case Int(n) => Some(n)
    case Bool(b) => Some(if b then 1 else 0)
    case _ => None
  }

  /** `len` of a Python string: its code points, that is, the bytes that do not continue one. */
  function CharCount(s: string): nat {
    if s == "" then 0
    else (if 0x80 <= s[0] as int < 0xC0 then 0 else 1) + CharCount(s[1..])
  }

  /** None when the signer accepts the command. */
  function ValidateCommand(payload: seq<Member>): Option<Refusal> {
    if exists f | f in REQUIRED_COMMAND_FIELDS :: Lookup(payload, f).None? then Some(MissingFields)
    else ValidateValues(payload)
  }

  function ValidateValues(payload: seq<Member>): Option<Refusal> {
    if Lookup(payload, "cmd") != Some(Str("unlock")) then Some(UnknownCommand)
    else
      var duration := PyInt(Lookup(payload, "duration_ms").GetOr(Null));
      var issuedAt := PyInt(Lookup(payload, "issued_at").GetOr(Null));
      var expiresAt := PyInt(Lookup(payload, "expires_at").GetOr(Null));
      var nonce := Lookup(payload, "nonce").GetOr(Null);
      if duration.None? || !(0 < duration.value <= MAX_DURATION_MS) then Some(DurationOutOfRange)
      else if issuedAt.None? || expiresAt.None? then Some(TimestampsNotIntegers)
      else if !(0 < expiresAt.value - issuedAt.value <= MAX_COMMAND_TTL_SECONDS) then Some(TtlOutOfRange)
      else if !nonce.Str? || CharCount(nonce.s) < 16 then Some(NonceTooShort)
      else None
  }

  datatype Response =
    | PublicKey
    | Signature(message: string)
    | PayloadNotAnObject
    | Refused(reason: Refusal)
    | UnknownOp

  /** `SignerService.handle`. A signature is represented by the message it covers. */
  function Handle(request: seq<Member>): Response {
    var op := Lookup(request, "op").GetOr(Null);
    if op == Str("public_key") then PublicKey
    else if op == Str("sign") then
      match Lookup(request, "payload").GetOr(Null)
      case Obj(payload) =>
        (match ValidateCommand(payload)
         case Some(reason) => Refused(reason)
         case None => Signature(CanonicalBytes(payload)))
      case _ => PayloadNotAnObject
    else UnknownOp
  }

  // ---- what the answers mean

  predicate Has(payload: seq<Member>, key: string) {
    exists i | 0 <= i < |payload| :: payload[i].key == key
  }

  /** The member is a number for Python. */
  predicate IsNumber(payload: seq<Member>, key: string, n: int) {
    var v := Lookup(payload, key);
    v == Some(Int(n)) || (n == 1 && v == Some(Bool(true))) || (n == 0 && v == Some(Bool(false)))
  }

  /** The member is text of at least 16 characters. */
  ghost predicate IsLongText(payload: seq<Member>, key: string) {
    exists s :: Lookup(payload, key) == Some(Str(s)) && |CharStarts(s)| >= 16
  }

  /** The bytes of a UTF-8 text that begin a character. */
  function CharStarts(s: string): set<int> {
    set i | 0 <= i < |s| && !(0x80 <= s[i] as int < 0xC0)
  }

  lemma {:induction false} CharCountMeans(s: string)
    ensures CharCount(s) == |CharStarts(s)|
    decreases |s|
  {
    if s != "" {
      var n := |s| - 1;
      CharCountMeans(s[..n]);
      CharCountSnoc(s[..n], s[n]);
      assert s == s[..n] + [s[n]];
      assert CharStarts(s) == CharStarts(s[..n]) + if 0x80 <= s[n] as int < 0xC0 then {} else {n};
    }
  }

  lemma {:induction false} CharCountSnoc(s: string, c: char)
    ensures CharCount(s + [c]) == CharCount(s) + if 0x80 <= c as int < 0xC0 then 0 else 1
  {
    if s == "" {
      assert s + [c] == [c] && [c][1..] == "";
    } else {
      CharCountSnoc(s[1..], c);
      assert (s + [c])[0] == s[0] && (s + [c])[1..] == s[1..] + [c];
    }
  }

  const REFUSALS: seq<Refusal> := [
    MissingFields, UnknownCommand, DurationOutOfRange, TimestampsNotIntegers, TtlOutOfRange, NonceTooShort
  ]

  predicate HasAllFields(payload: seq<Member>) {
    && Has(payload, "command_id") && Has(payload, "cmd") && Has(payload, "controller_code") && Has(payload, "door_code")
    && Has(payload, "relay_channel") && Has(payload, "duration_ms") && Has(payload, "issued_at")
    && Has(payload, "expires_at") && Has(payload, "nonce")
  }

  /** What each refusal says of the members, in that order. */
  ghost function Faults(payload: seq<Member>): (faults: seq<bool>)
    ensures |faults| == |REFUSALS|
  {
    [ !HasAllFields(payload),
      Lookup(payload, "cmd") != Some(Str("unlock")),
      !exists n :: IsNumber(payload, "duration_ms", n) && 0 < n <= 10000,
      !exists issued, expires :: IsNumber(payload, "issued_at", issued) && IsNumber(payload, "expires_at", expires),
      !exists issued, expires ::
        IsNumber(payload, "issued_at", issued) && IsNumber(payload, "expires_at", expires) && 0 < expires - issued <= 30,
      !IsLongText(payload, "nonce") ]
  }

  lemma {:induction false} HasMeans(payload: seq<Member>, key: string)
    ensures Has(payload, key) <==> Lookup(payload, key).Some?
  {
    if Has(payload, key) {
      var i :| 0 <= i < |payload| && payload[i].key == key;
      assert payload[i] in payload;
    }
    if Lookup(payload, key).Some? {
      var v := Lookup(payload, key).value;
      var i :| 0 <= i < |payload| && payload[i] == Member(key, v);
    }
  }

  lemma {:induction false} FieldsAreRequired(payload: seq<Member>)
    ensures HasAllFields(payload) <==> forall f | f in REQUIRED_COMMAND_FIELDS :: Lookup(payload, f).Some?
  {
    forall f ensures Has(payload, f) <==> Lookup(payload, f).Some? {
      HasMeans(payload, f);
    }
    hide Has, Lookup;
    AllOfNine(REQUIRED_COMMAND_FIELDS, f => Lookup(payload, f).Some?);
  }

  lemma {:induction false} AllOfNine(fs: seq<string>, p: string -> bool)
    requires |fs| == 9
    ensures (forall f | f in fs :: p(f))
      <==> p(fs[0]) && p(fs[1]) && p(fs[2]) && p(fs[3]) && p(fs[4]) && p(fs[5]) && p(fs[6]) && p(fs[7]) && p(fs[8])
  {
    if forall f | f in fs :: p(f) {
      forall i | 0 <= i < 9 ensures p(fs[i]) {
        assert fs[i] in fs;
      }
    }
  }

  lemma {:induction false} NumbersMean(payload: seq<Member>, key: string)
    ensures forall n :: IsNumber(payload, key, n) <==> PyInt(Lookup(payload, key).GetOr(Null)) == Some(n)
  {
  }

  lemma {:induction false} LongTextMeans(payload: seq<Member>, key: string)
    ensures var v := Lookup(payload, key).GetOr(Null); IsLongText(payload, key) <==> v.Str? && CharCount(v.s) >= 16
  {
    var v := Lookup(payload, key).GetOr(Null);
    if v.Str? {
      CharCountMeans(v.s);
    }
  }

  /** The signer refuses a command for the first thing that is wrong with its members, and accepts it if nothing is. */
  lemma {:induction false} FirstFaultRefuses(payload: seq<Member>)
    ensures
      var k := FirstTrue(Faults(payload));
      ValidateCommand(payload) == if k < |REFUSALS| then Some(REFUSALS[k]) else None
  {
    FieldsAreRequired(payload);
    LongTextMeans(payload, "nonce");
    NumbersMean(payload, "duration_ms");
    NumbersMean(payload, "issued_at");
    NumbersMean(payload, "expires_at");
    hide FirstTrue, HasAllFields, IsNumber, IsLongText, Lookup, CharCount, PyInt;
    FirstOfSix(Faults(payload));
  }

  /** Only a well-formed request to sign a command without a fault is signed, and over that command's bytes. */
  lemma {:induction false} SignedExactlyWhen(request: seq<Member>, message: string)
    ensures Handle(request) == Signature(message) <==>
      Lookup(request, "op") == Some(Str("sign")) && exists payload ::
        Lookup(request, "payload") == Some(Obj(payload)) && FirstTrue(Faults(payload)) == |REFUSALS| && message == CanonicalBytes(payload)
  {
    var v := Lookup(request, "payload").GetOr(Null);
    if v.Obj? {
      FirstFaultRefuses(v.members);
    }
    hide ValidateCommand, CanonicalBytes, Faults;
  }
}
