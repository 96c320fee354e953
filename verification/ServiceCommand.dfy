/**
 The command that `UnlockService.unlock` builds for an approved request: the
 signer accepts it, the controller rebuilds it, and it fits the controller's buffer.
 */
module ServiceCommand {
  import opened Text
  import opened JsonText
  import opened SignerProtocol
  import opened FirmwareCommand
  import opened CommandAgreement

  /** `kMaxCanonical` */
  const MAX_CANONICAL: nat := 512

  /** Controller and door codes, as the admin API admits them: ^[a-z0-9-]+$, at most 64. */
  type Code = s: string | 3 <= |s| <= 64 && forall i | 0 <= i < |s| :: CodeChar(s[i]) witness "aaa"

  predicate CodeChar(c: char) { 'a' <= c <= 'z' || IsDigit(c) || c == '-' }

  /** 16 random bytes in unpadded URL-safe base64. */
  type Nonce = s: string | |s| == 22 && forall i | 0 <= i < |s| :: NonceChar(s[i]) witness seq(22, _ => 'A')

  predicate NonceChar(c: char) { 'a' <= c <= 'z' || 'A' <= c <= 'Z' || IsDigit(c) || c == '-' || c == '_' }

  /** A door row and the moment of the request; the bounds are those of the columns and of a 64-bit clock. */
  datatype Order = Order(
    commandId: Uuid,
    controllerCode: Code,
    doorCode: Code,
    relayChannel: nat,
    unlockSeconds: nat,
    issuedAt: nat,
    ttlSeconds: nat,
    nonce: Nonce
  ) {
    predicate Valid() {
      && 1 <= relayChannel <= 4
      && 1 <= unlockSeconds <= 10
      && issuedAt + ttlSeconds < 0x8000_0000_0000_0000
    }
  }

  function BuildPayload(o: Order): seq<Member> {
    [ Member("command_id", Str(UuidText(o.commandId))),
      Member("cmd", Str("unlock")),
      Member("controller_code", Str(o.controllerCode)),
      Member("door_code", Str(o.doorCode)),
      Member("relay_channel", Int(o.relayChannel)),
      Member("duration_ms", Int(o.unlockSeconds * 1000)),
      Member("issued_at", Int(o.issuedAt)),
      Member("expires_at", Int(o.issuedAt + o.ttlSeconds)),
      Member("nonce", Str(o.nonce)) ]
  }

  /** The same command in the firmware's hands. */
  function Expected(o: Order): UnlockCommand
    requires o.Valid()
  {
    UnlockCommand(UuidText(o.commandId), o.controllerCode, o.doorCode, o.unlockSeconds * 1000, o.relayChannel,
                  o.issuedAt, o.issuedAt + o.ttlSeconds, o.nonce)
  }

  /** Where each member the service writes stands in the firmware's order, and back. */
  const TO_FIRMWARE: seq<nat> := [1, 0, 2, 3, 8, 4, 6, 5, 7]
  const TO_SERVICE: seq<nat> := [1, 0, 2, 3, 5, 7, 6, 8, 4]

  predicate Arranges(p: seq<Member>, f: seq<Member>, order: seq<nat>) {
    |p| == |f| == |order| && forall i | 0 <= i < |p| :: order[i] < |f| && p[i] == f[order[i]]
  }

  predicate Distinct(order: seq<nat>) {
    forall i, j | 0 <= i < j < |order| :: order[i] != order[j]
  }

  lemma {:induction false} ArrangedDict(p: seq<Member>, f: seq<Member>, order: seq<nat>)
    requires IsDict(f) && Arranges(p, f, order) && Distinct(order)
    ensures IsDict(p)
  {
  }

  lemma {:induction false} ArrangedObject(p: seq<Member>, f: seq<Member>, to: seq<nat>, back: seq<nat>)
    requires IsDict(f) && Arranges(p, f, to) && Distinct(to) && Arranges(f, p, back)
    ensures IsDict(p) && multiset(p) == multiset(f)
  {
    ArrangedDict(p, f, to);
    forall i | 0 <= i < |f| ensures f[i] in p {
      assert f[i] == p[back[i]];
    }
    SameSizeDicts(p, f);
  }

  lemma {:induction false} SameObject(o: Order)
    requires o.Valid()
    ensures IsDict(BuildPayload(o))
    ensures multiset(BuildPayload(o)) == multiset(CommandMembers(Expected(o)))
  {
    CommandIsDict(Expected(o));
    Arrangement(o);
    DistinctPlaces();
    ArrangedObject(BuildPayload(o), CommandMembers(Expected(o)), TO_FIRMWARE, TO_SERVICE);
  }

  lemma {:induction false} CommandIsDict(c: UnlockCommand)
    ensures IsDict(CommandMembers(c))
  {
  }

  lemma {:induction false} Arrangement(o: Order)
    requires o.Valid()
    ensures Arranges(BuildPayload(o), CommandMembers(Expected(o)), TO_FIRMWARE)
    ensures Arranges(CommandMembers(Expected(o)), BuildPayload(o), TO_SERVICE)
  {
  }

  lemma {:induction false} DistinctPlaces()
    ensures Distinct(TO_FIRMWARE)
  {
  }

  lemma {:induction false} LookupsOf(o: Order)
    requires o.Valid()
    ensures var p := BuildPayload(o);
            Lookup(p, "cmd") == Some(Str("unlock")) && StringsKept(p, Expected(o)) && NumbersKept(p, Expected(o))
  {
    var p, c := BuildPayload(o), Expected(o);
    SameObject(o);
    KeysInOrder(c);
    SortedIsDict(CommandMembers(c));
    DictByLookups(p, CommandMembers(c));
    LookupsByName(p, c);
  }

  lemma {:induction false} CodesAreFaithful(o: Order)
    ensures CString(UuidText(o.commandId)) == UuidText(o.commandId)
    ensures CString(o.controllerCode) == o.controllerCode
    ensures CString(o.doorCode) == o.doorCode
    ensures CString(o.nonce) == o.nonce
    ensures NoShortEscape(Str(UuidText(o.commandId))) && NoShortEscape(Str(o.controllerCode))
    ensures NoShortEscape(Str(o.doorCode)) && NoShortEscape(Str(o.nonce))
  {
    UuidIsFaithful(o.commandId);
    CStringFaithful(o.controllerCode);
    CStringFaithful(o.doorCode);
    CStringFaithful(o.nonce);
  }

  lemma {:induction false} UuidIsFaithful(u: Uuid)
    ensures CString(UuidText(u)) == UuidText(u) && NoShortEscape(Str(UuidText(u)))
  {
  }

  lemma {:induction false} AsciiCount(s: string)
    requires forall i | 0 <= i < |s| :: s[i] as int < 0x80
    ensures CharCount(s) == |s|
  {
    if s != "" { AsciiCount(s[1..]); }
  }

  // ---- length

  lemma {:induction false} NextLength(ms: seq<Member>, n: nat, k: nat)
    requires 0 < n < |ms| && AllScalar(ms) && |FwValue(ms[n].value)| <= k
    ensures |Written(ms, n + 1)| <= |Written(ms, n)| + 4 + |ms[n].key| + k
  {
  }

  lemma {:induction false} QuotedLength(s: string)
    requires Verbatim(s)
    ensures |FwValue(Str(s))| == |s| + 2
  {
    VerbatimText(s);
  }

  lemma {:induction false} NumeralLength(n: nat, k: nat)
    requires 0 < k && n < Pow10(k)
    ensures |FwValue(Int(n))| <= k
  {
    DecimalLength(n, k);
  }

  lemma {:induction false} Powers()
    ensures Pow10(1) == 10 && Pow10(5) == 100000 && Pow10(19) == 10_000_000_000_000_000_000
  {
  }

  lemma {:induction false} TextLengths(o: Order)
    ensures |FwValue(Str(UuidText(o.commandId)))| == 38
    ensures |FwValue(Str(o.controllerCode))| <= 66 && |FwValue(Str(o.doorCode))| <= 66
    ensures |FwValue(Str(o.nonce))| == 24
  {
    UuidLength(o.commandId);
    QuotedLength(o.controllerCode);
    QuotedLength(o.doorCode);
    QuotedLength(o.nonce);
  }

  lemma {:induction false} NumberLengths(o: Order)
    requires o.Valid()
    ensures |FwValue(Int(o.unlockSeconds * 1000))| <= 5 && |FwValue(Int(o.relayChannel))| <= 1
    ensures |FwValue(Int(o.issuedAt))| <= 19 && |FwValue(Int(o.issuedAt + o.ttlSeconds))| <= 19
  {
    Powers();
    NumeralLength(o.unlockSeconds * 1000, 5);
    NumeralLength(o.issuedAt, 19);
    NumeralLength(o.issuedAt + o.ttlSeconds, 19);
    NumeralLength(o.relayChannel, 1);
  }

  lemma {:induction false} UuidLength(u: Uuid)
    ensures |FwValue(Str(UuidText(u)))| == 38
  {
    QuotedLength(UuidText(u));
  }

  lemma {:induction false} KeyLengths(c: UnlockCommand)
    ensures var fs := CommandMembers(c);
            && |fs[1].key| == 10 && |fs[2].key| == 15 && |fs[3].key| == 9 && |fs[4].key| == 11
            && |fs[5].key| == 10 && |fs[6].key| == 9 && |fs[7].key| == 5 && |fs[8].key| == 13
  {
  }

  predicate Fits(fs: seq<Member>, n: nat, keyLength: nat, valueLength: nat)
    requires n < |fs| && AllScalar(fs)
  {
    |fs[n].key| <= keyLength && |FwValue(fs[n].value)| <= valueLength
  }

  predicate AllFit(fs: seq<Member>)
    requires |fs| == 9 && AllScalar(fs)
  {
    && Fits(fs, 1, 10, 38) && Fits(fs, 2, 15, 66) && Fits(fs, 3, 9, 66) && Fits(fs, 4, 11, 5)
    && Fits(fs, 5, 10, 19) && Fits(fs, 6, 9, 19) && Fits(fs, 7, 5, 24) && Fits(fs, 8, 13, 1)
  }

  lemma {:induction false} MembersFit(o: Order)
    requires o.Valid()
    ensures AllFit(CommandMembers(Expected(o)))
  {
    TextLengths(o);
    NumberLengths(o);
    hide FwValue;
    FieldsFit(Expected(o));
  }

  lemma {:induction false} FieldsFit(c: UnlockCommand)
    requires |FwValue(Str(c.commandId))| <= 38 && |FwValue(Str(c.controllerCode))| <= 66 && |FwValue(Str(c.doorCode))| <= 66
    requires |FwValue(Str(c.nonce))| <= 24 && |FwValue(Int(c.durationMs))| <= 5 && |FwValue(Int(c.relayChannel))| <= 1
    requires |FwValue(Int(c.issuedAt))| <= 19 && |FwValue(Int(c.expiresAt))| <= 19
    ensures AllFit(CommandMembers(c))
  {
    KeyLengths(c);
    hide FwValue;
  }

  lemma {:induction false} NineMembers(fs: seq<Member>)
    requires |fs| == 9 && AllScalar(fs) && |Written(fs, 1)| == 15 && AllFit(fs)
    ensures |Written(fs, 9)| <= 367
  {
    NextLength(fs, 1, 38);
    NextLength(fs, 2, 66);
    NextLength(fs, 3, 66);
    NextLength(fs, 4, 5);
    NextLength(fs, 5, 19);
    NextLength(fs, 6, 19);
    NextLength(fs, 7, 24);
    NextLength(fs, 8, 1);
  }

  /** The rebuilt bytes of every command the service builds fit in the controller's buffer. */
  lemma {:induction false} FitsBuffer(o: Order)
    requires o.Valid()
    ensures |FirmwareBytes(Expected(o))| <= MAX_CANONICAL
  {
    MembersFit(o);
    FirstMember(CommandMembers(Expected(o)));
    NineMembers(CommandMembers(Expected(o)));
  }

  // ---- the round trip

  /** The controller parses every command the service builds and rebuilds it byte for byte. */
  lemma {:induction false} RebuiltExactly(o: Order)
    requires o.Valid()
    ensures Parsed(BuildPayload(o)) == Some(Expected(o))
    ensures CanonicalBytes(BuildPayload(o)) == FirmwareBytes(Expected(o))
  {
    SameObject(o);
    CodesAreFaithful(o);
    ByteAgreement(BuildPayload(o), Expected(o));
    LookupsOf(o);
    ParsedByName(BuildPayload(o), Expected(o));
  }

  lemma {:induction false} ParsedByName(p: seq<Member>, c: UnlockCommand)
    requires Lookup(p, "cmd") == Some(Str("unlock")) && StringsKept(p, c) && NumbersKept(p, c)
    requires CString(c.commandId) == c.commandId && CString(c.controllerCode) == c.controllerCode
    requires CString(c.doorCode) == c.doorCode && CString(c.nonce) == c.nonce
    ensures Parsed(p) == Some(c)
  {
    hide Lookup;
    assert AsCString(p, "cmd") == Some("unlock") by {
      var text := Lookup(p, "cmd").value.s;
      assert '\0' !in text;
    }
    assert AsCString(p, "command_id") == Some(c.commandId) && AsCString(p, "controller_code") == Some(c.controllerCode);
    assert AsCString(p, "door_code") == Some(c.doorCode) && AsCString(p, "nonce") == Some(c.nonce);
    assert AsUint32(p, "duration_ms") == Some(c.durationMs) && AsUint32(p, "relay_channel") == Some(c.relayChannel);
    assert AsInt64(p, "issued_at") == Some(c.issuedAt) && AsInt64(p, "expires_at") == Some(c.expiresAt);
  }

  lemma {:induction false} AcceptedByName(p: seq<Member>, c: UnlockCommand)
    requires Lookup(p, "cmd") == Some(Str("unlock")) && StringsKept(p, c) && NumbersKept(p, c)
    requires 0 < c.durationMs <= MAX_DURATION_MS && CharCount(c.nonce) >= 16
    ensures ValidateCommand(p) == None <==> 0 < c.expiresAt - c.issuedAt <= MAX_COMMAND_TTL_SECONDS
  {
    NoFieldMissing(p, c);
    ValuesAccepted(p, c);
    hide *;
  }

  lemma {:induction false} NoFieldMissing(p: seq<Member>, c: UnlockCommand)
    requires Lookup(p, "cmd") == Some(Str("unlock")) && StringsKept(p, c) && NumbersKept(p, c)
    ensures ValidateCommand(p) == ValidateValues(p)
  {
    hide Lookup;
    forall f | f in REQUIRED_COMMAND_FIELDS ensures Lookup(p, f).Some? {
    }
  }

  lemma {:induction false} ValuesAccepted(p: seq<Member>, c: UnlockCommand)
    requires Lookup(p, "cmd") == Some(Str("unlock")) && StringsKept(p, c) && NumbersKept(p, c)
    requires 0 < c.durationMs <= MAX_DURATION_MS && CharCount(c.nonce) >= 16
    ensures ValidateValues(p) == None <==> 0 < c.expiresAt - c.issuedAt <= MAX_COMMAND_TTL_SECONDS
  {
    hide Lookup, CharCount;
  }

  /** The signer signs what the service builds exactly when its lifetime is between 1 and 30 seconds. */
  lemma {:induction false} SignedWhenShort(o: Order)
    requires o.Valid()
    ensures ValidateCommand(BuildPayload(o)) == None <==> 0 < o.ttlSeconds <= MAX_COMMAND_TTL_SECONDS
  {
    hide *;
    LookupsOf(o);
    ExpectedNumbers(o);
    AcceptedByName(BuildPayload(o), Expected(o));
  }

  lemma {:induction false} ExpectedNumbers(o: Order)
    requires o.Valid()
    ensures 0 < Expected(o).durationMs <= MAX_DURATION_MS && CharCount(Expected(o).nonce) >= 16
    ensures Expected(o).expiresAt - Expected(o).issuedAt == o.ttlSeconds
  {
    AsciiCount(o.nonce);
  }
}
