/**
 The firmware's side of a command: parsing the received object, and writing again,
 byte by byte, the text that the signer must have signed.
 */
module FirmwareCommand {
  import opened Text
  import opened JsonText
  import opened MachineInts
  import SignerProtocol

  datatype UnlockCommand = UnlockCommand(
    commandId: string,
    controllerCode: string,
    doorCode: string,
    durationMs: Uint32,
    relayChannel: Uint32,
    issuedAt: Int64,
    expiresAt: Int64,
    nonce: string
  )

  // ---- parsing

  /** `t` is what stands before the first NUL of `s`. */
  predicate IsUpToNul(t: string, s: string) {
    t <= s && '\0' !in t && (|t| < |s| ==> s[|t|] == '\0')
  }

  /** What remains of a string that is handed over as `const char *`. */
  function CString(s: string): (r: string)
    ensures IsUpToNul(r, s)
    ensures '\0' !in s ==> r == s
  {
    if s == "" || s[0] == '\0' then ""
    else
      assert s == [s[0]] + s[1..];
      [s[0]] + CString(s[1..])
  }

  function AsCString(payload: seq<Member>, key: string): Option<string> {
    match Lookup(payload, key)
    case Some(Str(s)) => Some(CString(s))
    case _ => None
  }

  function AsUint32(payload: seq<Member>, key: string): Option<Uint32> {
    match Lookup(payload, key)
    case Some(Int(n)) => if 0 <= n < WRAP then Some(n) else None
    case _ => None
  }

  function AsInt64(payload: seq<Member>, key: string): Option<Int64> {
    match Lookup(payload, key)
    case Some(Int(n)) => if -0x8000_0000_0000_0000 <= n < 0x8000_0000_0000_0000 then Some(n) else None
    case _ => None
  }

  /** The command in a received object, if every field has its type. */
  function Parsed(payload: seq<Member>): Option<UnlockCommand> {
    match (AsCString(payload, "command_id"), AsCString(payload, "controller_code"), AsCString(payload, "door_code"),
           AsUint32(payload, "duration_ms"), AsUint32(payload, "relay_channel"),
           AsInt64(payload, "issued_at"), AsInt64(payload, "expires_at"), AsCString(payload, "nonce"))
    case (Some(id), Some(controller), Some(door), Some(duration), Some(relay), Some(issued), Some(expires), Some(nonce)) =>
      if AsCString(payload, "cmd") == Some("unlock")
      then Some(UnlockCommand(id, controller, door, duration, relay, issued, expires, nonce))
      else None
    case _ => None
  }

  predicate IsText(payload: seq<Member>, key: string, t: string) {
    var v := Lookup(payload, key);
    v.Some? && v.value.Str? && IsUpToNul(t, v.value.s)
  }

  predicate IsInteger(payload: seq<Member>, key: string, n: int) { Lookup(payload, key) == Some(Int(n)) }

  /** A command is parsed exactly from these members; the types of its fields bound the numbers. */
  lemma {:induction false} ParsedExactlyWhen(payload: seq<Member>, c: UnlockCommand)
    ensures Parsed(payload) == Some(c) <==>
      && IsText(payload, "cmd", "unlock")
      && IsText(payload, "command_id", c.commandId) && IsText(payload, "controller_code", c.controllerCode)
      && IsText(payload, "door_code", c.doorCode) && IsText(payload, "nonce", c.nonce)
      && IsInteger(payload, "duration_ms", c.durationMs) && IsInteger(payload, "relay_channel", c.relayChannel)
      && IsInteger(payload, "issued_at", c.issuedAt) && IsInteger(payload, "expires_at", c.expiresAt)
  {
    forall key, t ensures IsText(payload, key, t) <==> AsCString(payload, key) == Some(t) {
      TextMeans(payload, key, t);
    }
    hide IsText, AsCString, Lookup;
  }

  lemma {:induction false} TextMeans(payload: seq<Member>, key: string, t: string)
    ensures IsText(payload, key, t) <==> AsCString(payload, key) == Some(t)
  {
    var v := Lookup(payload, key);
    if v.Some? && v.value.Str? && IsUpToNul(t, v.value.s) {
      OneUpToNul(t, CString(v.value.s), v.value.s);
    }
  }

  lemma {:induction false} OneUpToNul(t: string, u: string, s: string)
    requires IsUpToNul(t, s) && IsUpToNul(u, s)
    ensures t == u
  {
    assert forall i | 0 <= i < |t| :: s[i] == t[i] && t[i] in t;
    assert forall i | 0 <= i < |u| :: s[i] == u[i] && u[i] in u;
    assert |t| == |u|;
  }

  method ParseUnlockCommand(payload: seq<Member>, before: UnlockCommand) returns (ok: bool, out: UnlockCommand)
    ensures ok <==> Parsed(payload).Some?
    ensures out == Parsed(payload).GetOr(before)
  {
    out := before;
    if AsCString(payload, "command_id").None? || AsCString(payload, "cmd").None?
       || AsCString(payload, "controller_code").None? || AsCString(payload, "door_code").None?
       || AsCString(payload, "nonce").None? || AsUint32(payload, "duration_ms").None?
       || AsUint32(payload, "relay_channel").None? || AsInt64(payload, "issued_at").None?
       || AsInt64(payload, "expires_at").None? {
      return false, out;
    }
    if AsCString(payload, "cmd").value != "unlock" {
      return false, out;
    }
    out := out.(commandId := AsCString(payload, "command_id").value);
    out := out.(controllerCode := AsCString(payload, "controller_code").value);
    out := out.(doorCode := AsCString(payload, "door_code").value);
    out := out.(nonce := AsCString(payload, "nonce").value);
    out := out.(durationMs := AsUint32(payload, "duration_ms").value);
    out := out.(relayChannel := AsUint32(payload, "relay_channel").value);
    out := out.(issuedAt := AsInt64(payload, "issued_at").value);
    out := out.(expiresAt := AsInt64(payload, "expires_at").value);
    ok := true;
  }

  // ---- the canonical bytes

  /** The only object the firmware can write: nine members, in this order. */
  function CommandMembers(c: UnlockCommand): (ms: seq<Member>)
    ensures |ms| == 9 && AllScalar(ms)
  {
    [ Member("cmd", Str("unlock")),
      Member("command_id", Str(c.commandId)),
      Member("controller_code", Str(c.controllerCode)),
      Member("door_code", Str(c.doorCode)),
      Member("duration_ms", Int(c.durationMs)),
      Member("expires_at", Int(c.expiresAt)),
      Member("issued_at", Int(c.issuedAt)),
      Member("nonce", Str(c.nonce)),
      Member("relay_channel", Int(c.relayChannel)) ]
  }

  predicate Scalar(v: Json) { v.Str? || v.Int? }

  predicate AllScalar(ms: seq<Member>) {
    forall i | 0 <= i < |ms| :: Scalar(ms[i].value)
  }

  function FwValue(v: Json): string
    requires Scalar(v)
  {
    if v.Str? then "\"" + FwText(v.s) + "\"" else IntText(v.n)
  }

  /** The first `n` members and the opening brace, as the firmware writes them. */
  function Written(ms: seq<Member>, n: nat): string
    requires n <= |ms| && AllScalar(ms)
  {
    if n == 0 then "{"
    else Written(ms, n - 1) + (if n == 1 then "" else ",") + "\"" + ms[n - 1].key + "\":" + FwValue(ms[n - 1].value)
  }

  function FirmwareBody(c: UnlockCommand): string {
    Written(CommandMembers(c), 9) + "}"
  }

  function FirmwareBytes(c: UnlockCommand): string {
    SignerProtocol.COMMAND_DOMAIN + FirmwareBody(c)
  }

  method AppendJsonString(out: string, value: string) returns (res: string)
    ensures res == out + "\"" + FwText(value) + "\""
  {
    res := out + "\"";
    assert value[..0] == "";
    for i := 0 to |value|
      invariant res == out + "\"" + FwText(value[..i])
    {
      var c := value[i];
      ghost var before := res;
      if c == '"' || c == '\\' {
        res := res + "\\";
        res := res + [c];
      } else if c as int < 0x20 {
        res := res + UnicodeEscape(c);
      } else {
        res := res + [c];
      }
      assert res == before + FwEscape(c);
      OneMoreEscaped(out + "\"", value, i);
    }
    assert value[..|value|] == value;
    res := res + "\"";
  }

  lemma {:induction false} OneMoreEscaped(start: string, value: string, i: nat)
    requires i < |value|
    ensures start + FwText(value[..i]) + FwEscape(value[i]) == start + FwText(value[..i + 1])
  {
    hide *;
    FwTextSnoc(value[..i], value[i]);
    assert value[..i + 1] == value[..i] + [value[i]];
    assert forall x: string, y: string :: start + x + y == start + (x + y);
  }

  lemma {:induction false} FwTextSnoc(s: string, c: char)
    ensures FwText(s + [c]) == FwText(s) + FwEscape(c)
  {
    hide FwEscape;
    if s == "" {
      assert s + [c] == [c] && [c][1..] == "";
      assert FwText([c]) == FwEscape(c) + FwText("");
    } else {
      var rest := s[1..];
      assert (s + [c])[0] == s[0] && (s + [c])[1..] == rest + [c];
      FwTextSnoc(rest, c);
      Escaped(s[0], FwText(rest), c);
    }
  }

  lemma {:induction false} Escaped(a: char, mid: string, c: char)
    ensures FwEscape(a) + (mid + FwEscape(c)) == FwEscape(a) + mid + FwEscape(c)
  {
    hide *;
    assert forall x: string, y: string, z: string :: x + (y + z) == x + y + z;
  }

  /** `name` is the literal that the formatter writes before the value of `m`. */
  predicate Names(name: string, m: Member) {
    name == ",\"" + m.key + "\":"
  }

  /** One more member: the literal that names it, then its value. */
  lemma {:induction false} WriteMember(ms: seq<Member>, n: nat, name: string, value: string)
    requires 0 < n < |ms| && AllScalar(ms)
    requires Names(name, ms[n]) && value == FwValue(ms[n].value)
    ensures Written(ms, n) + name + value == Written(ms, n + 1)
  {
    WrittenOne(ms, n);
    assert name == ",\"" + ms[n].key + "\":";
    hide *;
    JoinMember(Written(ms, n), ms[n].key, value);
  }

  lemma {:induction false} WrittenOne(ms: seq<Member>, n: nat)
    requires 0 < n < |ms| && AllScalar(ms)
    ensures Written(ms, n + 1) == Written(ms, n) + "," + "\"" + ms[n].key + "\":" + FwValue(ms[n].value)
  {
  }

  lemma {:induction false} JoinMember(a: string, k: string, v: string)
    ensures a + (",\"" + k + "\":") + v == a + "," + "\"" + k + "\":" + v
  {
  }

  lemma {:induction false} QuoteMember(a: string, b: string, c: string, d: string, e: string)
    ensures a + b + c + d + e == a + b + (c + d + e)
  {
  }

  function Quoted(s: string): string { "\"" + FwText(s) + "\"" }

  method AppendTextMember(body: string, name: string, value: string, ghost ms: seq<Member>, ghost n: nat) returns (res: string)
    requires 0 < n < |ms| && AllScalar(ms)
    requires body == Written(ms, n) && Names(name, ms[n]) && ms[n].value == Str(value)
    ensures res == Written(ms, n + 1)
  {
    res := body + name;
    res := AppendJsonString(res, value);
    QuoteMember(body, name, "\"", FwText(value), "\"");
    WriteMember(ms, n, name, Quoted(value));
  }

  method AppendIntMember(body: string, name: string, value: int, ghost ms: seq<Member>, ghost n: nat) returns (res: string)
    requires 0 < n < |ms| && AllScalar(ms)
    requires body == Written(ms, n) && Names(name, ms[n]) && ms[n].value == Int(value)
    ensures res == Written(ms, n + 1)
  {
    res := body + name;
    res := res + IntText(value);
    WriteMember(ms, n, name, IntText(value));
  }

  lemma {:induction false} FirstMember(ms: seq<Member>)
    requires ms != [] && ms[0] == Member("cmd", Str("unlock")) && AllScalar(ms)
    ensures Written(ms, 1) == "{" + "" + "\"" + "cmd" + "\":" + ("\"" + "unlock" + "\"")
  {
  }

  predicate CodesLabelled(ms: seq<Member>, c: UnlockCommand) {
    && |ms| == 9 && AllScalar(ms)
    && ms[0] == Member("cmd", Str("unlock"))
    && Names(",\"command_id\":", ms[1]) && ms[1].value == Str(c.commandId)
    && Names(",\"controller_code\":", ms[2]) && ms[2].value == Str(c.controllerCode)
    && Names(",\"door_code\":", ms[3]) && ms[3].value == Str(c.doorCode)
  }

  predicate NumbersLabelled(ms: seq<Member>, c: UnlockCommand) {
    && |ms| == 9 && AllScalar(ms)
    && Names(",\"duration_ms\":", ms[4]) && ms[4].value == Int(c.durationMs)
    && Names(",\"expires_at\":", ms[5]) && ms[5].value == Int(c.expiresAt)
    && Names(",\"issued_at\":", ms[6]) && ms[6].value == Int(c.issuedAt)
    && Names(",\"nonce\":", ms[7]) && ms[7].value == Str(c.nonce)
    && Names(",\"relay_channel\":", ms[8]) && ms[8].value == Int(c.relayChannel)
  }

  lemma {:induction false} CodesAreLabelled(c: UnlockCommand)
    ensures CodesLabelled(CommandMembers(c), c)
  {
    assert ",\"command_id\":" == ",\"" + "command_id" + "\":";
    assert ",\"controller_code\":" == ",\"" + "controller_code" + "\":";
    assert ",\"door_code\":" == ",\"" + "door_code" + "\":";
  }

  lemma {:induction false} NumbersAreLabelled(c: UnlockCommand)
    ensures NumbersLabelled(CommandMembers(c), c)
  {
  }

  method FormatCodes(command: UnlockCommand, ghost ms: seq<Member>) returns (body: string)
    requires CodesLabelled(ms, command)
    ensures body == Written(ms, 4)
  {
    hide Written, FwText, FwValue, Names;
    FirstMember(ms);
    body := "{" + "\"cmd\":\"unlock\"";
    assert body == "{" + "" + "\"" + "cmd" + "\":" + ("\"" + "unlock" + "\"");
    body := AppendTextMember(body, ",\"command_id\":", command.commandId, ms, 1);
    body := AppendTextMember(body, ",\"controller_code\":", command.controllerCode, ms, 2);
    body := AppendTextMember(body, ",\"door_code\":", command.doorCode, ms, 3);
  }

  method FormatNumbers(command: UnlockCommand, codes: string, ghost ms: seq<Member>) returns (body: string)
    requires NumbersLabelled(ms, command)
    requires codes == Written(ms, 4)
    ensures body == Written(ms, 9) + "}"
  {
    hide Written, FwText, FwValue, Names;
    body := AppendIntMember(codes, ",\"duration_ms\":", command.durationMs, ms, 4);
    body := AppendIntMember(body, ",\"expires_at\":", command.expiresAt, ms, 5);
    body := AppendIntMember(body, ",\"issued_at\":", command.issuedAt, ms, 6);
    body := AppendTextMember(body, ",\"nonce\":", command.nonce, ms, 7);
    body := AppendIntMember(body, ",\"relay_channel\":", command.relayChannel, ms, 8);
    body := body + "}";
  }

  method FormatBody(command: UnlockCommand) returns (body: string)
    ensures body == FirmwareBody(command)
  {
    CodesAreLabelled(command);
    NumbersAreLabelled(command);
    body := FormatCodes(command, CommandMembers(command));
    body := FormatNumbers(command, body, CommandMembers(command));
  }

  method Memcpy(buffer: array<char>, offset: nat, text: string)
    requires offset + |text| <= buffer.Length
    modifies buffer
    ensures buffer[..offset] == old(buffer[..offset])
    ensures buffer[offset..offset + |text|] == text
    ensures buffer[offset + |text|..] == old(buffer[offset + |text|..])
  {
    forall i | 0 <= i < |text| { buffer[offset + i] := text[i]; }
  }

  /** Writes the canonical bytes into `buffer`, or nothing and returns 0 when they do not fit. */
  method CanonicalCommandBytes(command: UnlockCommand, buffer: array<char>) returns (written: nat)
    modifies buffer
    ensures |FirmwareBytes(command)| > buffer.Length ==> written == 0 && buffer[..] == old(buffer[..])
    ensures |FirmwareBytes(command)| <= buffer.Length ==>
              && written == |FirmwareBytes(command)|
              && buffer[..written] == FirmwareBytes(command)
              && buffer[written..] == old(buffer[written..])
  {
    var domain := SignerProtocol.COMMAND_DOMAIN;
    var body := FormatBody(command);
    var total := |domain| + |body|;
    ghost var bytes := FirmwareBytes(command);
    assert bytes == domain + body && |bytes| == total;
    if total > buffer.Length {
      return 0;
    }
    Memcpy(buffer, 0, domain);
    ghost var rest := buffer[total..];
    Memcpy(buffer, |domain|, body);
    assert buffer[..total] == buffer[..|domain|] + buffer[|domain|..total];
    assert buffer[..total] == bytes;
    written := total;
  }
}
