/**
 From the bytes of the key attestation extension to the verdict:
 `_parse_key_description` and the policy at the end of `verify_key_attestation`.

 `AcceptedExactlyWhen` states the verdict on every encoding of a KeyDescription
 in terms of the values encoded, not of the bytes.
 */
module KeyAttestation {
  import opened Text
  import opened Der
  import opened AuthorizationList

  datatype SecurityLevel = Software | TrustedEnvironment | StrongBox | UnknownLevel

  datatype KeyDescription = KeyDescription(level: SecurityLevel, challenge: Bytes, report: Report)

  datatype Verdict =
    | Accepted
    | Malformed(error: DerError)
    | ChallengeMismatch
    | NotInHardware
    | NotStrongBox
    | BootNotVerified
    | BootloaderUnlocked
    | NoUserAuthentication

  function LevelOf(n: nat): (level: SecurityLevel)
    ensures level == [Software, TrustedEnvironment, StrongBox, UnknownLevel][if n < 3 then n else 3]
  {
    if n == 0 then Software else if n == 1 then TrustedEnvironment else if n == 2 then StrongBox else UnknownLevel
  }

  /** `_parse_key_description`: the software list replaces the hardware one when that names no root of trust. */
  function ParseKeyDescription(extension: Bytes): Result<KeyDescription> {
    match ReadTlv(extension, 0)
    case Err(e) => Err(e)
    case Ok((root, _)) =>
      match ValuesFrom(root.content, 0)
      case Err(e) => Err(e)
      case Ok(items) =>
        if |items| < 8 then Err(TooFewFields)
        else
          match EffectiveReport(items[6].content, items[7].content)
          case Err(e) => Err(e)
          case Ok(report) => Ok(KeyDescription(LevelOf(AsInt(items[1])), items[4].content, report))
  }

  function EffectiveReport(software: Bytes, hardware: Bytes): Result<Report> {
    match ScanFrom(hardware, 0, Empty())
    case Err(e) => Err(e)
    case Ok(report) => if report.root.None? then ScanFrom(software, 0, Empty()) else Ok(report)
  }

  function Judge(d: KeyDescription, expected: Bytes, requireStrongBox: bool): Verdict {
    if d.challenge != expected then ChallengeMismatch
    else if d.level == Software then NotInHardware
    else if requireStrongBox && d.level != StrongBox then NotStrongBox
    else if d.report.root.None? || d.report.root.value.bootState != Verified then BootNotVerified
    else if !d.report.root.value.deviceLocked then BootloaderUnlocked
    else if d.report.noAuthRequired then NoUserAuthentication
    else Accepted
  }

  /** `verify_key_attestation` after the chain and the extension have been found good. */
  function Attest(extension: Bytes, expected: Bytes, requireStrongBox: bool): Verdict {
    match ParseKeyDescription(extension)
    case Err(e) => Malformed(e)
    case Ok(d) => Judge(d, expected, requireStrongBox)
  }

  // ---- every encoding

  /** The fields of a KeyDescription and the octets that write it, which may be followed by anything. */
  datatype Encoding = Encoding(tag: Byte, form: LengthForm, fields: seq<DerValue>, forms: seq<LengthForm>, trailing: Bytes)

  function Outer(d: Encoding): DerValue
    requires AllReadable(d.fields, d.forms)
  {
    DerValue(d.tag, SequenceOctets(d.fields, d.forms))
  }

  predicate IsEncoding(d: Encoding) {
    |d.fields| >= 8 && AllReadable(d.fields, d.forms) && Readable(Outer(d), d.form)
  }

  function Octets(d: Encoding): Bytes
    requires IsEncoding(d)
  {
    TlvOctets(Outer(d), d.form) + d.trailing
  }

  lemma {:induction false} OctetsParse(d: Encoding)
    requires IsEncoding(d)
    ensures ParseKeyDescription(Octets(d)) ==
      match EffectiveReport(d.fields[6].content, d.fields[7].content)
      case Err(e) => Err(e)
      case Ok(report) => Ok(KeyDescription(LevelOf(AsInt(d.fields[1])), d.fields[4].content, report))
  {
    var outer := TlvOctets(Outer(d), d.form);
    assert Octets(d)[0..|outer|] == outer;
    ReadsEncoding(Octets(d), 0, Outer(d), d.form);
    SequenceIsInverse(Outer(d).content, d.fields);
  }

  // ---- the list in force, in the values that it encodes

  /** The last item of the list that names a root of trust has these fields. */
  ghost predicate LastRoot(items: seq<Item>, fields: seq<DerValue>) {
    exists i :: IsLastRootAt(items, i, fields)
  }

  ghost predicate IsLastRootAt(items: seq<Item>, i: int, fields: seq<DerValue>) {
    0 <= i < |items| && IsRoot(items[i], fields) && forall j, other | i < j < |items| :: !IsRoot(items[j], other)
  }

  ghost predicate NamesRoot(items: seq<Item>) {
    exists i, fields :: 0 <= i < |items| && IsRoot(items[i], fields)
  }

  /** The boot state is 0, "verified". */
  ghost predicate IsVerified(items: seq<Item>) {
    exists fields: seq<DerValue> :: LastRoot(items, fields) && BigEndian(fields[2].content) == 0
  }

  /** The lock is DER's TRUE. */
  ghost predicate IsLocked(items: seq<Item>) {
    exists fields: seq<DerValue> :: LastRoot(items, fields) && fields[1].content == [255]
  }

  ghost predicate AreWellFormed(items: seq<Item>) {
    forall i | 0 <= i < |items| :: WellFormed(items[i])
  }

  /** The hardware list if it names a root of trust, and otherwise the software one. */
  ghost function InForce(software: seq<Item>, hardware: seq<Item>): seq<Item> {
    if NamesRoot(hardware) then hardware else software
  }

  lemma {:induction false} LastRootShows(items: seq<Item>, root: Option<RootOfTrust>)
    requires IsLast(items, RootOf, None, root)
    ensures root.Some? <==> NamesRoot(items)
    ensures root.Some? && root.value.bootState == Verified <==> IsVerified(items)
    ensures root.Some? && root.value.deviceLocked <==> IsLocked(items)
  {
    forall i | 0 <= i < |items|
      ensures RootOf(items[i]).Some? <==> exists fields :: IsRoot(items[i], fields)
      ensures forall fields | IsRoot(items[i], fields) :: Shows(fields, RootOf(items[i]).value)
    {
      RootOfMeans(items[i]);
    }
    hide IsRoot, RootOf;
    if root.Some? {
      var i :| 0 <= i < |items| && root == RootOf(items[i]) && forall j | i < j < |items| :: RootOf(items[j]).None?;
      var fields :| IsRoot(items[i], fields);
      OnlyLastRoot(items, i, fields);
      assert IsLastRootAt(items, i, fields);
      forall other | LastRoot(items, other) ensures Shows(other, root.value) {
        var k :| IsLastRootAt(items, k, other);
        assert k == i by {
          assert IsRoot(items[k], other) && IsRoot(items[i], fields);
        }
      }
      assert LastRoot(items, fields);
    }
  }

  lemma {:induction false} OnlyLastRoot(items: seq<Item>, i: nat, fields: seq<DerValue>)
    requires i < |items| && IsRoot(items[i], fields) && forall j | i < j < |items| :: RootOf(items[j]).None?
    ensures IsLastRootAt(items, i, fields)
  {
    forall j, other | i < j < |items| ensures !IsRoot(items[j], other) {
      RootOfMeans(items[j]);
    }
  }

  /** What the report says of the list in force, and when there is none. */
  lemma {:induction false} ReportInForce(software: seq<Item>, hardware: seq<Item>)
    requires AreItems(software) && AreItems(hardware)
    ensures
      var items := InForce(software, hardware);
      var r := EffectiveReport(ListOctets(software), ListOctets(hardware));
      && (r.Ok? <==> AreWellFormed(hardware) && AreWellFormed(items))
      && (r.Ok? ==>
            && (r.value.root.Some? && r.value.root.value.bootState == Verified <==> IsVerified(items))
            && (r.value.root.Some? && r.value.root.value.deviceLocked <==> IsLocked(items))
            && (r.value.noAuthRequired <==> SaysNoAuth(items)))
  {
    ReportsLast(hardware);
    ReportsLast(software);
    var h, s := ScanFrom(ListOctets(hardware), 0, Empty()), ScanFrom(ListOctets(software), 0, Empty());
    if h.Ok? {
      LastRootShows(hardware, h.value.root);
    }
    if s.Ok? {
      LastRootShows(software, s.value.root);
    }
    hide ScanFrom, ListOctets, WellFormed, NamesRoot, IsVerified, IsLocked, SaysNoAuth;
  }

  // ---- the verdict

  const REFUSALS: seq<Verdict> := [
    ChallengeMismatch, NotInHardware, NotStrongBox, BootNotVerified, BootloaderUnlocked, NoUserAuthentication
  ]

  /** What each refusal says of the values encoded, in that order. */
  ghost function Faults(d: Encoding, items: seq<Item>, expected: Bytes, requireStrongBox: bool): (faults: seq<bool>)
    requires IsEncoding(d)
    ensures |faults| == |REFUSALS|
  {
    [ d.fields[4].content != expected,
      BigEndian(d.fields[1].content) == 0,
      requireStrongBox && BigEndian(d.fields[1].content) != 2,
      !IsVerified(items),
      !IsLocked(items),
      SaysNoAuth(items) ]
  }

  /**
   The verdict on every encoding of a KeyDescription: malformed if the hardware
   list or the list in force does not encode what it should, and otherwise the
   first thing that is wrong with the values, or `Accepted`.
   */
  lemma {:induction false} FirstFaultDecides(d: Encoding, software: seq<Item>, hardware: seq<Item>, expected: Bytes, requireStrongBox: bool)
    requires IsEncoding(d) && AreItems(software) && AreItems(hardware)
    requires d.fields[6].content == ListOctets(software) && d.fields[7].content == ListOctets(hardware)
    ensures
      var items := InForce(software, hardware);
      var v, k := Attest(Octets(d), expected, requireStrongBox), FirstTrue(Faults(d, items, expected, requireStrongBox));
      && (v.Malformed? <==> !AreWellFormed(hardware) || !AreWellFormed(items))
      && (!v.Malformed? ==> v == if k < |REFUSALS| then REFUSALS[k] else Accepted)
  {
    AttestOn(d, expected, requireStrongBox);
    ReportInForce(software, hardware);
    hide Attest, IsEncoding, InForce, AreWellFormed, EffectiveReport, ListOctets, FirstTrue, Judge, LevelOf, AsInt;
    var items := InForce(software, hardware);
    var report := EffectiveReport(d.fields[6].content, d.fields[7].content);
    if report.Ok? {
      JudgedByFirst(d, items, report.value, expected, requireStrongBox);
    }
  }

  lemma {:induction false} AttestOn(d: Encoding, expected: Bytes, requireStrongBox: bool)
    requires IsEncoding(d)
    ensures Attest(Octets(d), expected, requireStrongBox) ==
      match EffectiveReport(d.fields[6].content, d.fields[7].content)
      case Err(e) => Malformed(e)
      case Ok(report) =>
        Judge(KeyDescription(LevelOf(AsInt(d.fields[1])), d.fields[4].content, report), expected, requireStrongBox)
    ensures forall report ::
      !Judge(KeyDescription(LevelOf(AsInt(d.fields[1])), d.fields[4].content, report), expected, requireStrongBox).Malformed?
  {
    OctetsParse(d);
  }

  lemma {:induction false} JudgedByFirst(d: Encoding, items: seq<Item>, report: Report, expected: Bytes, requireStrongBox: bool)
    requires IsEncoding(d)
    requires report.root.Some? && report.root.value.bootState == Verified <==> IsVerified(items)
    requires report.root.Some? && report.root.value.deviceLocked <==> IsLocked(items)
    requires report.noAuthRequired <==> SaysNoAuth(items)
    ensures
      var k := FirstTrue(Faults(d, items, expected, requireStrongBox));
      Judge(KeyDescription(LevelOf(AsInt(d.fields[1])), d.fields[4].content, report), expected, requireStrongBox)
        == if k < |REFUSALS| then REFUSALS[k] else Accepted
  {
    var faults := Faults(d, items, expected, requireStrongBox);
    var k := FirstTrue(faults);
    assert AsInt(d.fields[1]) == BigEndian(d.fields[1].content);
    hide FirstTrue, IsEncoding, IsVerified, IsLocked, SaysNoAuth, BigEndian, AsInt;
    FirstOfSix(faults);
  }

  /**
   A KeyDescription is accepted exactly when it answers the challenge, its level
   is not "software" (and is StrongBox where that is required), and the list in
   force says locked, verified and authenticated. The list in force is the
   hardware one if it names a root of trust, and otherwise the software one; the
   hardware list must be readable either way.
   */
  lemma {:induction false} AcceptedExactlyWhen(d: Encoding, software: seq<Item>, hardware: seq<Item>, expected: Bytes, requireStrongBox: bool)
    requires IsEncoding(d) && AreItems(software) && AreItems(hardware)
    requires d.fields[6].content == ListOctets(software) && d.fields[7].content == ListOctets(hardware)
    ensures
      var items := InForce(software, hardware);
      var level := BigEndian(d.fields[1].content);
      Attest(Octets(d), expected, requireStrongBox) == Accepted <==>
        && d.fields[4].content == expected
        && level != 0 && (requireStrongBox ==> level == 2)
        && AreWellFormed(hardware) && AreWellFormed(items)
        && IsVerified(items) && IsLocked(items) && !SaysNoAuth(items)
  {
    hide *;
    FirstFaultDecides(d, software, hardware, expected, requireStrongBox);
    NoFault(d, InForce(software, hardware), expected, requireStrongBox);
  }

  lemma {:induction false} NoFault(d: Encoding, items: seq<Item>, expected: Bytes, requireStrongBox: bool)
    requires IsEncoding(d)
    ensures FirstTrue(Faults(d, items, expected, requireStrongBox)) == |REFUSALS| <==>
      var level := BigEndian(d.fields[1].content);
      && d.fields[4].content == expected
      && level != 0 && (requireStrongBox ==> level == 2)
      && IsVerified(items) && IsLocked(items) && !SaysNoAuth(items)
    ensures forall k | 0 <= k < |REFUSALS| :: REFUSALS[k] != Accepted && !REFUSALS[k].Malformed?
  {
    hide IsEncoding, IsVerified, IsLocked, SaysNoAuth, BigEndian, FirstTrue;
    FirstOfSix(Faults(d, items, expected, requireStrongBox));
  }
}
