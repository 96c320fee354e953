/**
 The signer (Python) and the controller (C++) never exchange the bytes that are
 signed: each writes them from its own copy of the fields. `ByteAgreement` says
 when the two texts are the same, and so what a valid signature proves to the
 controller about the object that the signer saw.
 */
module CommandAgreement {
  import opened Text
  import opened JsonText
  import opened SignerProtocol
  import opened FirmwareCommand

  // ---- values up to a delimiter

  predicate Delimiter(c: char) { c == ',' || c == '}' }

  predicate Undelimited(s: string) { forall i | 0 <= i < |s| :: !Delimiter(s[i]) }

  predicate AtDelimiter(s: string) { s != "" && Delimiter(s[0]) }

  lemma {:induction false} SplitAtDelimiter(a: string, x: string, b: string, y: string)
    requires Undelimited(a) && Undelimited(b) && AtDelimiter(x) && AtDelimiter(y)
    requires a + x == b + y
    ensures a == b && x == y
  {
    var s, t := a + x, b + y;
    assert Delimiter(s[|a|]) && Delimiter(t[|b|]);
    assert forall i | 0 <= i < |a| :: s[i] == a[i];
    assert forall i | 0 <= i < |b| :: t[i] == b[i];
    assert a == s[..|a|] && b == t[..|b|] && x == s[|a|..] && y == t[|b|..];
  }

  lemma {:induction false} NumeralChars(n: int)
    ensures IntText(n) != ""
    ensures forall i | 0 <= i < |IntText(n)| :: IsDigit(IntText(n)[i]) || IntText(n)[i] == '-'
  {
  }

  /** A float is never written like an integer. */
  lemma {:induction false} FloatIsNotNumeral(repr: FloatRepr, n: int)
    ensures repr != IntText(n)
    ensures Undelimited(repr)
  {
    NumeralChars(n);
  }

  /** Where the firmware wrote a number, the signer can only have written the same integer. */
  lemma {:induction false} SameNumber(v: Json, x: string, n: int, y: string)
    requires AtDelimiter(x) && AtDelimiter(y)
    requires Print(v) + x == IntText(n) + y
    ensures v == Int(n) && x == y
  {
    NumeralChars(n);
    assert (IntText(n) + y)[0] == IntText(n)[0];
    assert Print(v) != "" ==> (Print(v) + x)[0] == Print(v)[0];
    if v.Int? {
      NumeralChars(v.n);
      SplitAtDelimiter(IntText(v.n), x, IntText(n), y);
      IntTextInjective(v.n, n);
    } else if v.Float? {
      FloatIsNotNumeral(v.repr, n);
      SplitAtDelimiter(v.repr, x, IntText(n), y);
      assert false;
    } else {
      OtherFirstChar(v);
      assert false;
    }
  }

  lemma {:induction false} OtherFirstChar(v: Json)
    requires !v.Int? && !v.Float?
    ensures Print(v) != "" && !IsDigit(Print(v)[0]) && Print(v)[0] != '-'
    ensures Print(v)[0] == '"' <==> v.Str?
  {
  }

  /** Where the firmware wrote a string, the signer can only have written the same string. */
  lemma {:induction false} SameText(v: Json, x: string, s: string, y: string)
    requires Print(v) + x == "\"" + FwText(s) + "\"" + y
    requires AtDelimiter(x)
    ensures v == Str(s) && x == y
  {
    if v.Str? {
      SameQuoted(v.s, x, s, y);
    } else {
      NotQuoted(v);
      SameFirstChar(Print(v), x, FwText(s) + "\"" + y);
      assert false;
    }
  }

  lemma {:induction false} SameFirstChar(a: string, x: string, z: string)
    requires a != "" && a + x == "\"" + z
    ensures a[0] == '"'
  {
    assert (a + x)[0] == a[0] && ("\"" + z)[0] == '"';
  }

  lemma {:induction false} SameQuoted(a: string, x: string, s: string, y: string)
    requires "\"" + PyText(a) + "\"" + x == "\"" + FwText(s) + "\"" + y
    ensures a == s && x == y
  {
    Regrouped(PyText(a), x);
    Regrouped(FwText(s), y);
    DropFirst('"', PyText(a) + "\"" + x, FwText(s) + "\"" + y);
    SameLiteral(a, x, s, y);
  }

  lemma {:induction false} Regrouped(a: string, x: string)
    ensures "\"" + a + "\"" + x == ['"'] + (a + "\"" + x)
  {
  }

  lemma {:induction false} NotQuoted(v: Json)
    requires !v.Str?
    ensures Print(v) != "" && Print(v)[0] != '"'
  {
    if v.Int? {
      NumeralChars(v.n);
    } else if v.Float? {
      assert FloatChar(v.repr[0]);
    } else {
      OtherFirstChar(v);
    }
  }

  lemma {:induction false} SameValue(v: Json, x: string, w: Json, y: string)
    requires Scalar(w) && AtDelimiter(x) && AtDelimiter(y)
    requires Print(v) + x == FwValue(w) + y
    ensures v == w && x == y
  {
    if w.Int? {
      SameNumber(v, x, w.n, y);
    } else {
      SameText(v, x, w.s, y);
    }
  }

  // ---- objects, member by member

  /** What the firmware writes between the braces. */
  function FwMembers(ms: seq<Member>): string
    requires AllScalar(ms)
  {
    if ms == [] then ""
    else "\"" + ms[0].key + "\":" + FwValue(ms[0].value) + (if |ms| == 1 then "" else "," + FwMembers(ms[1..]))
  }

  predicate VerbatimKeys(ms: seq<Member>) {
    forall i | 0 <= i < |ms| :: Verbatim(ms[i].key)
  }

  function Tail(ms: seq<Member>, text: string): string {
    (if |ms| == 1 then "" else "," + text) + "}"
  }

  lemma {:induction false} PrintSplits(ms: seq<Member>)
    requires ms != []
    ensures PrintMembers(ms) + "}" == "\"" + (PyText(ms[0].key) + "\"" + (":" + (Print(ms[0].value) + Tail(ms, PrintMembers(ms[1..])))))
  {
  }

  lemma {:induction false} FwSplits(ms: seq<Member>)
    requires ms != [] && AllScalar(ms)
    ensures FwMembers(ms) + "}" == "\"" + (ms[0].key + "\"" + (":" + (FwValue(ms[0].value) + Tail(ms, FwMembers(ms[1..])))))
  {
  }

  lemma {:induction false} DropFirst(c: char, x: string, y: string)
    requires [c] + x == [c] + y
    ensures x == y
  {
    assert x == ([c] + x)[1..] && y == ([c] + y)[1..];
  }

  /** Objects that the two sides write alike are the same object. */
  lemma {:induction false} SameMembers(ms: seq<Member>, fs: seq<Member>)
    requires AllScalar(fs) && VerbatimKeys(fs)
    requires PrintMembers(ms) + "}" == FwMembers(fs) + "}"
    ensures ms == fs
    decreases |ms|
  {
    FirstChars(ms, fs);
    hide PrintMembers, FwMembers;
    if ms != [] {
      OtherFields(fs);
      hide *;
      SameObjects(ms, fs);
      SameMembers(ms[1..], fs[1..]);
      assert ms == [ms[0]] + ms[1..] && fs == [fs[0]] + fs[1..];
    }
  }

  lemma {:induction false} OtherFields(fs: seq<Member>)
    requires fs != [] && AllScalar(fs) && VerbatimKeys(fs)
    ensures Verbatim(fs[0].key) && VerbatimKeys(fs[1..]) && AllScalar(fs[1..]) && Scalar(fs[0].value)
  {
  }

  /** The first members, and what remains of the two texts. */
  lemma {:induction false} SameObjects(ms: seq<Member>, fs: seq<Member>)
    requires ms != [] && fs != [] && AllScalar(fs) && Scalar(fs[0].value) && Verbatim(fs[0].key)
    requires AllScalar(fs[1..])
    requires PrintMembers(ms) + "}" == FwMembers(fs) + "}"
    ensures ms[0] == fs[0] && PrintMembers(ms[1..]) + "}" == FwMembers(fs[1..]) + "}"
  {
    PrintSplits(ms);
    FwSplits(fs);
    VerbatimText(fs[0].key);
    LastTexts(ms, fs);
    var x, y := Tail(ms, PrintMembers(ms[1..])), Tail(fs, FwMembers(fs[1..]));
    TailStarts(ms, PrintMembers(ms[1..]));
    TailStarts(fs, FwMembers(fs[1..]));
    hide *;
    DropFirst('"', PyText(ms[0].key) + "\"" + (":" + (Print(ms[0].value) + x)),
              FwText(fs[0].key) + "\"" + (":" + (FwValue(fs[0].value) + y)));
    SameLiteral(ms[0].key, ":" + (Print(ms[0].value) + x), fs[0].key, ":" + (FwValue(fs[0].value) + y));
    DropFirst(':', Print(ms[0].value) + x, FwValue(fs[0].value) + y);
    SameValue(ms[0].value, x, fs[0].value, y);
    SameTail(ms, PrintMembers(ms[1..]), fs, FwMembers(fs[1..]));
  }

  lemma {:induction false} TailStarts(ms: seq<Member>, text: string)
    ensures AtDelimiter(Tail(ms, text))
  {
  }

  lemma {:induction false} LastTexts(ms: seq<Member>, fs: seq<Member>)
    requires ms != [] && fs != [] && AllScalar(fs[1..])
    ensures |ms| == 1 ==> PrintMembers(ms[1..]) == ""
    ensures |fs| == 1 ==> FwMembers(fs[1..]) == ""
  {
  }

  lemma {:induction false} FirstChars(ms: seq<Member>, fs: seq<Member>)
    requires AllScalar(fs)
    ensures (PrintMembers(ms) + "}")[0] == if ms == [] then '}' else '"'
    ensures (FwMembers(fs) + "}")[0] == if fs == [] then '}' else '"'
  {
    if ms != [] { PrintSplits(ms); }
    if fs != [] { FwSplits(fs); }
  }

  lemma {:induction false} SameTail(ms: seq<Member>, x: string, fs: seq<Member>, y: string)
    requires ms != [] && fs != []
    requires Tail(ms, x) == Tail(fs, y)
    requires |ms| == 1 ==> x == ""
    requires |fs| == 1 ==> y == ""
    ensures |ms| == 1 <==> |fs| == 1
    ensures x + "}" == y + "}"
  {
    assert Tail(ms, x)[0] == (if |ms| == 1 then '}' else ',');
    assert Tail(fs, y)[0] == (if |fs| == 1 then '}' else ',');
    if |ms| > 1 {
      assert Tail(ms, x) == "," + (x + "}") && Tail(fs, y) == "," + (y + "}");
      DropFirst(',', x + "}", y + "}");
    }
  }

  predicate NoShortEscape(v: Json) {
    v.Str? ==> forall i | 0 <= i < |v.s| :: !ShortEscape(v.s[i])
  }

  lemma {:induction false} ValuesAgree(v: Json)
    requires Scalar(v)
    ensures Print(v) == FwValue(v) <==> NoShortEscape(v)
  {
    if v.Str? {
      WritersAgree(v.s);
      if Print(v) == FwValue(v) {
        assert Print(v)[1..|Print(v)| - 1] == PyText(v.s);
        assert FwValue(v)[1..|FwValue(v)| - 1] == FwText(v.s);
      }
    }
  }

  /** The same object is written alike exactly when no string in it has a short escape. */
  lemma {:induction false} MembersAgree(fs: seq<Member>)
    requires AllScalar(fs) && VerbatimKeys(fs)
    ensures PrintMembers(fs) + "}" == FwMembers(fs) + "}" <==> forall i | 0 <= i < |fs| :: NoShortEscape(fs[i].value)
  {
    if fs != [] {
      var x, y := Tail(fs, PrintMembers(fs[1..])), Tail(fs, FwMembers(fs[1..]));
      var v := fs[0].value;
      PrintSplits(fs);
      FwSplits(fs);
      VerbatimText(fs[0].key);
      ValuesAgree(v);
      MembersAgree(fs[1..]);
      assert forall i | 0 <= i < |fs[1..]| :: fs[1..][i] == fs[i + 1];
      assert forall i | 1 <= i < |fs| :: fs[i] == fs[1..][i - 1];
      if PrintMembers(fs) + "}" == FwMembers(fs) + "}" {
        DropFirst('"', PyText(fs[0].key) + "\"" + (":" + (Print(v) + x)), FwText(fs[0].key) + "\"" + (":" + (FwValue(v) + y)));
        SameLiteral(fs[0].key, ":" + (Print(v) + x), fs[0].key, ":" + (FwValue(v) + y));
        DropFirst(':', Print(v) + x, FwValue(v) + y);
        SameValue(v, x, v, y);
        SameTail(fs, PrintMembers(fs[1..]), fs, FwMembers(fs[1..]));
        SplitAtLength(Print(v), x, FwValue(v), y);
      } else {
        TailsAgree(fs, PrintMembers(fs[1..]), FwMembers(fs[1..]));
      }
    }
  }

  lemma {:induction false} TailsAgree(fs: seq<Member>, x: string, y: string)
    ensures x + "}" == y + "}" ==> Tail(fs, x) == Tail(fs, y)
  {
    if x + "}" == y + "}" {
      SplitAtLength(x, "}", y, "}");
    }
  }

  // ---- the command

  function Unwritten(fs: seq<Member>, n: nat): string
    requires n <= |fs| && AllScalar(fs)
  {
    if n == 0 then FwMembers(fs) else if n == |fs| then "" else "," + FwMembers(fs[n..])
  }

  lemma {:induction false} MoveMember(a: string, s: string, q: string, k: string, d: string, v: string, t: string)
    ensures a + (s + (q + k + d + v + t)) == (a + s + q + k + d + v) + t
  {
  }

  lemma {:induction false} UnwrittenStep(fs: seq<Member>, n: nat)
    requires n < |fs| && AllScalar(fs)
    ensures Unwritten(fs, n) == (if n == 0 then "" else ",")
              + ("\"" + fs[n].key + "\":" + FwValue(fs[n].value) + Unwritten(fs, n + 1))
  {
    var rest := fs[n..];
    assert rest[0] == fs[n] && rest[1..] == fs[n + 1..];
    if n == 0 {
      assert rest == fs;
      NoSeparator(FwMembers(fs));
    }
  }

  lemma {:induction false} NoSeparator(x: string)
    ensures "" + x == x
  {
  }

  /** What the formatter has written, and what it still will, make up the whole object. */
  lemma {:induction false} WrittenSplits(fs: seq<Member>, n: nat)
    requires n <= |fs| && AllScalar(fs)
    ensures Written(fs, n) + Unwritten(fs, n) == Written(fs, 0) + Unwritten(fs, 0)
  {
    hide *;
    if n > 0 {
      WrittenSplits(fs, n - 1);
      MemberMoves(fs, n - 1);
    }
  }

  /** One more member goes from what will be written to what has been. */
  lemma {:induction false} MemberMoves(fs: seq<Member>, n: nat)
    requires n < |fs| && AllScalar(fs)
    ensures Written(fs, n) + Unwritten(fs, n) == Written(fs, n + 1) + Unwritten(fs, n + 1)
  {
    var comma := if n == 0 then "" else ",";
    assert AllScalar(fs) ==> Scalar(fs[n].value);
    hide *;
    UnwrittenStep(fs, n);
    MoveMember(Written(fs, n), comma, "\"", fs[n].key, "\":", FwValue(fs[n].value), Unwritten(fs, n + 1));
    WrittenStep(fs, n, comma);
  }

  lemma {:induction false} WrittenStep(fs: seq<Member>, n: nat, comma: string)
    requires n < |fs| && AllScalar(fs) && comma == if n == 0 then "" else ","
    ensures Written(fs, n + 1) == Written(fs, n) + comma + "\"" + fs[n].key + "\":" + FwValue(fs[n].value)
  {
  }

  lemma {:induction false} BodyIsObject(c: UnlockCommand)
    ensures FirmwareBody(c) == "{" + (FwMembers(CommandMembers(c)) + "}")
  {
    AllWritten(CommandMembers(c));
  }

  lemma {:induction false} AllWritten(fs: seq<Member>)
    requires fs != [] && AllScalar(fs)
    ensures Written(fs, |fs|) + "}" == "{" + (FwMembers(fs) + "}")
  {
    WrittenSplits(fs, |fs|);
    var text, inner := Written(fs, |fs|), FwMembers(fs);
    assert text + "" == text;
    assert ("{" + inner) + "}" == "{" + (inner + "}");
  }

  lemma {:induction false} KeysInOrder(c: UnlockCommand)
    ensures Sorted(CommandMembers(c))
  {
    assert KeyLess("cmd", "command_id");
    assert KeyLess("command_id", "controller_code");
    assert KeyLess("controller_code", "door_code");
    assert KeyLess("door_code", "duration_ms");
    assert KeyLess("duration_ms", "expires_at");
    assert KeyLess("expires_at", "issued_at");
    assert KeyLess("issued_at", "nonce");
    assert KeyLess("nonce", "relay_channel");
  }

  lemma {:induction false} KeysAreVerbatim(c: UnlockCommand)
    ensures VerbatimKeys(CommandMembers(c))
  {
    CodesAreVerbatim();
    NumbersAreVerbatim();
    hide Verbatim;
  }

  lemma {:induction false} CodesAreVerbatim()
    ensures Verbatim("cmd") && Verbatim("command_id") && Verbatim("controller_code") && Verbatim("door_code")
  {
  }

  lemma {:induction false} NumbersAreVerbatim()
    ensures Verbatim("duration_ms") && Verbatim("expires_at") && Verbatim("issued_at") && Verbatim("nonce")
    ensures Verbatim("relay_channel")
  {
  }

  /** Sorting nested objects does nothing to an object of strings and integers. */
  lemma {:induction false} CanonOfScalars(ms: seq<Member>)
    ensures AllScalar(CanonMembers(ms)) ==> CanonMembers(ms) == ms
    ensures AllScalar(ms) ==> CanonMembers(ms) == ms
  {
    var cs := CanonMembers(ms);
    assert forall i | 0 <= i < |ms| :: Scalar(cs[i].value) ==> cs[i] == ms[i];
    assert forall i | 0 <= i < |ms| :: Scalar(ms[i].value) ==> cs[i] == ms[i];
  }

  lemma {:induction false} PermutedScalars(ms: seq<Member>, fs: seq<Member>)
    requires multiset(ms) == multiset(fs) && AllScalar(fs)
    ensures AllScalar(ms)
  {
    forall i | 0 <= i < |ms| ensures Scalar(ms[i].value) {
      assert ms[i] in multiset(fs);
    }
  }

  /** The members of a dict, sorted, are `fs` exactly when it has just the members `fs`. */
  lemma {:induction false} SortedIs(payload: seq<Member>, fs: seq<Member>)
    requires IsDict(payload) && Sorted(fs) && AllScalar(fs)
    ensures SortByKey(CanonMembers(payload)) == fs <==> multiset(payload) == multiset(fs)
  {
    CanonOfScalars(payload);
    if SortByKey(CanonMembers(payload)) == fs {
      assert multiset(CanonMembers(payload)) == multiset(fs);
      PermutedScalars(CanonMembers(payload), fs);
    }
    if multiset(payload) == multiset(fs) {
      PermutedScalars(payload, fs);
      SortSorts(payload);
      SortedUnique(SortByKey(payload), fs);
    }
  }

  predicate CommandHasNoShortEscape(c: UnlockCommand) {
    && NoShortEscape(Str(c.commandId)) && NoShortEscape(Str(c.controllerCode))
    && NoShortEscape(Str(c.doorCode)) && NoShortEscape(Str(c.nonce))
  }

  lemma {:induction false} EscapesOfCommand(c: UnlockCommand)
    ensures CommandHasNoShortEscape(c) <==> forall i | 0 <= i < 9 :: NoShortEscape(CommandMembers(c)[i].value)
  {
    var fs := CommandMembers(c);
    assert fs[0].value == Str("unlock") && NoShortEscape(fs[0].value);
    assert fs[1].value == Str(c.commandId) && fs[2].value == Str(c.controllerCode);
    assert fs[3].value == Str(c.doorCode) && fs[7].value == Str(c.nonce);
  }

  lemma {:induction false} DumpsObject(payload: seq<Member>)
    ensures Dumps(Obj(payload)) == "{" + (PrintMembers(SortByKey(CanonMembers(payload))) + "}")
  {
    var inner := PrintMembers(SortByKey(CanonMembers(payload)));
    assert ("{" + inner) + "}" == "{" + (inner + "}");
  }

  lemma {:induction false} SameBytesSameText(x: string, y: string)
    ensures COMMAND_DOMAIN + ("{" + x) == COMMAND_DOMAIN + ("{" + y) ==> x == y
  {
    var d: string := COMMAND_DOMAIN;
    if d + ("{" + x) == d + ("{" + y) {
      assert "{" + x == (d + ("{" + x))[|d|..] && "{" + y == (d + ("{" + y))[|d|..];
      DropFirst('{', x, y);
    }
  }

  /**
   For every object the signer can be given and every command the firmware can
   hold, the two write the same bytes exactly when the object has the nine known
   members, with the command's values and nothing else, and none of its strings
   contains a backspace, tab, newline, form feed or carriage return.
   */
  lemma {:induction false} ByteAgreement(payload: seq<Member>, c: UnlockCommand)
    requires IsDict(payload)
    ensures CanonicalBytes(payload) == FirmwareBytes(c)
       <==> multiset(payload) == multiset(CommandMembers(c)) && CommandHasNoShortEscape(c)
  {
    var fs := CommandMembers(c);
    var ms := SortByKey(CanonMembers(payload));
    BodyIsObject(c);
    DumpsObject(payload);
    SameBytesSameText(PrintMembers(ms) + "}", FwMembers(fs) + "}");
    KeysInOrder(c);
    SortedIs(payload, fs);
    ObjectsAgree(ms, c);
  }

  lemma {:induction false} ObjectsAgree(ms: seq<Member>, c: UnlockCommand)
    ensures PrintMembers(ms) + "}" == FwMembers(CommandMembers(c)) + "}"
       <==> ms == CommandMembers(c) && CommandHasNoShortEscape(c)
  {
    var fs := CommandMembers(c);
    KeysAreVerbatim(c);
    EscapesOfCommand(c);
    MembersAgree(fs);
    if PrintMembers(ms) + "}" == FwMembers(fs) + "}" {
      SameMembers(ms, fs);
    }
  }

  // ---- the command after delivery

  lemma {:induction false} DictCounts(ms: seq<Member>, m: Member)
    requires IsDict(ms)
    ensures multiset(ms)[m] == if m in ms then 1 else 0
  {
    if ms != [] {
      DictCounts(ms[1..], m);
      TailMembers(ms);
      assert m in ms <==> m == ms[0] || m in ms[1..];
      if m == ms[0] {
        assert forall i | 0 <= i < |ms[1..]| :: ms[1..][i] == ms[i + 1];
        assert m !in ms[1..];
      }
    }
  }

  /** A dict that contains all of another dict of its size has the same members. */
  lemma {:induction false} SameSizeDicts(ms: seq<Member>, fs: seq<Member>)
    requires IsDict(ms) && IsDict(fs) && |ms| == |fs|
    requires forall i | 0 <= i < |fs| :: fs[i] in ms
    ensures multiset(ms) == multiset(fs)
  {
    forall m ensures multiset(fs)[m] <= multiset(ms)[m] {
      DictCounts(ms, m);
      DictCounts(fs, m);
    }
    assert multiset(fs) <= multiset(ms);
    assert |multiset(ms) - multiset(fs)| == 0;
    assert multiset(ms) == multiset(fs) + (multiset(ms) - multiset(fs));
  }

  lemma {:induction false} SortedIsDict(ms: seq<Member>)
    requires Sorted(ms)
    ensures IsDict(ms)
  {
    forall i, j | 0 <= i < j < |ms| ensures ms[i].key != ms[j].key {
      assert Sorted(ms[i..]);
      HeadIsLeast(ms[i..], j - i);
      KeyLessTotal(ms[i].key, ms[j].key);
      KeyLessIrreflexive(ms[i].key);
    }
  }

  lemma {:induction false} KeyLessIrreflexive(a: string)
    ensures !KeyLess(a, a)
  {
    KeyLessTotal(a, a);
  }

  /** A character that survives neither the C string nor the two escapers. */
  predicate Unfaithful(c: char) { c == '\0' || ShortEscape(c) }

  predicate Faithful(v: Option<Json>) {
    v.Some? && v.value.Str? && forall i | 0 <= i < |v.value.s| :: !Unfaithful(v.value.s[i])
  }

  predicate FaithfulStrings(payload: seq<Member>) {
    && Faithful(Lookup(payload, "command_id")) && Faithful(Lookup(payload, "controller_code"))
    && Faithful(Lookup(payload, "door_code")) && Faithful(Lookup(payload, "nonce"))
  }

  lemma {:induction false} CStringFaithful(s: string)
    ensures (forall i | 0 <= i < |s| :: !Unfaithful(s[i])) <==> CString(s) == s && NoShortEscape(Str(s))
  {
    if CString(s) == s {
      assert forall i | 0 <= i < |s| :: s[i] != '\0';
    }
  }

  /** A dict has the members `fs` exactly when it answers every lookup as they do. */
  lemma {:induction false} DictByLookups(ms: seq<Member>, fs: seq<Member>)
    requires IsDict(ms) && IsDict(fs) && |ms| == |fs|
    ensures multiset(ms) == multiset(fs) <==> forall i | 0 <= i < |fs| :: Lookup(ms, fs[i].key) == Some(fs[i].value)
  {
    if multiset(ms) == multiset(fs) {
      forall i | 0 <= i < |fs| ensures Lookup(ms, fs[i].key) == Some(fs[i].value) {
        assert fs[i] in multiset(ms);
        LookupInDict(ms, fs[i]);
      }
    }
    if forall i | 0 <= i < |fs| :: Lookup(ms, fs[i].key) == Some(fs[i].value) {
      assert forall i | 0 <= i < |fs| :: Member(fs[i].key, fs[i].value) == fs[i];
      SameSizeDicts(ms, fs);
    }
  }

  predicate StringsKept(payload: seq<Member>, c: UnlockCommand) {
    && Lookup(payload, "command_id") == Some(Str(c.commandId))
    && Lookup(payload, "controller_code") == Some(Str(c.controllerCode))
    && Lookup(payload, "door_code") == Some(Str(c.doorCode))
    && Lookup(payload, "nonce") == Some(Str(c.nonce))
  }

  predicate NumbersKept(payload: seq<Member>, c: UnlockCommand) {
    && Lookup(payload, "duration_ms") == Some(Int(c.durationMs))
    && Lookup(payload, "relay_channel") == Some(Int(c.relayChannel))
    && Lookup(payload, "issued_at") == Some(Int(c.issuedAt))
    && Lookup(payload, "expires_at") == Some(Int(c.expiresAt))
  }

  lemma {:induction false} LookupsByName(payload: seq<Member>, c: UnlockCommand)
    ensures (forall i | 0 <= i < 9 :: Lookup(payload, CommandMembers(c)[i].key) == Some(CommandMembers(c)[i].value))
       <==> Lookup(payload, "cmd") == Some(Str("unlock")) && StringsKept(payload, c) && NumbersKept(payload, c)
  {
    AnswersByName(payload, CommandMembers(c), c);
  }

  /** The members of a command, one by one. */
  predicate AreMembersOf(fs: seq<Member>, c: UnlockCommand) {
    && |fs| == 9
    && fs[0] == Member("cmd", Str("unlock")) && fs[1] == Member("command_id", Str(c.commandId))
    && fs[2] == Member("controller_code", Str(c.controllerCode)) && fs[3] == Member("door_code", Str(c.doorCode))
    && fs[4] == Member("duration_ms", Int(c.durationMs)) && fs[5] == Member("expires_at", Int(c.expiresAt))
    && fs[6] == Member("issued_at", Int(c.issuedAt)) && fs[7] == Member("nonce", Str(c.nonce))
    && fs[8] == Member("relay_channel", Int(c.relayChannel))
  }

  lemma {:induction false} AnswersByName(payload: seq<Member>, fs: seq<Member>, c: UnlockCommand)
    requires AreMembersOf(fs, c)
    ensures (forall i | 0 <= i < 9 :: Lookup(payload, fs[i].key) == Some(fs[i].value))
       <==> Lookup(payload, "cmd") == Some(Str("unlock")) && StringsKept(payload, c) && NumbersKept(payload, c)
  {
    hide Lookup;
  }

  lemma {:induction false} ParsedKeeps(payload: seq<Member>, c: UnlockCommand)
    requires Parsed(payload) == Some(c)
    ensures NumbersKept(payload, c)
    ensures StringsKept(payload, c) && CommandHasNoShortEscape(c) <==> FaithfulStrings(payload)
  {
    hide Lookup, CString, NoShortEscape;
    CStringFaithful(Lookup(payload, "command_id").value.s);
    CStringFaithful(Lookup(payload, "controller_code").value.s);
    CStringFaithful(Lookup(payload, "door_code").value.s);
    CStringFaithful(Lookup(payload, "nonce").value.s);
  }

  /**
   A signed object with the nine known fields that arrives unchanged is rebuilt
   byte for byte exactly when no string in it contains NUL, backspace, tab,
   newline, form feed or carriage return.
   */
  lemma {:induction false} DeliveredBytes(payload: seq<Member>, c: UnlockCommand)
    requires IsDict(payload) && |payload| == 9
    requires Lookup(payload, "cmd") == Some(Str("unlock"))
    requires Parsed(payload) == Some(c)
    ensures CanonicalBytes(payload) == FirmwareBytes(c) <==> FaithfulStrings(payload)
  {
    ByteAgreement(payload, c);
    KeysInOrder(c);
    SortedIsDict(CommandMembers(c));
    DictByLookups(payload, CommandMembers(c));
    LookupsByName(payload, c);
    ParsedKeeps(payload, c);
  }
}
