/**
 A reader of JSON text, as `json.loads` is one, written without regard to how the
 signer prints. It gives back every value that the signer prints, so what the
 signer signs says what the object was, up to the order of its keys.
 */
module JsonReader {
  import opened Text
  import opened JsonText
  import opened SignerProtocol

  // ---- the reader

  /** How far a number, NaN or Infinity reaches. */
  function TokenLength(t: string): (k: nat)
    ensures k <= |t| && (forall i | 0 <= i < k :: FloatChar(t[i])) && (k < |t| ==> !FloatChar(t[k]))
  {
    if t == "" || !FloatChar(t[0]) then 0 else 1 + TokenLength(t[1..])
  }

  function ReadNumber(token: string): Option<Json> {
    if token != "" && AllDigits(token) then Some(Int(Value(token)))
    else if |token| > 1 && token[0] == '-' && AllDigits(token[1..]) then Some(Int(0 - Value(token[1..])))
    else if IsFloatRepr(token) then Some(Float(token))
    else None
  }

  /** A string literal after its opening quote; what is left is shorter. */
  function ReadLiteral(t: string): (r: Option<(string, string)>)
    ensures r.Some? ==> |r.value.1| < |t|
  {
    ReadStringShrinks(t);
    ReadString(t)
  }

  lemma {:induction false} ReadStringShrinks(t: string)
    ensures ReadString(t).Some? ==> |ReadString(t).value.1| < |t|
    decreases |t|
  {
    if !(|t| > 0 && t[0] == '"') && ReadChar(t).Some? {
      ReadStringShrinks(ReadChar(t).value.1);
    }
  }

  /** One value, and what follows it. */
  function ReadValue(t: string): (r: Option<(Json, string)>)
    ensures r.Some? ==> |r.value.1| < |t|
    decreases |t|, 0
  {
    if t == "" then None
    else if "null" <= t then Some((Null, t[4..]))
    else if "true" <= t then Some((Bool(true), t[4..]))
    else if "false" <= t then Some((Bool(false), t[5..]))
    else if t[0] == '"' then
      match ReadLiteral(t[1..])
      case None => None
      case Some((s, rest)) => Some((Str(s), rest))
    else if t[0] == '[' then
      if |t| > 1 && t[1] == ']' then Some((Arr([]), t[2..]))
      else
        match ReadItems(t[1..])
        case None => None
        case Some((vs, rest)) => Some((Arr(vs), rest))
    else if t[0] == '{' then
      if |t| > 1 && t[1] == '}' then Some((Obj([]), t[2..]))
      else
        match ReadMembers(t[1..])
        case None => None
        case Some((ms, rest)) => Some((Obj(ms), rest))
    else
      var k := TokenLength(t);
      match ReadNumber(t[..k])
      case None => None
      case Some(v) => if k == 0 then None else Some((v, t[k..]))
  }

  /** The rest of an array, which is not empty. */
  function ReadItems(t: string): (r: Option<(seq<Json>, string)>)
    ensures r.Some? ==> |r.value.1| < |t|
    decreases |t|, 1
  {
    match ReadValue(t)
    case None => None
    case Some((v, rest)) =>
      if rest == "" then None
      else if rest[0] == ']' then Some(([v], rest[1..]))
      else if rest[0] == ',' then
        match ReadItems(rest[1..])
        case None => None
        case Some((vs, after)) => Some(([v] + vs, after))
      else None
  }

  function ReadMember(t: string): (r: Option<(Member, string)>)
    ensures r.Some? ==> |r.value.1| < |t|
    decreases |t|, 0
  {
    if t == "" || t[0] != '"' then None
    else
      match ReadLiteral(t[1..])
      case None => None
      case Some((key, after)) =>
        if after == "" || after[0] != ':' then None
        else
          match ReadValue(after[1..])
          case None => None
          case Some((v, rest)) => Some((Member(key, v), rest))
  }

  /** The rest of an object, which is not empty. */
  function ReadMembers(t: string): (r: Option<(seq<Member>, string)>)
    ensures r.Some? ==> |r.value.1| < |t|
    decreases |t|, 1
  {
    match ReadMember(t)
    case None => None
    case Some((m, rest)) =>
      if rest == "" then None
      else if rest[0] == '}' then Some(([m], rest[1..]))
      else if rest[0] == ',' then
        match ReadMembers(rest[1..])
        case None => None
        case Some((ms, after)) => Some(([m] + ms, after))
      else None
  }

  // ---- what is printed is read back

  /** No number goes on here. */
  predicate IsEnd(t: string) { t == "" || !FloatChar(t[0]) }

  lemma {:induction false} TokenIs(token: string, rest: string)
    requires (forall i | 0 <= i < |token| :: FloatChar(token[i])) && IsEnd(rest)
    ensures TokenLength(token + rest) == |token|
  {
    var k := TokenLength(token + rest);
    assert forall i | 0 <= i < |token| :: (token + rest)[i] == token[i];
    assert rest != "" ==> (token + rest)[|token|] == rest[0];
  }

  lemma {:induction false} IntegerReads(n: int)
    ensures ReadNumber(IntText(n)) == Some(Int(n))
    ensures IntText(n) != "" && forall i | 0 <= i < |IntText(n)| :: FloatChar(IntText(n)[i])
    ensures IsDigit(IntText(n)[0]) || IntText(n)[0] == '-'
  {
    if n < 0 {
      DecimalValue(-n);
      assert IntText(n)[1..] == Decimal(-n);
    } else {
      DecimalValue(n);
    }
  }

  lemma {:induction false} FloatReads(repr: FloatRepr)
    ensures ReadNumber(repr) == Some(Float(repr))
  {
    var i :| 0 <= i < |repr| && (repr[i] == '.' || repr[i] == 'e' || repr[i] == 'N' || repr[i] == 'I');
    assert !IsDigit(repr[i]) && repr[i] != '-';
    assert i > 0 ==> repr[1..][i - 1] == repr[i];
  }

  /** A token of number characters starts none of the other values. */
  lemma {:induction false} TokenReads(token: string, rest: string)
    requires token != "" && (forall i | 0 <= i < |token| :: FloatChar(token[i])) && IsEnd(rest)
    requires ReadNumber(token).Some?
    ensures ReadValue(token + rest) == Some((ReadNumber(token).value, rest))
  {
    var t := token + rest;
    TokenIs(token, rest);
    NotAWord(token, rest);
    assert FloatChar(token[0]) && t[0] == token[0];
    NumberStarts(t, token);
    hide TokenLength, ReadNumber, FloatChar;
    assert t[..|token|] == token && t[|token|..] == rest;
  }

  /** Where a number stands, the reader takes it for one. */
  lemma {:induction false} NumberStarts(t: string, token: string)
    requires t != "" && FloatChar(t[0]) && !("null" <= t) && !("true" <= t) && !("false" <= t)
    requires TokenLength(t) == |token| > 0 && t[..|token|] == token && ReadNumber(token).Some?
    ensures ReadValue(t) == Some((ReadNumber(token).value, t[|token|..]))
  {
    assert t[0] != '"' && t[0] != '[' && t[0] != '{';
    hide FloatChar, TokenLength, ReadNumber;
  }

  lemma {:induction false} NotAWord(token: string, rest: string)
    requires token != "" && (forall i | 0 <= i < |token| :: FloatChar(token[i])) && IsEnd(rest)
    requires ReadNumber(token).Some?
    ensures var t := token + rest; !("null" <= t) && !("true" <= t) && !("false" <= t)
  {
    hide ReadNumber, IsEnd;
    WordsAreNoNumbers();
    NotThisWord(token, rest, "null", 1);
    NotThisWord(token, rest, "true", 1);
    NotThisWord(token, rest, "false", 2);
  }

  lemma {:induction false} WordsAreNoNumbers()
    ensures ReadNumber("null"[..1]).None? && ReadNumber("true"[..1]).None? && ReadNumber("false"[..2]).None?
  {
    assert "null"[..1] == "n" && "true"[..1] == "t" && "false"[..2] == "fa";
    assert !IsDigit("n"[0]) && !IsDigit("t"[0]) && !IsDigit("fa"[0]);
  }

  /** A word whose first `k` characters are no number and whose next one belongs to none. */
  lemma {:induction false} NotThisWord(token: string, rest: string, word: string, k: nat)
    requires (forall i | 0 <= i < |token| :: FloatChar(token[i])) && IsEnd(rest)
    requires k < |word| && !FloatChar(word[k]) && (forall i | 0 <= i < k :: FloatChar(word[i]))
    requires ReadNumber(token).Some? && ReadNumber(word[..k]).None?
    ensures !(word <= token + rest)
  {
    if word <= token + rest {
      WordHasToken(token, rest, word, k);
      assert false;
    }
  }

  lemma {:induction false} WordHasToken(token: string, rest: string, word: string, k: nat)
    requires (forall i | 0 <= i < |token| :: FloatChar(token[i])) && IsEnd(rest)
    requires k < |word| && !FloatChar(word[k]) && (forall i | 0 <= i < k :: FloatChar(word[i]))
    requires word <= token + rest
    ensures token == word[..k]
  {
    var t := token + rest;
    assert t[k] == word[k] && forall i | 0 <= i < k :: t[i] == word[i];
    assert forall i | 0 <= i < |token| :: t[i] == token[i];
    assert |token| < |t| ==> t[|token|] == rest[0];
    assert |token| == k;
  }

  lemma {:induction false} WordReads(word: string, rest: string)
    requires word == "null" || word == "true" || word == "false"
    ensures ReadValue(word + rest) ==
      Some((if word == "null" then Null else Bool(word == "true"), rest))
  {
    var t := word + rest;
    assert word <= t && t[|word|..] == rest && t[0] == word[0];
  }

  lemma {:induction false} FirstCharOf(v: Json)
    ensures Print(v) != "" && Print(v)[0] != ']' && Print(v)[0] != '}'
  {
    if v.Int? {
      IntegerReads(v.n);
    } else if v.Float? {
      assert FloatChar(v.repr[0]);
    }
    hide IntText, PrintItems, PrintMembers, PyText;
  }

  lemma {:induction false} LiteralReads(s: string, rest: string)
    ensures ReadValue("\"" + PyText(s) + "\"" + rest) == Some((Str(s), rest))
  {
    var t := "\"" + PyText(s) + "\"" + rest;
    assert t[0] == '"' && t[1..] == PyText(s) + "\"" + rest;
    ReadPyText(s, rest);
  }

  lemma {:induction false} ArrayReads(text: string, vs: seq<Json>, rest: string)
    requires text != "" && text[0] != ']' && ReadItems(text + "]" + rest) == Some((vs, rest))
    ensures ReadValue("[" + text + "]" + rest) == Some((Arr(vs), rest))
  {
    hide ReadItems, ReadMembers, ReadLiteral;
    var t := "[" + text + "]" + rest;
    assert t[0] == '[' && t[1] == text[0] && t[1..] == text + "]" + rest;
  }

  lemma {:induction false} ObjectReads(text: string, ms: seq<Member>, rest: string)
    requires text != "" && text[0] != '}' && ReadMembers(text + "}" + rest) == Some((ms, rest))
    ensures ReadValue("{" + text + "}" + rest) == Some((Obj(ms), rest))
  {
    var t := "{" + text + "}" + rest;
    assert t[0] == '{' && t[1] == text[0] && t[1..] == text + "}" + rest;
  }

  lemma {:induction false} EmptyReads(rest: string)
    ensures ReadValue("[" + "" + "]" + rest) == Some((Arr([]), rest))
    ensures ReadValue("{" + "" + "}" + rest) == Some((Obj([]), rest))
  {
    var a, o := "[" + "" + "]" + rest, "{" + "" + "}" + rest;
    assert a[0] == '[' && a[1] == ']' && a[2..] == rest;
    assert o[0] == '{' && o[1] == '}' && o[2..] == rest;
  }

  /** Every value is read back from what is printed of it, whatever follows that is no number. */
  lemma {:induction false} PrintReads(v: Json, rest: string)
    requires IsEnd(rest)
    ensures ReadValue(Print(v) + rest) == Some((v, rest))
  {
    match v
    case Null => WordReads("null", rest);
    case Bool(b) => WordReads(if b then "true" else "false", rest);
    case Int(n) =>
      IntegerReads(n);
      TokenReads(IntText(n), rest);
    case Float(repr) =>
      FloatReads(repr);
      TokenReads(repr, rest);
    case Str(s) => LiteralReads(s, rest);
    case Arr(items) =>
      if items == [] {
        EmptyReads(rest);
      } else {
        ItemsRead(items, rest);
        ItemsStart(items);
        ArrayReads(PrintItems(items), items, rest);
      }
    case Obj(ms) =>
      if ms == [] {
        EmptyReads(rest);
      } else {
        MembersRead(ms, rest);
        ObjectReads(PrintMembers(ms), ms, rest);
      }
  }

  lemma {:induction false} ItemsStart(vs: seq<Json>)
    requires vs != []
    ensures PrintItems(vs) != "" && PrintItems(vs)[0] != ']'
  {
    FirstCharOf(vs[0]);
  }

  /** What the printer writes after the first of several things. */
  function More(n: nat, others: string, close: string, rest: string): string {
    (if n == 1 then "" else "," + others) + close + rest
  }

  lemma {:induction false} ItemsText(vs: seq<Json>, rest: string)
    requires vs != []
    ensures PrintItems(vs) + "]" + rest == Print(vs[0]) + More(|vs|, PrintItems(vs[1..]), "]", rest)
  {
    Regroup(Print(vs[0]), if |vs| == 1 then "" else "," + PrintItems(vs[1..]), "]", rest);
  }

  lemma {:induction false} Regroup(a: string, b: string, c: string, d: string)
    ensures a + b + c + d == a + (b + c + d)
  {
  }

  lemma {:induction false} MoreStarts(n: nat, others: string, close: string, rest: string)
    requires close == "]" || close == "}"
    ensures var more := More(n, others, close, rest);
      && IsEnd(more) && more != "" && more[0] == (if n == 1 then close[0] else ',')
      && more[1..] == if n == 1 then rest else others + close + rest
  {
    if n != 1 {
      Regroup(",", others, close, rest);
    }
  }

  lemma {:induction false} OneItemRead(t: string, v: Json, more: string)
    requires ReadValue(t) == Some((v, more)) && more != ""
    ensures more[0] == ']' ==> ReadItems(t) == Some(([v], more[1..]))
    ensures more[0] == ',' && ReadItems(more[1..]).Some? ==>
      ReadItems(t) == Some(([v] + ReadItems(more[1..]).value.0, ReadItems(more[1..]).value.1))
  {
    hide ReadValue;
  }

  lemma {:induction false} ItemsRead(vs: seq<Json>, rest: string)
    requires vs != []
    ensures ReadItems(PrintItems(vs) + "]" + rest) == Some((vs, rest))
  {
    hide *;
    var more := More(|vs|, PrintItems(vs[1..]), "]", rest);
    ItemsText(vs, rest);
    MoreStarts(|vs|, PrintItems(vs[1..]), "]", rest);
    PrintReads(vs[0], more);
    OneItemRead(Print(vs[0]) + more, vs[0], more);
    if |vs| > 1 {
      ItemsRead(vs[1..], rest);
      assert vs == [vs[0]] + vs[1..];
    } else {
      assert vs == [vs[0]];
    }
  }

  /** One member as it is printed. */
  function MemberText(m: Member): string { "\"" + PyText(m.key) + "\":" + Print(m.value) }

  lemma {:induction false} MemberReads(m: Member, more: string)
    requires ReadValue(Print(m.value) + more) == Some((m.value, more))
    ensures ReadMember(MemberText(m) + more) == Some((m, more))
  {
    var after := ":" + (Print(m.value) + more);
    MemberSplits(PyText(m.key), Print(m.value), more);
    ReadPyText(m.key, after);
    ReadLiteralThen(MemberText(m) + more, m.key, Print(m.value) + more);
  }

  lemma {:induction false} MemberSplits(key: string, value: string, more: string)
    ensures var t := "\"" + key + "\":" + value + more;
      t[0] == '"' && t[1..] == key + "\"" + (":" + (value + more))
  {
  }

  lemma {:induction false} ReadLiteralThen(t: string, key: string, rest: string)
    requires t != "" && t[0] == '"' && ReadString(t[1..]) == Some((key, ":" + rest))
    ensures ReadMember(t) ==
      match ReadValue(rest)
      case None => None
      case Some((v, more)) => Some((Member(key, v), more))
  {
    hide ReadString, ReadValue;
    assert (":" + rest)[0] == ':' && (":" + rest)[1..] == rest;
  }

  lemma {:induction false} MembersText(ms: seq<Member>, rest: string)
    requires ms != []
    ensures PrintMembers(ms) + "}" + rest == MemberText(ms[0]) + More(|ms|, PrintMembers(ms[1..]), "}", rest)
    ensures PrintMembers(ms) != "" && PrintMembers(ms)[0] == '"'
  {
    Regroup(MemberText(ms[0]), if |ms| == 1 then "" else "," + PrintMembers(ms[1..]), "}", rest);
  }

  lemma {:induction false} OneMemberRead(t: string, m: Member, more: string)
    requires ReadMember(t) == Some((m, more)) && more != ""
    ensures more[0] == '}' ==> ReadMembers(t) == Some(([m], more[1..]))
    ensures more[0] == ',' && ReadMembers(more[1..]).Some? ==>
      ReadMembers(t) == Some(([m] + ReadMembers(more[1..]).value.0, ReadMembers(more[1..]).value.1))
  {
    hide ReadMember;
  }

  lemma {:induction false} MembersRead(ms: seq<Member>, rest: string)
    requires ms != []
    ensures ReadMembers(PrintMembers(ms) + "}" + rest) == Some((ms, rest))
    ensures PrintMembers(ms) != "" && PrintMembers(ms)[0] == '"'
  {
    hide *;
    var more := More(|ms|, PrintMembers(ms[1..]), "}", rest);
    MembersText(ms, rest);
    MoreStarts(|ms|, PrintMembers(ms[1..]), "}", rest);
    PrintReads(ms[0].value, more);
    MemberReads(ms[0], more);
    OneMemberRead(MemberText(ms[0]) + more, ms[0], more);
    if |ms| > 1 {
      MembersRead(ms[1..], rest);
      assert ms == [ms[0]] + ms[1..];
    } else {
      assert ms == [ms[0]];
    }
  }

  /** `json.loads` undoes `json.dumps`, but for the order of keys. */
  lemma {:induction false} DumpsReads(v: Json)
    ensures ReadValue(Dumps(v)) == Some((Canon(v), ""))
  {
    PrintReads(Canon(v), "");
    assert Print(Canon(v)) + "" == Dumps(v);
  }

  /** Two objects have the same signed bytes exactly when they are the same up to the order of keys. */
  lemma {:induction false} BytesDetermineObject(p: seq<Member>, q: seq<Member>)
    ensures CanonicalBytes(p) == CanonicalBytes(q) <==> Canon(Obj(p)) == Canon(Obj(q))
  {
    if CanonicalBytes(p) == CanonicalBytes(q) {
      assert CanonicalBytes(p)[|COMMAND_DOMAIN|..] == Dumps(Obj(p)) && CanonicalBytes(q)[|COMMAND_DOMAIN|..] == Dumps(Obj(q));
      DumpsReads(Obj(p));
      DumpsReads(Obj(q));
    }
  }
}
