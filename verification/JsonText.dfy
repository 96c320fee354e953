/**
 The two JSON writers of the system. Python's `json.dumps(sort_keys=True,
 separators=(",", ":"), ensure_ascii=False)` writes any value; the firmware writes
 one fixed object. They escape control characters differently, so what they share
 is a reader: `ReadString` undoes both.
 */
module JsonText {
  import opened Text

  // ---- values, as Python holds them after json.loads

  /** `repr` of a float: a number, Infinity or NaN, and never just an integer numeral. */
  type FloatRepr = s: string | IsFloatRepr(s) witness "0.5"

  predicate IsFloatRepr(s: string) {
    && s != ""
    && (forall i | 0 <= i < |s| :: FloatChar(s[i]))
    && ('.' in s || 'e' in s || 'N' in s || 'I' in s)
  }

  predicate FloatChar(c: char) {
    IsDigit(c) || c in "-+.eINaNfinty"
  }

  datatype Json =
    | Null
    | Bool(b: bool)
    | Int(n: int)
    | Float(repr: FloatRepr)
    | Str(s: string)
    | Arr(items: seq<Json>)
    | Obj(members: seq<Member>)

  datatype Member = Member(key: string, value: Json)

  /** A Python dict in insertion order: no key twice. */
  predicate IsDict(ms: seq<Member>) {
    forall i, j | 0 <= i < j < |ms| :: ms[i].key != ms[j].key
  }

  function Lookup(ms: seq<Member>, key: string): (r: Option<Json>)
    ensures r.Some? ==> Member(key, r.value) in ms
    ensures r.None? ==> forall m | m in ms :: m.key != key
  {
    if ms == [] then None
    else if ms[0].key == key then Some(ms[0].value)
    else Lookup(ms[1..], key)
  }

  lemma {:induction false} LookupInDict(ms: seq<Member>, m: Member)
    requires IsDict(ms) && m in ms
    ensures Lookup(ms, m.key) == Some(m.value)
  {
  }

  // ---- escaping

  function UnicodeEscape(c: char): string
    requires c as int < 0x20
  {
    ['\\', 'u', '0', '0', HexDigit(c as int / 16), HexDigit(c as int % 16)]
  }

  /** The control characters for which Python has a two-character escape. */
  predicate ShortEscape(c: char) {
    c == '\U{8}' || c == '\t' || c == '\n' || c == '\U{c}' || c == '\r'
  }

  function PyEscape(c: char): string {
    if c == '"' || c == '\\' then ['\\', c]
    else if c == '\n' then "\\n"
    else if c == '\r' then "\\r"
    else if c == '\t' then "\\t"
    else if c == '\U{c}' then "\\f"
    else if c == '\U{8}' then "\\b"
    else if c as int < 0x20 then UnicodeEscape(c)
    else [c]
  }

  function FwEscape(c: char): string {
    if c == '"' || c == '\\' then ['\\', c]
    else if c as int < 0x20 then UnicodeEscape(c)
    else [c]
  }

  function PyText(s: string): string {
    if s == "" then "" else PyEscape(s[0]) + PyText(s[1..])
  }

  function FwText(s: string): string {
    if s == "" then "" else FwEscape(s[0]) + FwText(s[1..])
  }

  // ---- reading a string back

  function HexValue(c: char): Option<nat> {
    if IsDigit(c) then Some(c as int - '0' as int)
    else if 'a' <= c <= 'f' then Some(c as int - 'a' as int + 10)
    else if 'A' <= c <= 'F' then Some(c as int - 'A' as int + 10)
    else None
  }

  /** One character of a string literal and what follows it. Escapes above U+00FF are not needed here. */
  function ReadChar(t: string): (r: Option<(char, string)>)
    ensures r.Some? ==> |r.value.1| < |t|
  {
    if |t| == 0 || t[0] == '"' || t[0] as int < 0x20 then None
    else if t[0] != '\\' then Some((t[0], t[1..]))
    else if |t| == 1 then None
    else match t[1]
      case '"' => Some(('"', t[2..]))
      case '\\' => Some(('\\', t[2..]))
      case '/' => Some(('/', t[2..]))
      case 'n' => Some(('\n', t[2..]))
      case 'r' => Some(('\r', t[2..]))
      case 't' => Some(('\t', t[2..]))
      case 'f' => Some(('\U{c}', t[2..]))
      case 'b' => Some(('\U{8}', t[2..]))
      case 'u' =>
        if |t| < 6 || t[2] != '0' || t[3] != '0' || HexValue(t[4]).None? || HexValue(t[5]).None? then None
        else Some(((16 * HexValue(t[4]).value + HexValue(t[5]).value) as char, t[6..]))
      case _ => None
  }

  /** The body of a string literal up to its closing quote, and what follows the quote. */
  function ReadString(t: string): Option<(string, string)>
    decreases |t|
  {
    if |t| > 0 && t[0] == '"' then Some(("", t[1..]))
    else match ReadChar(t)
      case None => None
      case Some((c, rest)) =>
        match ReadString(rest)
        case None => None
        case Some((s, after)) => Some(([c] + s, after))
  }

  lemma {:induction false} ReadEscape(c: char, esc: string, rest: string)
    requires esc == PyEscape(c) || esc == FwEscape(c)
    ensures ReadChar(esc + rest) == Some((c, rest))
    ensures (esc + rest)[0] != '"'
  {
  }

  lemma {:induction false} ReadOne(c: char, esc: string, tail: string, more: string, rest: string)
    requires ReadChar(esc + tail) == Some((c, tail)) && (esc + tail)[..1] != "\"" && ReadString(tail) == Some((more, rest))
    ensures ReadString(esc + tail) == Some(([c] + more, rest))
  {
  }

  lemma {:induction false} ReadEnd(rest: string)
    ensures ReadString("\"" + rest) == Some(("", rest))
  {
    assert ("\"" + rest)[1..] == rest;
  }

  lemma {:induction false} NotQuote(t: string)
    requires t != "" && t[0] != '"'
    ensures t[..1] != "\""
  {
  }

  /** A literal whose first character is escaped as `esc`, the text of the other characters being `more`. */
  lemma {:induction false} QuotedTail(esc: string, more: string, rest: string)
    ensures esc + more + "\"" + rest == esc + (more + "\"" + rest)
  {
  }

  /** One more character, whichever writer escaped it. */
  lemma {:induction false} ReadMore(s: string, esc: string, more: string, rest: string)
    requires s != "" && (esc == PyEscape(s[0]) || esc == FwEscape(s[0]))
    requires ReadString(more + "\"" + rest) == Some((s[1..], rest))
    ensures ReadString(esc + more + "\"" + rest) == Some((s, rest))
  {
    hide *;
    var tail := more + "\"" + rest;
    QuotedTail(esc, more, rest);
    ReadEscape(s[0], esc, tail);
    NotQuote(esc + tail);
    ReadOne(s[0], esc, tail, s[1..], rest);
    assert s == [s[0]] + s[1..];
  }

  lemma {:induction false} NoText(rest: string)
    ensures PyText("") + "\"" + rest == "\"" + rest && FwText("") + "\"" + rest == "\"" + rest
  {
  }

  lemma {:induction false} FirstEscape(s: string)
    requires s != ""
    ensures PyText(s) == PyEscape(s[0]) + PyText(s[1..]) && FwText(s) == FwEscape(s[0]) + FwText(s[1..])
  {
  }

  /** The reader inverts both writers. */
  lemma {:induction false} ReadPyText(s: string, rest: string)
    ensures ReadString(PyText(s) + "\"" + rest) == Some((s, rest))
  {
    hide *;
    if s == "" {
      NoText(rest);
      ReadEnd(rest);
    } else {
      FirstEscape(s);
      ReadPyText(s[1..], rest);
      ReadMore(s, PyEscape(s[0]), PyText(s[1..]), rest);
    }
  }

  lemma {:induction false} ReadFwText(s: string, rest: string)
    ensures ReadString(FwText(s) + "\"" + rest) == Some((s, rest))
  {
    hide *;
    if s == "" {
      NoText(rest);
      ReadEnd(rest);
    } else {
      FirstEscape(s);
      ReadFwText(s[1..], rest);
      ReadMore(s, FwEscape(s[0]), FwText(s[1..]), rest);
    }
  }

  /** A Python literal and a firmware literal at the same place hold the same string. */
  lemma {:induction false} SameLiteral(s: string, x: string, t: string, y: string)
    requires PyText(s) + "\"" + x == FwText(t) + "\"" + y
    ensures s == t && x == y
  {
    ReadPyText(s, x);
    ReadFwText(t, y);
  }

  lemma {:induction false} EscapesAgree(c: char, x: string, y: string)
    ensures PyEscape(c) + x == FwEscape(c) + y <==> !ShortEscape(c) && x == y
  {
    var p, q := PyEscape(c), FwEscape(c);
    if ShortEscape(c) {
      assert (p + x)[1] == p[1] != 'u' && (q + y)[1] == q[1] == 'u';
    } else {
      assert p == q && (p + x)[|p|..] == x && (q + y)[|q|..] == y;
    }
  }

  /** The writers agree on a string exactly when it has no character with a short escape. */
  lemma {:induction false} WritersAgree(s: string)
    ensures PyText(s) == FwText(s) <==> forall i | 0 <= i < |s| :: !ShortEscape(s[i])
  {
    if s != "" {
      WritersAgree(s[1..]);
      assert forall i | 1 <= i < |s| :: s[i] == s[1..][i - 1];
      assert forall i | 0 <= i < |s[1..]| :: s[1..][i] == s[i + 1];
      EscapesAgree(s[0], PyText(s[1..]), FwText(s[1..]));
    }
  }

  /** Characters that both writers copy. */
  predicate Verbatim(s: string) {
    forall i | 0 <= i < |s| :: s[i] as int >= 0x20 && s[i] != '"' && s[i] != '\\'
  }

  lemma {:induction false} VerbatimText(s: string)
    requires Verbatim(s)
    ensures FwText(s) == s && PyText(s) == s
  {
    if s != "" {
      VerbatimText(s[1..]);
      assert s == [s[0]] + s[1..];
    }
  }

  // ---- json.dumps

  /** Order of Python strings; the order of their UTF-8 bytes is the same. */
  predicate KeyLess(a: string, b: string) {
    b != "" && (a == "" || a[0] < b[0] || (a[0] == b[0] && KeyLess(a[1..], b[1..])))
  }

  function InsertByKey(m: Member, ms: seq<Member>): (r: seq<Member>)
    ensures multiset(r) == multiset{m} + multiset(ms)
  {
    if ms == [] || !KeyLess(ms[0].key, m.key) then [m] + ms
    else
      assert ms == [ms[0]] + ms[1..];
      [ms[0]] + InsertByKey(m, ms[1..])
  }

  /** `sort_keys=True`. */
  function SortByKey(ms: seq<Member>): (r: seq<Member>)
    ensures multiset(r) == multiset(ms)
  {
    if ms == [] then []
    else
      assert ms == [ms[0]] + ms[1..];
      InsertByKey(ms[0], SortByKey(ms[1..]))
  }

  /** The value with the members of every object in it sorted. */
  function Canon(v: Json): Json {
    match v
    case Arr(items) => Arr(CanonItems(items))
    case Obj(ms) => Obj(SortByKey(CanonMembers(ms)))
    case _ => v
  }

  function CanonItems(vs: seq<Json>): seq<Json> {
    if vs == [] then [] else [Canon(vs[0])] + CanonItems(vs[1..])
  }

  function CanonMembers(ms: seq<Member>): (r: seq<Member>)
    ensures |r| == |ms|
    ensures forall i | 0 <= i < |ms| :: r[i] == Member(ms[i].key, Canon(ms[i].value))
  {
    if ms == [] then [] else [Member(ms[0].key, Canon(ms[0].value))] + CanonMembers(ms[1..])
  }

  function Print(v: Json): string {
    match v
    case Null => "null"
    case Bool(b) => if b then "true" else "false"
    case Int(n) => IntText(n)
    case Float(repr) => repr
    case Str(s) => "\"" + PyText(s) + "\""
    case Arr(items) => "[" + PrintItems(items) + "]"
    case Obj(ms) => "{" + PrintMembers(ms) + "}"
  }

  function PrintItems(vs: seq<Json>): string {
    if vs == [] then ""
    else Print(vs[0]) + (if |vs| == 1 then "" else "," + PrintItems(vs[1..]))
  }

  function PrintMembers(ms: seq<Member>): string {
    if ms == [] then ""
    else "\"" + PyText(ms[0].key) + "\":" + Print(ms[0].value) + (if |ms| == 1 then "" else "," + PrintMembers(ms[1..]))
  }

  function Dumps(v: Json): string { Print(Canon(v)) }

  // ---- sorting facts

  lemma {:induction false} KeyLessTotal(a: string, b: string)
    ensures KeyLess(a, b) || a == b || KeyLess(b, a)
    ensures !(KeyLess(a, b) && KeyLess(b, a))
  {
    if a != "" && b != "" {
      KeyLessTotal(a[1..], b[1..]);
      assert a == [a[0]] + a[1..] && b == [b[0]] + b[1..];
    }
  }

  lemma {:induction false} KeyLessTransitive(a: string, b: string, c: string)
    requires KeyLess(a, b) && KeyLess(b, c)
    ensures KeyLess(a, c)
  {
    if a != "" && a[0] == b[0] == c[0] {
      KeyLessTransitive(a[1..], b[1..], c[1..]);
    }
  }

  predicate Sorted(ms: seq<Member>) {
    forall i | 0 <= i < |ms| - 1 :: KeyLess(ms[i].key, ms[i + 1].key)
  }

  lemma {:induction false} HeadIsLeast(ms: seq<Member>, i: nat)
    requires Sorted(ms) && 0 < i < |ms|
    ensures KeyLess(ms[0].key, ms[i].key)
  {
    if i > 1 {
      HeadIsLeast(ms, i - 1);
      KeyLessTransitive(ms[0].key, ms[i - 1].key, ms[i].key);
    }
  }

  lemma {:induction false} SameLeast(x: seq<Member>, y: seq<Member>)
    requires Sorted(x) && Sorted(y) && x != [] && y != []
    requires x[0] in y && y[0] in x
    ensures x[0] == y[0]
  {
    var j :| 0 <= j < |y| && y[j] == x[0];
    var i :| 0 <= i < |x| && x[i] == y[0];
    if i > 0 { HeadIsLeast(x, i); }
    if j > 0 { HeadIsLeast(y, j); }
    KeyLessTotal(x[0].key, y[0].key);
  }

  lemma {:induction false} TailMembers(ms: seq<Member>)
    requires ms != []
    ensures ms == [ms[0]] + ms[1..]
    ensures multiset(ms[1..]) == multiset(ms) - multiset{ms[0]}
  {
  }

  lemma {:induction false} TailSorted(ms: seq<Member>)
    requires ms != [] && Sorted(ms)
    ensures Sorted(ms[1..])
  {
  }

  /** Two sorted arrangements of the same members are the same. */
  lemma {:induction false} SortedUnique(x: seq<Member>, y: seq<Member>)
    requires Sorted(x) && Sorted(y) && multiset(x) == multiset(y)
    ensures x == y
  {
    assert |multiset(x)| == |x| && |multiset(y)| == |y|;
    if x != [] {
      assert x[0] in multiset(y) && y[0] in multiset(x);
      SameLeast(x, y);
      TailMembers(x);
      TailMembers(y);
      TailSorted(x);
      TailSorted(y);
      hide Sorted;
      SortedUnique(x[1..], y[1..]);
    }
  }

  lemma {:induction false} InsertKeepsSorted(m: Member, ms: seq<Member>)
    requires Sorted(ms) && forall x | x in ms :: x.key != m.key
    ensures Sorted(InsertByKey(m, ms))
  {
    if ms != [] {
      assert ms[0] in ms;
      KeyLessTotal(ms[0].key, m.key);
      if KeyLess(ms[0].key, m.key) {
        InsertKeepsSorted(m, ms[1..]);
      }
    }
  }

  lemma {:induction false} SortSorts(ms: seq<Member>)
    requires IsDict(ms)
    ensures Sorted(SortByKey(ms)) && multiset(SortByKey(ms)) == multiset(ms)
  {
    if ms != [] {
      SortSorts(ms[1..]);
      forall x | x in SortByKey(ms[1..]) ensures x.key != ms[0].key {
        assert x in multiset(SortByKey(ms[1..]));
        var i :| 0 <= i < |ms[1..]| && ms[1..][i] == x;
        assert ms[i + 1] == x;
      }
      InsertKeepsSorted(ms[0], SortByKey(ms[1..]));
    }
  }
}
