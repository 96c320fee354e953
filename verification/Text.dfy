/**
 Text as the system handles it: PostgreSQL `text`, Python `str` and Arduino `String`.
 A `string` here is a UTF-8 encoding, one `char` for each byte, so that
 `convert_to(.., 'UTF8')` and `.encode("utf-8")` are the identity.
 */
module Text {

  datatype Option<+T> = None | Some(value: T) {
    function GetOr(default: T): T {
      match this
      case Some(v) => v
      case None => default
    }
  }

  // ---- separators

  /** A separator that neither head contains marks the same place in equal strings. */
  lemma {:induction false} SplitAtFirst(a: string, x: string, b: string, y: string, c: char)
    requires c !in a && c !in b
    requires a + [c] + x == b + [c] + y
    ensures a == b && x == y
  {
    var s := a + [c] + x;
    var t := b + [c] + y;
    assert s[|a|] == c && t[|b|] == c;
    assert forall i | 0 <= i < |a| :: s[i] == a[i] != c;
    assert forall i | 0 <= i < |b| :: t[i] == b[i] != c;
    assert a == s[..|a|] && b == t[..|b|];
    assert x == s[|a| + 1..] && y == t[|b| + 1..];
  }

  /** The mirror image: neither tail contains the separator. */
  lemma {:induction false} SplitAtLast(x: string, a: string, y: string, b: string, c: char)
    requires c !in a && c !in b
    requires x + [c] + a == y + [c] + b
    ensures a == b && x == y
  {
    LastSeparator(x, a, y, b, c);
    LastSeparator(y, b, x, a, c);
    var s := x + [c] + a;
    assert x == s[..|x|] && y == s[..|y|];
    assert a == s[|x| + 1..] && b == s[|y| + 1..];
  }

  lemma {:induction false} LastSeparator(x: string, a: string, y: string, b: string, c: char)
    requires c !in b && x + [c] + a == y + [c] + b
    ensures |x| <= |y|
  {
    var s := y + [c] + b;
    assert forall i | |y| < i < |s| :: s[i] == b[i - |y| - 1] != c;
    assert s[|x|] == (x + [c] + a)[|x|] == c;
  }

  /** Equal strings that end in pieces of equal length have the same pieces. */
  lemma {:induction false} SplitAtLength(x: string, a: string, y: string, b: string)
    requires |a| == |b|
    requires x + a == y + b
    ensures x == y && a == b
  {
    assert x == (x + a)[..|x|] && y == (y + b)[..|y|];
    assert a == (x + a)[|x|..] && b == (y + b)[|y|..];
  }

  // ---- decimal numerals

  predicate IsDigit(c: char) { '0' <= c <= '9' }

  predicate AllDigits(s: string) { forall i | 0 <= i < |s| :: IsDigit(s[i]) }

  function Digit(d: nat): (c: char)
    requires d < 10
    ensures IsDigit(c) && c as int - '0' as int == d
  {
    ('0' as int + d) as char
  }

  function Decimal(n: nat): (s: string)
    ensures |s| > 0 && AllDigits(s)
  {
    if n < 10 then [Digit(n)] else Decimal(n / 10) + [Digit(n % 10)]
  }

  function IntText(n: int): string {
    if n < 0 then "-" + Decimal(-n) else Decimal(n)
  }

  function Zeros(n: nat): (s: string)
    ensures |s| == n && AllDigits(s)
  {
    seq(n, _ => '0')
  }

  /** `%0*d`: at least `width` digits. */
  function Padded(n: nat, width: nat): (s: string)
    ensures |s| > 0 && AllDigits(s)
  {
    var digits := Decimal(n);
    Zeros(if |digits| < width then width - |digits| else 0) + digits
  }

  /** Reads a numeral back. */
  function Value(s: string): nat
    requires AllDigits(s)
  {
    if s == "" then 0
    else 10 * Value(s[..|s| - 1]) + (s[|s| - 1] as int - '0' as int)
  }

  lemma {:induction false} DecimalValue(n: nat)
    ensures Value(Decimal(n)) == n
  {
    if n < 10 {
      assert Decimal(n)[..0] == "";
    } else {
      DecimalValue(n / 10);
      assert Decimal(n)[..|Decimal(n)| - 1] == Decimal(n / 10);
    }
  }

  lemma {:induction false} LeadingZeros(k: nat, s: string)
    requires AllDigits(s)
    ensures AllDigits(Zeros(k) + s) && Value(Zeros(k) + s) == Value(s)
  {
    var t := Zeros(k) + s;
    if s == "" {
      if k > 0 {
        LeadingZeros(k - 1, s);
        assert t[..|t| - 1] == Zeros(k - 1) + s;
      }
    } else {
      LeadingZeros(k, s[..|s| - 1]);
      assert t[..|t| - 1] == Zeros(k) + s[..|s| - 1];
    }
  }

  lemma {:induction false} PaddedInjective(a: nat, b: nat, width: nat)
    requires Padded(a, width) == Padded(b, width)
    ensures a == b
  {
    DecimalValue(a);
    DecimalValue(b);
    LeadingZeros(|Padded(a, width)| - |Decimal(a)|, Decimal(a));
    LeadingZeros(|Padded(b, width)| - |Decimal(b)|, Decimal(b));
  }

  lemma {:induction false} IntTextInjective(a: int, b: int)
    requires IntText(a) == IntText(b)
    ensures a == b
  {
    DecimalValue(if a < 0 then -a else a);
    DecimalValue(if b < 0 then -b else b);
    if a < 0 {
      assert IntText(a)[0] == '-';
      assert IntText(a)[1..] == Decimal(-a);
    }
    if b < 0 {
      assert IntText(b)[0] == '-';
      assert IntText(b)[1..] == Decimal(-b);
    }
  }

  function Pow10(k: nat): (p: nat)
    ensures p > 0
  {
    if k == 0 then 1 else 10 * Pow10(k - 1)
  }

  lemma {:induction false} DecimalLength(n: nat, k: nat)
    requires 0 < k && n < Pow10(k)
    ensures |Decimal(n)| <= k
  {
    if n >= 10 {
      assert Pow10(1) == 10;
      assert k > 1;
      assert n / 10 < Pow10(k - 1);
      DecimalLength(n / 10, k - 1);
    }
  }

  // ---- UUIDs

  type Nibble = n: int | 0 <= n < 16

  /** A UUID as its 32 hexadecimal digits. */
  type Uuid = u: seq<Nibble> | |u| == 32 witness seq(32, _ => 0)

  function HexDigit(n: Nibble): (c: char)
    ensures IsDigit(c) || 'a' <= c <= 'f'
  {
    if n < 10 then Digit(n) else ('a' as int + n - 10) as char
  }

  function Hex(u: seq<Nibble>): (s: string)
    ensures |s| == |u|
    ensures forall i | 0 <= i < |s| :: s[i] == HexDigit(u[i])
  {
    seq(|u|, i requires 0 <= i < |u| => HexDigit(u[i]))
  }

  function UuidText(u: Uuid): (s: string)
    ensures |s| == 36
    ensures forall i | 0 <= i < |s| :: s[i] == '-' || IsDigit(s[i]) || 'a' <= s[i] <= 'f'
  {
    Hex(u[..8]) + "-" + Hex(u[8..12]) + "-" + Hex(u[12..16]) + "-" + Hex(u[16..20]) + "-" + Hex(u[20..])
  }

  lemma {:induction false} HexInjective(u: seq<Nibble>, v: seq<Nibble>)
    requires Hex(u) == Hex(v)
    ensures u == v
  {
  }

  lemma {:induction false} UuidParts(u: Uuid)
    ensures var s := UuidText(u);
      && s[..8] == Hex(u[..8]) && s[9..13] == Hex(u[8..12]) && s[14..18] == Hex(u[12..16])
      && s[19..23] == Hex(u[16..20]) && s[24..] == Hex(u[20..])
  {
  }

  lemma {:induction false} UuidTextInjective(u: Uuid, v: Uuid)
    requires UuidText(u) == UuidText(v)
    ensures u == v
  {
    hide Hex, UuidText;
    UuidParts(u);
    UuidParts(v);
    HexInjective(u[..8], v[..8]);
    HexInjective(u[8..12], v[8..12]);
    HexInjective(u[12..16], v[12..16]);
    HexInjective(u[16..20], v[16..20]);
    HexInjective(u[20..], v[20..]);
    assert u == u[..8] + u[8..12] + u[12..16] + u[16..20] + u[20..];
    assert v == v[..8] + v[8..12] + v[12..16] + v[16..20] + v[20..];
  }

  /** Where the first of some conditions holds; their number if none does. */
  function FirstTrue(bs: seq<bool>): (k: nat)
    ensures k <= |bs| && (k < |bs| ==> bs[k]) && forall i | 0 <= i < k :: !bs[i]
  {
    if bs == [] || bs[0] then 0 else 1 + FirstTrue(bs[1..])
  }

  lemma {:induction false} FirstOfSix(bs: seq<bool>)
    requires |bs| == 6
    ensures FirstTrue(bs) ==
      if bs[0] then 0 else if bs[1] then 1 else if bs[2] then 2 else if bs[3] then 3 else if bs[4] then 4 else if bs[5] then 5 else 6
  {
    hide FirstTrue;
    var k := FirstTrue(bs);
    assert bs[..6] == bs;
  }

  lemma {:induction false} FirstOfFour(bs: seq<bool>)
    requires |bs| == 4
    ensures FirstTrue(bs) == if bs[0] then 0 else if bs[1] then 1 else if bs[2] then 2 else if bs[3] then 3 else 4
  {
    hide FirstTrue;
    var k := FirstTrue(bs);
    assert bs[..4] == bs;
  }

  lemma {:induction false} FirstOfEight(bs: seq<bool>)
    requires |bs| == 8
    ensures FirstTrue(bs) ==
      if bs[0] then 0 else if bs[1] then 1 else if bs[2] then 2 else if bs[3] then 3
      else if bs[4] then 4 else if bs[5] then 5 else if bs[6] then 6 else if bs[7] then 7 else 8
  {
    hide FirstTrue;
    var k := FirstTrue(bs);
    assert bs[..8] == bs;
  }
}
