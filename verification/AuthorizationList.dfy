/**
 Reading an AuthorizationList of the key attestation extension:
 `_scan_authorization_list`, a hand-written walk over tagged items whose tag
 numbers need the multi-byte form.

 `ScanMeetsEncoding` says what the walk reports on any list of items, however
 their tags and lengths are written; `ReportsLast` says what that report means.
 */
module AuthorizationList {
  import opened Text
  import opened Der

  const TAG_ROOT_OF_TRUST := 704
  const TAG_NO_AUTH_REQUIRED := 503
  const TAG_USER_AUTH_TYPE := 504

  datatype BootState = Verified | SelfSigned | Unverified | Failed | Unknown

  datatype RootOfTrust = RootOfTrust(bootState: BootState, deviceLocked: bool)

  /** The dictionary `out`; `root` holds its keys `boot_state` and `device_locked`, which are set together. */
  datatype Report = Report(root: Option<RootOfTrust>, noAuthRequired: bool, userAuthType: Option<nat>)

  function Empty(): Report { Report(None, false, None) }

  function BootStateOf(n: nat): BootState {
    if n == 0 then Verified else if n == 1 then SelfSigned else if n == 2 then Unverified
    else if n == 3 then Failed else Unknown
  }

  // ---- what one item contributes

  /** The root of trust in an item's body; `None` when it has fewer than three fields. */
  function RootIn(body: Bytes): Result<Option<RootOfTrust>> {
    match ReadTlv(body, 0)
    case Err(e) => Err(e)
    case Ok((inner, _)) =>
      match ValuesFrom(inner.content, 0)
      case Err(e) => Err(e)
      case Ok(fields) =>
        if |fields| < 3 then Ok(None)
        else Ok(Some(RootOfTrust(BootStateOf(AsInt(fields[2])), fields[1].content == [255])))
  }

  function AuthTypeIn(body: Bytes): Result<nat> {
    match ReadTlv(body, 0)
    case Err(e) => Err(e)
    case Ok((inner, _)) => Ok(AsInt(inner))
  }

  function Apply(report: Report, number: nat, body: Bytes): Result<Report> {
    if number == TAG_ROOT_OF_TRUST then
      match RootIn(body)
      case Err(e) => Err(e)
      case Ok(None) => Ok(report)
      case Ok(root) => Ok(report.(root := root))
    else if number == TAG_NO_AUTH_REQUIRED then Ok(report.(noAuthRequired := true))
    else if number == TAG_USER_AUTH_TYPE then
      match AuthTypeIn(body)
      case Err(e) => Err(e)
      case Ok(n) => Ok(report.(userAuthType := Some(n)))
    else Ok(report)
  }

  // ---- the walk over bytes

  /** `content[a:b]` in Python, which clips both ends. */
  function Clip(content: Bytes, a: nat, b: nat): Bytes
    requires a <= b
  {
    content[(if a < |content| then a else |content|)..(if b < |content| then b else |content|)]
  }

  /** The base-128 digits from `cursor`, and the offset after the last one. */
  function DigitsFrom(content: Bytes, cursor: nat, number: nat): (r: (nat, nat))
    requires cursor <= |content|
    ensures cursor <= r.1 <= |content|
    decreases |content| - cursor
  {
    if cursor == |content| then (number, cursor)
    else
      var more := number * 128 + content[cursor] % 128;
      if content[cursor] < 128 then (more, cursor + 1) else DigitsFrom(content, cursor + 1, more)
  }

  function TagAt(content: Bytes, offset: nat): (r: (nat, nat))
    requires offset < |content|
    ensures offset < r.1 <= |content|
  {
    if content[offset] % 32 == 31 then DigitsFrom(content, offset + 1, 0)
    else (content[offset] % 32, offset + 1)
  }

  /** The length at `cursor` and the offset of the body. */
  function LengthAt(content: Bytes, cursor: nat): (r: (nat, nat))
    requires cursor < |content|
    ensures r.1 > cursor
  {
    var first := content[cursor];
    if first < 128 then (first, cursor + 1)
    else (BigEndian(Clip(content, cursor + 1, cursor + 1 + first % 128)), cursor + 1 + first % 128)
  }

  /** What stands at an offset: a tag number, a clipped body, and the offset of the next item. */
  datatype Found = Found(number: nat, body: Bytes, next: nat)

  /** The item at `offset`; `None` when the list ends after its tag. */
  function ItemAt(content: Bytes, offset: nat): (r: Option<Found>)
    requires offset < |content|
    ensures r.Some? ==> r.value.next > offset
  {
    var (number, cursor) := TagAt(content, offset);
    if cursor >= |content| then None
    else
      var (length, start) := LengthAt(content, cursor);
      Some(Found(number, Clip(content, start, start + length), start + length))
  }

  function ScanFrom(content: Bytes, offset: nat, report: Report): Result<Report>
    decreases |content| - offset
  {
    if offset >= |content| then Ok(report)
    else
      match ItemAt(content, offset)
      case None => Ok(report)
      case Some(item) =>
        match Apply(report, item.number, item.body)
        case Err(e) => Err(e)
        case Ok(next) => ScanFrom(content, item.next, next)
  }

  /** The loop over a multi-byte tag. */
  method ReadDigits(content: Bytes, start: nat) returns (number: nat, cursor: nat)
    requires start <= |content|
    ensures (number, cursor) == DigitsFrom(content, start, 0)
  {
    number, cursor := 0, start;
    while cursor < |content|
      invariant start <= cursor <= |content|
      invariant DigitsFrom(content, start, 0) == DigitsFrom(content, cursor, number)
    {
      var byte := content[cursor];
      cursor := cursor + 1;
      number := number * 128 + byte % 128;
      if byte < 128 { break; }
    }
  }

  method ApplyItem(report: Report, number: nat, body: Bytes) returns (r: Result<Report>)
    ensures r == Apply(report, number, body)
  {
    if number == TAG_ROOT_OF_TRUST {
      var inner := ReadTlv(body, 0);
      if inner.Err? { return Err(inner.error); }
      var fields := ReadSequence(inner.value.0.content);
      if fields.Err? { return Err(fields.error); }
      if |fields.value| >= 3 {
        var locked := fields.value[1].content == [255];
        return Ok(report.(root := Some(RootOfTrust(BootStateOf(AsInt(fields.value[2])), locked))));
      }
    } else if number == TAG_NO_AUTH_REQUIRED {
      return Ok(report.(noAuthRequired := true));
    } else if number == TAG_USER_AUTH_TYPE {
      var inner := ReadTlv(body, 0);
      if inner.Err? { return Err(inner.error); }
      return Ok(report.(userAuthType := Some(AsInt(inner.value.0))));
    }
    return Ok(report);
  }

  method ReadItem(content: Bytes, offset: nat) returns (r: Option<Found>)
    requires offset < |content|
    ensures r == ItemAt(content, offset)
  {
    var first := content[offset];
    var number, cursor := first % 32, offset + 1;
    if first % 32 == 31 {
      number, cursor := ReadDigits(content, offset + 1);
    }
    if cursor >= |content| { return None; }
    var (length, start) := LengthAt(content, cursor);
    return Some(Found(number, Clip(content, start, start + length), start + length));
  }

  /** `_scan_authorization_list`; it ends on every input. */
  method ScanAuthorizationList(content: Bytes) returns (r: Result<Report>)
    ensures r == ScanFrom(content, 0, Empty())
  {
    var report := Empty();
    var offset := 0;
    ghost var goal := ScanFrom(content, 0, Empty());
    while offset < |content|
      invariant 0 <= offset
      invariant goal == ScanFrom(content, offset, report)
      decreases |content| - offset
    {
      var item := ReadItem(content, offset);
      if item.None? { break; }
      var applied := ApplyItem(report, item.value.number, item.value.body);
      if applied.Err? { return Err(applied.error); }
      report, offset := applied.value, item.value.next;
    }
    return Ok(report);
  }

  // ---- the encodings of a list

  type Digit = d: nat | d < 128

  /** An identifier: a low tag number in the first octet, or base-128 digits after it, leading zeros allowed. */
  datatype Tag = Low(number: nat) | High(digits: seq<Digit>)

  /** `bits` are the class and the constructed bit, which the walk ignores. */
  datatype Item = Item(bits: nat, tag: Tag, form: LengthForm, body: Bytes)

  predicate IsItem(item: Item) {
    && item.bits < 8
    && Expresses(item.form, |item.body|, 127)
    && match item.tag
       case Low(n) => n < 31
       case High(digits) => digits != []
  }

  predicate AreItems(items: seq<Item>) {
    forall i | 0 <= i < |items| :: IsItem(items[i])
  }

  function Base128(digits: seq<Digit>, number: nat): nat {
    if digits == [] then number else Base128(digits[1..], number * 128 + digits[0])
  }

  function Number(tag: Tag): nat {
    match tag
    case Low(n) => n
    case High(digits) => Base128(digits, 0)
  }

  function DigitOctets(digits: seq<Digit>): (octets: Bytes)
    ensures |octets| == |digits|
  {
    if digits == [] then []
    else
      var first: Byte := (digits[0] as int) + if |digits| > 1 then 128 else 0;
      [first] + DigitOctets(digits[1..])
  }

  function TagOctets(item: Item): (octets: Bytes)
    requires IsItem(item)
    ensures octets != []
  {
    match item.tag
    case Low(n) => [item.bits * 32 + n]
    case High(digits) => [item.bits * 32 + 31] + DigitOctets(digits)
  }

  function ItemOctets(item: Item): (octets: Bytes)
    requires IsItem(item)
    ensures octets != []
  {
    TagOctets(item) + (LengthOctets(|item.body|, item.form) + item.body)
  }

  function ListOctets(items: seq<Item>): Bytes
    requires AreItems(items)
  {
    if items == [] then [] else ItemOctets(items[0]) + ListOctets(items[1..])
  }

  /** Every number has digits. */
  function Digits(n: nat): (digits: seq<Digit>)
    ensures digits != []
  {
    if n < 128 then [n] else Digits(n / 128) + [n % 128]
  }

  lemma {:induction false} DigitsInverse(n: nat)
    ensures Number(High(Digits(n))) == n
  {
    if n < 128 {
      assert Base128(Digits(n)[1..], n) == n;
    } else {
      DigitsInverse(n / 128);
      Base128Append(Digits(n / 128), [n % 128], 0);
      assert [n % 128][1..] == [];
    }
  }

  lemma {:induction false} Base128Append(a: seq<Digit>, b: seq<Digit>, number: nat)
    ensures Base128(a + b, number) == Base128(b, Base128(a, number))
    decreases |a|
  {
    if a == [] {
      assert a + b == b;
    } else {
      assert (a + b)[1..] == a[1..] + b;
      Base128Append(a[1..], b, number * 128 + a[0]);
    }
  }

  // ---- the walk visits exactly the items

  lemma {:induction false} DigitsRead(content: Bytes, cursor: nat, digits: seq<Digit>, rest: Bytes, number: nat)
    requires digits != []
    requires cursor <= |content| && content[cursor..] == DigitOctets(digits) + rest
    ensures cursor + |digits| <= |content|
    ensures DigitsFrom(content, cursor, number) == (Base128(digits, number), cursor + |digits|)
    ensures content[cursor + |digits|..] == rest
    decreases |digits|
  {
    var first: Byte := (digits[0] as int) + if |digits| > 1 then 128 else 0;
    NextByte(content, cursor, first, DigitOctets(digits[1..]), rest);
    if |digits| == 1 {
      assert DigitOctets(digits[1..]) + rest == rest;
      assert Base128(digits, number) == Base128(digits[1..], number * 128 + digits[0]) == number * 128 + digits[0];
    } else {
      DigitsRead(content, cursor + 1, digits[1..], rest, number * 128 + digits[0]);
    }
  }

  lemma {:induction false} NextByte(content: Bytes, cursor: nat, first: Byte, more: Bytes, rest: Bytes)
    requires cursor <= |content| && content[cursor..] == [first] + more + rest
    ensures cursor < |content| && content[cursor] == first
    ensures content[cursor + 1..] == more + rest
  {
  }

  lemma {:induction false} TagRead(content: Bytes, offset: nat, item: Item, rest: Bytes)
    requires IsItem(item)
    requires offset <= |content| && content[offset..] == TagOctets(item) + rest
    ensures offset < |content|
    ensures TagAt(content, offset) == (Number(item.tag), offset + |TagOctets(item)|)
    ensures offset + |TagOctets(item)| <= |content| && content[offset + |TagOctets(item)|..] == rest
  {
    match item.tag
    case Low(n) =>
      FirstByte(content, offset, item.bits * 32 + n, [], rest);
    case High(digits) =>
      NextByte(content, offset, item.bits * 32 + 31, DigitOctets(digits), rest);
      DigitsRead(content, offset + 1, digits, rest, 0);
  }

  lemma {:induction false} LengthRead(content: Bytes, cursor: nat, n: nat, form: LengthForm, rest: Bytes)
    requires Expresses(form, n, 127)
    requires cursor <= |content| && content[cursor..] == LengthOctets(n, form) + rest
    ensures cursor < |content|
    ensures LengthAt(content, cursor) == (n, cursor + |LengthOctets(n, form)|)
    ensures cursor + |LengthOctets(n, form)| <= |content| && content[cursor + |LengthOctets(n, form)|..] == rest
  {
    if form.Long? {
      LongLengthRead(content, cursor, n, form.octets, rest);
    } else {
      FirstByte(content, cursor, n, [], rest);
    }
  }

  lemma {:induction false} FirstByte(content: Bytes, cursor: nat, first: Byte, more: Bytes, rest: Bytes)
    requires cursor <= |content| && content[cursor..] == [first] + more + rest
    ensures cursor + 1 + |more| <= |content| && content[cursor] == first
    ensures content[cursor + 1..cursor + 1 + |more|] == more && content[cursor + 1 + |more|..] == rest
  {
    NextByte(content, cursor, first, more, rest);
    TailSlices(content, cursor + 1, more, rest);
  }

  lemma {:induction false} LongLengthRead(content: Bytes, cursor: nat, n: nat, k: nat, rest: Bytes)
    requires 1 <= k < 128 && n < Pow256(k)
    requires cursor <= |content| && content[cursor..] == [128 + k] + ToBigEndian(n, k) + rest
    ensures cursor < |content| && LengthAt(content, cursor) == (n, cursor + 1 + k)
    ensures cursor + 1 + k <= |content| && content[cursor + 1 + k..] == rest
  {
    FirstByte(content, cursor, 128 + k, ToBigEndian(n, k), rest);
    BigEndianInverse(n, k);
  }

  lemma {:induction false} ItemRead(content: Bytes, offset: nat, item: Item, rest: Bytes)
    requires IsItem(item)
    requires offset <= |content| && content[offset..] == ItemOctets(item) + rest
    ensures offset < |content|
    ensures ItemAt(content, offset) == Some(Found(Number(item.tag), item.body, offset + |ItemOctets(item)|))
    ensures offset + |ItemOctets(item)| <= |content| && content[offset + |ItemOctets(item)|..] == rest
  {
    hide *;
    ItemLength(item);
    var cursor := offset + |TagOctets(item)|;
    var start := cursor + |LengthOctets(|item.body|, item.form)|;
    HeadRead(content, offset, item, rest);
    BodyRead(content, offset, Number(item.tag), cursor, start, item.body, rest);
  }

  lemma {:induction false} ItemLength(item: Item)
    requires IsItem(item)
    ensures Expresses(item.form, |item.body|, 127)
    ensures |ItemOctets(item)| == |TagOctets(item)| + |LengthOctets(|item.body|, item.form)| + |item.body|
  {
  }

  lemma {:induction false} BodyRead(content: Bytes, offset: nat, number: nat, cursor: nat, start: nat, body: Bytes, rest: Bytes)
    requires offset < |content| && TagAt(content, offset) == (number, cursor)
    requires cursor < |content| && LengthAt(content, cursor) == (|body|, start)
    requires start <= |content| && content[start..] == body + rest
    ensures ItemAt(content, offset) == Some(Found(number, body, start + |body|))
    ensures start + |body| <= |content| && content[start + |body|..] == rest
  {
    TailSlices(content, start, body, rest);
  }

  /** The identifier and length octets of an item. */
  lemma {:induction false} HeadRead(content: Bytes, offset: nat, item: Item, rest: Bytes)
    requires IsItem(item)
    requires offset <= |content| && content[offset..] == ItemOctets(item) + rest
    ensures
      var cursor := offset + |TagOctets(item)|;
      var start := cursor + |LengthOctets(|item.body|, item.form)|;
      && offset < |content| && TagAt(content, offset) == (Number(item.tag), cursor)
      && cursor < |content| && LengthAt(content, cursor) == (|item.body|, start)
      && start <= |content| && content[start..] == item.body + rest
  {
    hide *;
    TagThenLength(content, offset, item, rest);
    LengthRead(content, offset + |TagOctets(item)|, |item.body|, item.form, item.body + rest);
  }

  lemma {:induction false} TagThenLength(content: Bytes, offset: nat, item: Item, rest: Bytes)
    requires IsItem(item)
    requires offset <= |content| && content[offset..] == ItemOctets(item) + rest
    ensures
      var cursor := offset + |TagOctets(item)|;
      && offset < |content| && TagAt(content, offset) == (Number(item.tag), cursor)
      && Expresses(item.form, |item.body|, 127)
      && cursor <= |content| && content[cursor..] == LengthOctets(|item.body|, item.form) + (item.body + rest)
  {
    var length := LengthOctets(|item.body|, item.form);
    ItemThenRest(TagOctets(item), length, item.body, rest);
    TagRead(content, offset, item, length + (item.body + rest));
  }

  lemma {:induction false} ItemThenRest(a: Bytes, b: Bytes, c: Bytes, d: Bytes)
    ensures a + (b + c) + d == a + (b + (c + d))
  {
  }

  /** What the items contribute, one after another. */
  function Fold(items: seq<Item>, report: Report): Result<Report> {
    if items == [] then Ok(report)
    else
      match Apply(report, Number(items[0].tag), items[0].body)
      case Err(e) => Err(e)
      case Ok(next) => Fold(items[1..], next)
  }

  /** The walk reads the items one after another and goes on with whatever follows them. */
  lemma {:induction false} ScanReads(content: Bytes, offset: nat, items: seq<Item>, tail: Bytes, report: Report)
    requires AreItems(items)
    requires offset <= |content| && content[offset..] == ListOctets(items) + tail
    ensures ScanFrom(content, offset, report) ==
      match Fold(items, report)
      case Err(e) => Err(e)
      case Ok(r) => ScanFrom(content, |content| - |tail|, r)
    decreases |items|
  {
    hide *;
    if items == [] {
      ScanEnds(content, offset, tail, report);
    } else {
      FoldOne(items, report);
      var first := items[0];
      var next := offset + |ItemOctets(first)|;
      var rest := ListOctets(items[1..]) + tail;
      assert ItemOctets(first) + ListOctets(items[1..]) + tail == ItemOctets(first) + rest;
      ItemRead(content, offset, first, rest);
      ScanOne(content, offset, Found(Number(first.tag), first.body, next), report);
      var applied := Apply(report, Number(first.tag), first.body);
      if applied.Ok? {
        ScanReads(content, next, items[1..], tail, applied.value);
      }
    }
  }

  lemma {:induction false} ScanEnds(content: Bytes, offset: nat, tail: Bytes, report: Report)
    requires offset <= |content| && content[offset..] == ListOctets([]) + tail
    ensures Fold([], report) == Ok(report) && offset == |content| - |tail|
  {
  }

  lemma {:induction false} FoldOne(items: seq<Item>, report: Report)
    requires AreItems(items) && items != []
    ensures IsItem(items[0]) && AreItems(items[1..]) && ListOctets(items) == ItemOctets(items[0]) + ListOctets(items[1..])
    ensures Fold(items, report) ==
      match Apply(report, Number(items[0].tag), items[0].body)
      case Err(e) => Err(e)
      case Ok(next) => Fold(items[1..], next)
  {
  }

  /** One turn of the walk. */
  lemma {:induction false} ScanOne(content: Bytes, offset: nat, found: Found, report: Report)
    requires offset < |content| && ItemAt(content, offset) == Some(found)
    ensures ScanFrom(content, offset, report) ==
      match Apply(report, found.number, found.body)
      case Err(e) => Err(e)
      case Ok(next) => ScanFrom(content, found.next, next)
  {
  }

  /** On the encoding of any list of items the walk visits those items, in order, and nothing else. */
  lemma {:induction false} ScanMeetsEncoding(items: seq<Item>)
    requires AreItems(items)
    ensures ScanFrom(ListOctets(items), 0, Empty()) == Fold(items, Empty())
  {
    var content := ListOctets(items);
    assert content[0..] == content + [];
    ScanReads(content, 0, items, [], Empty());
  }

  // ---- a list that is cut off

  lemma {:induction false} ScanThenTail(items: seq<Item>, tail: Bytes)
    requires AreItems(items)
    ensures ScanFrom(ListOctets(items) + tail, 0, Empty()) ==
      match Fold(items, Empty())
      case Err(e) => Err(e)
      case Ok(r) => ScanFrom(ListOctets(items) + tail, |ListOctets(items)|, r)
  {
    var content := ListOctets(items) + tail;
    assert content[0..] == content;
    ScanReads(content, 0, items, tail, Empty());
  }

  /** An item whose body is cut off counts with the octets that are there. */
  lemma {:induction false} CutBodyCounts(items: seq<Item>, last: Item, kept: nat)
    requires AreItems(items) && IsItem(last) && kept <= |last.body|
    ensures ScanFrom(ListOctets(items) + (TagOctets(last) + (LengthOctets(|last.body|, last.form) + last.body[..kept])), 0, Empty()) ==
      match Fold(items, Empty())
      case Err(e) => Err(e)
      case Ok(r) => Apply(r, Number(last.tag), last.body[..kept])
  {
    var tail := TagOctets(last) + (LengthOctets(|last.body|, last.form) + last.body[..kept]);
    var content, offset := ListOctets(items) + tail, |ListOctets(items)|;
    assert content[offset..] == tail;
    CutBodyRead(content, offset, last, kept);
    LastIsApplied(items, tail, Found(Number(last.tag), last.body[..kept], offset + |ItemOctets(last)|));
  }

  /** The last thing that stands in a list, if it reaches to the end or past it. */
  lemma {:induction false} LastIsApplied(items: seq<Item>, tail: Bytes, found: Found)
    requires AreItems(items) && tail != []
    requires ItemAt(ListOctets(items) + tail, |ListOctets(items)|) == Some(found) && found.next >= |ListOctets(items) + tail|
    ensures ScanFrom(ListOctets(items) + tail, 0, Empty()) ==
      match Fold(items, Empty())
      case Err(e) => Err(e)
      case Ok(r) => Apply(r, found.number, found.body)
  {
    ScanThenTail(items, tail);
    hide *;
    var content, r := ListOctets(items) + tail, Fold(items, Empty());
    if r.Ok? {
      ScanOne(content, |ListOctets(items)|, found, r.value);
      var applied := Apply(r.value, found.number, found.body);
      if applied.Ok? {
        ScanPastEnd(content, found.next, applied.value);
      }
    }
  }

  lemma {:induction false} ScanPastEnd(content: Bytes, offset: nat, report: Report)
    requires offset >= |content|
    ensures ScanFrom(content, offset, report) == Ok(report)
  {
  }

  lemma {:induction false} CutBodyRead(content: Bytes, offset: nat, last: Item, kept: nat)
    requires IsItem(last) && kept <= |last.body|
    requires offset <= |content|
    requires content[offset..] == TagOctets(last) + (LengthOctets(|last.body|, last.form) + last.body[..kept])
    ensures offset < |content| <= offset + |ItemOctets(last)|
    ensures ItemAt(content, offset) == Some(Found(Number(last.tag), last.body[..kept], offset + |ItemOctets(last)|))
  {
    hide *;
    ItemLength(last);
    var length := LengthOctets(|last.body|, last.form);
    var cursor := offset + |TagOctets(last)|;
    TagRead(content, offset, last, length + last.body[..kept]);
    LengthRead(content, cursor, |last.body|, last.form, last.body[..kept]);
    CutBodyAt(content, offset, Number(last.tag), cursor, cursor + |length|, |last.body|, last.body[..kept]);
  }

  lemma {:induction false} CutBodyAt(content: Bytes, offset: nat, number: nat, cursor: nat, start: nat, n: nat, rest: Bytes)
    requires offset < |content| && TagAt(content, offset) == (number, cursor)
    requires cursor < |content| && LengthAt(content, cursor) == (n, start)
    requires start <= |content| && content[start..] == rest && |rest| <= n
    ensures ItemAt(content, offset) == Some(Found(number, rest, start + n))
  {
    hide TagAt, LengthAt;
    assert Clip(content, start, start + n) == content[start..];
  }

  /** The length octet 128, which X.690 keeps for the indefinite form (section 8.1.3.6), is taken for an empty body. */
  lemma {:induction false} IndefiniteIsEmpty(content: Bytes, offset: nat, item: Item, rest: Bytes)
    requires IsItem(item) && offset <= |content| && content[offset..] == TagOctets(item) + ([128] + rest)
    ensures offset < |content|
    ensures ItemAt(content, offset) == Some(Found(Number(item.tag), [], offset + |TagOctets(item)| + 1))
  {
    TagRead(content, offset, item, [128] + rest);
    var cursor := offset + |TagOctets(item)|;
    assert content[cursor] == content[cursor..][0] == 128;
    hide TagAt, TagOctets, Number, IsItem;
  }

  /** A list that ends after the tag of an item, before its length, ends before that item. */
  lemma {:induction false} CutTagIsIgnored(items: seq<Item>, last: Item)
    requires AreItems(items) && IsItem(last)
    ensures ScanFrom(ListOctets(items) + TagOctets(last), 0, Empty()) == Fold(items, Empty())
  {
    var content, offset := ListOctets(items) + TagOctets(last), |ListOctets(items)|;
    ScanThenTail(items, TagOctets(last));
    assert content[offset..] == TagOctets(last) + [];
    TagRead(content, offset, last, []);
    hide TagAt, TagOctets, ListOctets;
    assert ItemAt(content, offset) == None;
  }

  // ---- what a body says, in the values that it encodes

  /** The octets begin with an encoding of `v`; anything may follow. */
  ghost predicate Encodes(body: Bytes, v: DerValue) {
    exists form :: Readable(v, form) && TlvOctets(v, form) <= body
  }

  /** The octets begin with an encoding of a sequence of these values. */
  ghost predicate EncodesFields(body: Bytes, fields: seq<DerValue>) {
    exists v :: Encodes(body, v) && IsContent(v.content, fields)
  }

  ghost predicate IsContent(content: Bytes, fields: seq<DerValue>) {
    exists forms :: AllReadable(fields, forms) && content == SequenceOctets(fields, forms)
  }

  lemma {:induction false} EncodesMeans(body: Bytes, v: DerValue)
    ensures Encodes(body, v) <==> ReadTlv(body, 0).Ok? && ReadTlv(body, 0).value.0 == v
  {
    if Encodes(body, v) {
      var form :| Readable(v, form) && TlvOctets(v, form) <= body;
      assert body[0..0 + |TlvOctets(v, form)|] == TlvOctets(v, form);
      ReadsEncoding(body, 0, v, form);
    }
    if ReadTlv(body, 0).Ok? && ReadTlv(body, 0).value.0 == v {
      var next := ReadTlv(body, 0).value.1;
      ReadIsEncoding(body, 0, v, next);
      assert body[0..next] == body[..next];
    }
  }

  lemma {:induction false} FieldsMean(body: Bytes, fields: seq<DerValue>)
    ensures EncodesFields(body, fields)
      <==> ReadTlv(body, 0).Ok? && ValuesFrom(ReadTlv(body, 0).value.0.content, 0) == Ok(fields)
  {
    hide ReadTlv, ValuesFrom, Encodes, AllReadable, SequenceOctets;
    if ReadTlv(body, 0).Ok? {
      var v := ReadTlv(body, 0).value.0;
      EncodesMeans(body, v);
      SequenceIsInverse(v.content, fields);
    }
    forall v | Encodes(body, v) ensures ReadTlv(body, 0).Ok? && ReadTlv(body, 0).value.0 == v {
      EncodesMeans(body, v);
    }
  }

  /** What a root of trust with these fields says: the second is its lock, the third its boot state. */
  predicate Shows(fields: seq<DerValue>, root: RootOfTrust)
    requires |fields| >= 3
  {
    var state := BigEndian(fields[2].content);
    && (root.deviceLocked <==> fields[1].content == [255])
    && (root.bootState == Verified <==> state == 0)
    && (root.bootState == SelfSigned <==> state == 1)
    && (root.bootState == Unverified <==> state == 2)
    && (root.bootState == Failed <==> state == 3)
    && (root.bootState == Unknown <==> state > 3)
  }

  /** The body of a root of trust can be read exactly when it encodes fields; it names a root exactly when they are three or more. */
  lemma {:induction false} RootInFields(body: Bytes)
    ensures RootIn(body).Ok? <==> exists fields :: EncodesFields(body, fields)
    ensures forall fields | EncodesFields(body, fields) ::
      && (RootIn(body).value.Some? <==> |fields| >= 3)
      && (|fields| >= 3 ==> Shows(fields, RootIn(body).value.value))
  {
    forall fields ensures EncodesFields(body, fields)
      <==> ReadTlv(body, 0).Ok? && ValuesFrom(ReadTlv(body, 0).value.0.content, 0) == Ok(fields)
    {
      FieldsMean(body, fields);
    }
    hide EncodesFields, ReadTlv, ValuesFrom, BigEndian;
    if RootIn(body).Ok? {
      assert EncodesFields(body, ValuesFrom(ReadTlv(body, 0).value.0.content, 0).value);
    }
  }

  lemma {:induction false} AuthTypeInValue(body: Bytes)
    ensures AuthTypeIn(body).Ok? <==> exists v :: Encodes(body, v)
    ensures forall v | Encodes(body, v) :: AuthTypeIn(body).value == BigEndian(v.content)
  {
    forall v ensures Encodes(body, v) <==> ReadTlv(body, 0).Ok? && ReadTlv(body, 0).value.0 == v {
      EncodesMeans(body, v);
    }
    hide Encodes, ReadTlv, BigEndian;
    if ReadTlv(body, 0).Ok? {
      assert Encodes(body, ReadTlv(body, 0).value.0);
    }
  }

  // ---- what the report means

  /** The body of a root-of-trust or auth-type item encodes what it should. */
  ghost predicate WellFormed(item: Item) {
    && (Number(item.tag) == 704 ==> exists fields :: EncodesFields(item.body, fields))
    && (Number(item.tag) == 504 ==> exists v :: Encodes(item.body, v))
  }

  lemma {:induction false} WellFormedMeans(item: Item)
    ensures WellFormed(item) <==>
      && (Number(item.tag) == TAG_ROOT_OF_TRUST ==> RootIn(item.body).Ok?)
      && (Number(item.tag) == TAG_USER_AUTH_TYPE ==> AuthTypeIn(item.body).Ok?)
  {
    RootInFields(item.body);
    AuthTypeInValue(item.body);
    hide EncodesFields, Encodes, RootIn, AuthTypeIn;
  }

  /** The item is a root of trust with these fields, three or more. */
  ghost predicate IsRoot(item: Item, fields: seq<DerValue>) {
    Number(item.tag) == 704 && |fields| >= 3 && EncodesFields(item.body, fields)
  }

  /** The root of trust that an item names. */
  function RootOf(item: Item): Option<RootOfTrust> {
    if Number(item.tag) == TAG_ROOT_OF_TRUST && RootIn(item.body).Ok? then RootIn(item.body).value else None
  }

  /** An item names a root exactly when it has three fields, and the root is what they show. */
  lemma {:induction false} RootOfMeans(item: Item)
    ensures RootOf(item).Some? <==> exists fields :: IsRoot(item, fields)
    ensures forall fields | IsRoot(item, fields) :: Shows(fields, RootOf(item).value)
  {
    RootInFields(item.body);
    hide EncodesFields, RootIn, Shows;
    if RootOf(item).Some? {
      var fields :| EncodesFields(item.body, fields);
      assert IsRoot(item, fields);
    }
  }

  function AuthTypeOf(item: Item): Option<nat> {
    if Number(item.tag) == TAG_USER_AUTH_TYPE && AuthTypeIn(item.body).Ok? then Some(AuthTypeIn(item.body).value) else None
  }

  /** An item gives an auth type exactly when it encodes one value, whose content is the number. */
  lemma {:induction false} AuthTypeOfMeans(item: Item, n: nat)
    ensures AuthTypeOf(item) == Some(n) <==>
      Number(item.tag) == 504 && exists v :: Encodes(item.body, v) && BigEndian(v.content) == n
  {
    AuthTypeInValue(item.body);
    hide Encodes, AuthTypeIn, BigEndian;
  }

  /** `found` is what the last item with something to say says, or `otherwise`. */
  ghost predicate IsLast<T(!new)>(items: seq<Item>, says: Item -> Option<T>, otherwise: Option<T>, found: Option<T>) {
    || (found == otherwise && forall i | 0 <= i < |items| :: says(items[i]).None?)
    || (exists i | 0 <= i < |items| :: found == says(items[i]) && found.Some?
          && forall j | i < j < |items| :: says(items[j]).None?)
  }

  lemma {:induction false} LastGrows<T(!new)>(items: seq<Item>, says: Item -> Option<T>, otherwise: Option<T>, found: Option<T>)
    requires items != []
    requires IsLast(items[1..], says, if says(items[0]).Some? then says(items[0]) else otherwise, found)
    ensures IsLast(items, says, otherwise, found)
  {
  }

  /** Some item forbids relying on authentication. */
  predicate SaysNoAuth(items: seq<Item>) {
    exists i | 0 <= i < |items| :: Number(items[i].tag) == 503
  }

  lemma {:induction false} FoldMeans(items: seq<Item>, report: Report)
    ensures Fold(items, report).Ok? <==> forall i | 0 <= i < |items| :: WellFormed(items[i])
    ensures Fold(items, report).Ok? ==>
      var r := Fold(items, report).value;
      && IsLast(items, RootOf, report.root, r.root)
      && IsLast(items, AuthTypeOf, report.userAuthType, r.userAuthType)
      && (r.noAuthRequired <==> report.noAuthRequired || SaysNoAuth(items))
    decreases |items|
  {
    if items != [] {
      var rest := items[1..];
      var applied := Apply(report, Number(items[0].tag), items[0].body);
      WellFormedMeans(items[0]);
      hide WellFormed;
      assert applied.Ok? <==> WellFormed(items[0]);
      if applied.Ok? {
        FoldMeans(rest, applied.value);
        assert forall i | 0 <= i < |rest| :: items[i + 1] == rest[i];
        assert (forall i | 0 <= i < |items| :: WellFormed(items[i])) <==> (forall i | 0 <= i < |rest| :: WellFormed(rest[i])) by {
          forall i | 0 < i < |items| ensures items[i] == rest[i - 1] {}
        }
        NoAuthGrows(items);
        if Fold(items, report).Ok? {
          var r := Fold(items, report).value;
          LastGrows(items, RootOf, report.root, r.root);
          LastGrows(items, AuthTypeOf, report.userAuthType, r.userAuthType);
        }
      }
    }
  }

  lemma {:induction false} NoAuthGrows(items: seq<Item>)
    requires items != []
    ensures SaysNoAuth(items) <==> Number(items[0].tag) == TAG_NO_AUTH_REQUIRED || SaysNoAuth(items[1..])
  {
  }

  /**
   The scanner on every encoding of a list of items: it fails exactly when the
   body of some root-of-trust or auth-type item cannot be read, and otherwise
   reports the last root of trust with three fields, the last auth type, and
   whether any item waives authentication.
   */
  lemma {:induction false} ReportsLast(items: seq<Item>)
    requires AreItems(items)
    ensures
      var r := ScanFrom(ListOctets(items), 0, Empty());
      && (r.Ok? <==> forall i | 0 <= i < |items| :: WellFormed(items[i]))
      && (r.Ok? ==> IsLast(items, RootOf, None, r.value.root) && IsLast(items, AuthTypeOf, None, r.value.userAuthType))
      && (r.Ok? ==> (r.value.noAuthRequired <==> SaysNoAuth(items)))
  {
    ScanMeetsEncoding(items);
    FoldMeans(items, Empty());
  }
}
