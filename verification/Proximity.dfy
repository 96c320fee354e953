/**
 The rotating beacon identifier: `Beacon` on the controller, `verify_proximity`
 on the server, and the window of slots between them.

 Time on the server is a real number; HMAC-SHA256 with the base64 after it is an
 unknown function `id` from key and message to identifier.
 */
module Proximity {
  import opened Text
  import opened Der
  import MachineInts

  type Identify = (Bytes, Bytes) -> string

  // ---- slots

  /** `floor(now / rotation)` */
  function SlotFor(now: real, rotation: nat): int
    requires rotation > 0
  {
    (now / rotation as real).Floor
  }

  /** Python's `-(-a // b)` */
  function Ceiling(a: int, b: nat): int
    requires b > 0
  {
    -((-a) / b)
  }

  function Span(rotation: nat, maxAge: int): (span: nat)
    requires rotation > 0
  {
    var c := Ceiling(maxAge, rotation);
    if c > 1 then c else 1
  }

  function AcceptableSlots(now: real, rotation: nat, maxAge: int): (slots: seq<int>)
    requires rotation > 0
    ensures |slots| == Span(rotation, maxAge) + 1
  {
    seq(Span(rotation, maxAge) + 1, offset => SlotFor(now, rotation) - offset)
  }

  /**
   The slot `k` rotations back may still be presented: the current and the previous
   one always, an older one if it ended within the maximum age of this slot's beginning.
   */
  predicate InWindow(k: int, rotation: nat, maxAge: int) {
    k >= 0 && (k <= 1 || (k - 1) * rotation < maxAge)
  }

  lemma {:induction false} SpanIsWindow(rotation: nat, maxAge: int, k: int)
    requires rotation > 0
    ensures 0 <= k <= Span(rotation, maxAge) <==> InWindow(k, rotation, maxAge)
  {
    var c := Ceiling(maxAge, rotation);
    CeilingCovers(maxAge, rotation);
    if k <= c {
      Scale(k - 1, c - 1, rotation);
    } else {
      Scale(c, k - 1, rotation);
    }
  }

  lemma {:induction false} SlotBounds(t: real, rotation: nat)
    requires rotation > 0
    ensures SlotFor(t, rotation) as real * rotation as real <= t < (SlotFor(t, rotation) + 1) as real * rotation as real
  {
    var q := t / rotation as real;
    var n := SlotFor(t, rotation);
    assert n as real <= q < (n + 1) as real;
    Bounds(n as real, (n + 1) as real, q, rotation as real, t);
  }

  lemma {:induction false} Bounds(low: real, high: real, q: real, d: real, t: real)
    requires low <= q < high && d > 0.0 && q == t / d
    ensures low * d <= t < high * d
  {
  }

  lemma {:induction false} ScaleReal(a: real, b: real, c: real)
    requires a <= b && c > 0.0
    ensures a * c <= b * c
  {
  }

  lemma {:induction false} Ordered(a: int, b: int, t: real, d: real)
    requires d > 0.0 && a as real * d <= t < (b + 1) as real * d
    ensures a <= b
  {
    if b < a { ScaleReal((b + 1) as real, a as real, d); }
  }

  lemma {:induction false} SlotUnique(t: real, rotation: nat, s: int)
    requires rotation > 0 && s as real * rotation as real <= t < (s + 1) as real * rotation as real
    ensures SlotFor(t, rotation) == s
  {
    SlotBounds(t, rotation);
    Ordered(s, SlotFor(t, rotation), t, rotation as real);
    Ordered(SlotFor(t, rotation), s, t, rotation as real);
  }

  // ---- the message of a slot

  /** The bytes of "acs-beacon:v1". */
  const DOMAIN: Bytes := [97, 99, 115, 45, 98, 101, 97, 99, 111, 110, 58, 118, 49]

  const SLOT_LIMIT := 0x1_0000_0000_0000_0000

  lemma {:induction false} SlotLimit()
    ensures Pow256(8) == SLOT_LIMIT
  {
  }

  predicate InRange(slot: int) { 0 <= slot < SLOT_LIMIT }

  function Message(slot: int): Bytes
    requires InRange(slot)
  {
    SlotLimit();
    DOMAIN + ToBigEndian(slot, 8)
  }

  lemma {:induction false} MessageInjective(a: int, b: int)
    requires InRange(a) && InRange(b) && Message(a) == Message(b)
    ensures a == b
  {
    SlotLimit();
    assert Message(a)[|DOMAIN|..] == ToBigEndian(a, 8) && Message(b)[|DOMAIN|..] == ToBigEndian(b, 8);
    BigEndianInverse(a, 8);
    BigEndianInverse(b, 8);
  }

  // ---- the server

  datatype Failure = KeyLength | SlotRange | NotAscii

  datatype Derived = Id(text: string) | Bad(failure: Failure)

  /** The identifier of a slot that 64 bits can hold. */
  function IdOf(id: Identify, key: Bytes, slot: int): string {
    if InRange(slot) then id(key, Message(slot)) else ""
  }

  /** The age is present exactly when the identifier is accepted. */
  datatype Verdict = Answer(age: Option<int>) | Raised(failure: Failure)

  /** `derive_beacon_id`: `to_bytes(8, "big")` refuses what does not fit. */
  function DeriveId(id: Identify, key: Bytes, slot: int): Derived {
    if |key| != 32 then Bad(KeyLength)
    else if !InRange(slot) then Bad(SlotRange)
    else Id(IdOf(id, key, slot))
  }

  predicate IsSpace(c: char) { c == ' ' || '\t' <= c <= '\r' || 28 as char <= c <= 31 as char }

  function StripLeft(s: string): string {
    if s != "" && IsSpace(s[0]) then StripLeft(s[1..]) else s
  }

  function StripRight(s: string): string {
    if s != "" && IsSpace(s[|s| - 1]) then StripRight(s[..|s| - 1]) else s
  }

  function StripEquals(s: string): string {
    if s != "" && s[|s| - 1] == '=' then StripEquals(s[..|s| - 1]) else s
  }

  /** `.strip().rstrip("=")` */
  function Cleaned(s: string): string { StripEquals(StripRight(StripLeft(s))) }

  predicate AllSpace(s: string) { forall c | c in s :: IsSpace(c) }

  predicate AllPadding(s: string) { forall c | c in s :: c == '=' }

  /** Cleaning takes white space off both ends, and then `=` off the right, and nothing else. */
  lemma {:induction false} CleanedIsCore(s: string) returns (left: string, padding: string, right: string)
    ensures s == left + Cleaned(s) + padding + right
    ensures AllSpace(left) && AllSpace(right) && AllPadding(padding)
    ensures var core := Cleaned(s) + padding; core == "" || !(IsSpace(core[0]) || IsSpace(core[|core| - 1]))
    ensures var core := Cleaned(s); core == "" || core[|core| - 1] != '='
  {
    hide StripLeft, StripRight, StripEquals, IsSpace, AllSpace, AllPadding;
    var x := StripLeft(s);
    left := LeftStripped(s);
    var y := StripRight(x);
    right := RightStripped(x);
    padding := PaddingStripped(y);
    assert Cleaned(s) + padding == y;
    assert y != "" ==> y[0] == x[0];
  }

  lemma {:induction false} LeftStripped(s: string) returns (left: string)
    ensures s == left + StripLeft(s) && AllSpace(left)
    ensures var r := StripLeft(s); r == "" || !IsSpace(r[0])
  {
    if s != "" && IsSpace(s[0]) {
      var more := LeftStripped(s[1..]);
      left := [s[0]] + more;
    } else {
      left := "";
    }
  }

  lemma {:induction false} RightStripped(s: string) returns (right: string)
    ensures s == StripRight(s) + right && AllSpace(right)
    ensures var r := StripRight(s); r == "" || !IsSpace(r[|r| - 1])
  {
    if s != "" && IsSpace(s[|s| - 1]) {
      var more := RightStripped(s[..|s| - 1]);
      right := more + [s[|s| - 1]];
    } else {
      right := "";
    }
  }

  lemma {:induction false} PaddingStripped(s: string) returns (padding: string)
    ensures s == StripEquals(s) + padding && AllPadding(padding)
    ensures var r := StripEquals(s); r == "" || r[|r| - 1] != '='
  {
    if s != "" && s[|s| - 1] == '=' {
      var more := PaddingStripped(s[..|s| - 1]);
      padding := more + [s[|s| - 1]];
    } else {
      padding := "";
    }
  }

  predicate IsAscii(s: string) { forall c | c in s :: c < 128 as char }

  /** The latest slot from `first` back to `last` that has the presented identifier. */
  function LatestMatch(id: Identify, key: Bytes, presented: string, first: int, last: int): (r: Option<int>)
    ensures r.Some? ==> last <= r.value <= first && IdOf(id, key, r.value) == presented
    ensures forall s: int | last <= s <= first && (r.Some? ==> s > r.value) :: IdOf(id, key, s) != presented
    decreases first - last
  {
    if first < last then None
    else if IdOf(id, key, first) == presented then Some(first)
    else LatestMatch(id, key, presented, first - 1, last)
  }

  lemma {:induction false} OneSlotMore(id: Identify, key: Bytes, presented: string, first: int, last: int)
    requires last <= first
    ensures LatestMatch(id, key, presented, first, last) ==
      var before := LatestMatch(id, key, presented, first, last + 1);
      if before.None? && IdOf(id, key, last) == presented then Some(last) else before
  {
  }

  /** What `verify_proximity` answers. */
  function Verify(id: Identify, key: Bytes, raw: string, rotation: nat, maxAge: int, now: real): Verdict
    requires rotation > 0
  {
    var current, span := SlotFor(now, rotation), Span(rotation, maxAge);
    if raw == "" then Answer(None)
    else if |key| != 32 then Raised(KeyLength)
    else if !InRange(current) then Raised(SlotRange)
    else if !IsAscii(Cleaned(raw)) then Raised(NotAscii)
    else if current < span then Raised(SlotRange)
    else
      match LatestMatch(id, key, Cleaned(raw), current, current - span)
      case None => Answer(None)
      case Some(slot) => Answer(Some((current - slot) * rotation))
  }

  /** `verify_proximity`: no early exit, and the first match wins. */
  method VerifyProximity(id: Identify, key: Bytes, raw: string, rotation: nat, maxAge: int, now: real) returns (v: Verdict)
    requires rotation > 0
    ensures v == Verify(id, key, raw, rotation, maxAge, now)
  {
    if raw == "" { return Answer(None); }
    var presented := Cleaned(raw);
    var current := SlotFor(now, rotation);
    var slots := AcceptableSlots(now, rotation, maxAge);
    var matched: Option<int> := None;
    for i := 0 to |slots|
      invariant i > 0 ==> |key| == 32 && InRange(current) && IsAscii(presented) && i - 1 <= current
      invariant matched == LatestMatch(id, key, presented, current, current - i + 1)
    {
      var candidate := DeriveId(id, key, slots[i]);
      if candidate.Bad? { return Raised(candidate.failure); }
      if !IsAscii(presented) { return Raised(NotAscii); }
      OneSlotMore(id, key, presented, current, slots[i]);
      if candidate.text == presented && matched.None? {
        matched := Some(slots[i]);
      }
    }
    if matched.None? { return Answer(None); }
    return Answer(Some((current - matched.value) * rotation));
  }

  const FAILURES: seq<Failure> := [KeyLength, SlotRange, NotAscii, SlotRange]

  /** What makes the check raise, in that order; the last is a window that reaches before the epoch. */
  ghost function Faults(key: Bytes, raw: string, rotation: nat, maxAge: int, now: real): (faults: seq<bool>)
    requires rotation > 0
    ensures |faults| == |FAILURES|
  {
    [ |key| != 32,
      !(0 <= SlotFor(now, rotation) < SLOT_LIMIT),
      exists c | c in Cleaned(raw) :: c >= 128 as char,
      exists k :: InWindow(k, rotation, maxAge) && k > SlotFor(now, rotation) ]
  }

  /**
   Nothing presented is not accepted. Otherwise the check raises for the first of its faults. Without one it accepts exactly when
   some slot of the window has the presented identifier, the white space and the
   padding aside, and reports the age of the latest such slot.
   */
  lemma {:induction false} VerifyMeans(id: Identify, key: Bytes, raw: string, rotation: nat, maxAge: int, now: real, age: int)
    requires rotation > 0
    ensures
      var v, k := Verify(id, key, raw, rotation, maxAge, now), FirstTrue(Faults(key, raw, rotation, maxAge, now));
      if raw == "" then v == Answer(None)
      else if k < |FAILURES| then v == Raised(FAILURES[k])
      else v.Answer? && (v == Answer(Some(age)) <==>
        exists slot :: IsLatestIn(id, key, Cleaned(raw), rotation, maxAge, SlotFor(now, rotation), slot)
                       && age == (SlotFor(now, rotation) - slot) * rotation)
  {
    var current, span := SlotFor(now, rotation), Span(rotation, maxAge);
    forall k ensures 0 <= k <= span <==> InWindow(k, rotation, maxAge) {
      SpanIsWindow(rotation, maxAge, k);
    }
    assert current < span <==> exists k :: InWindow(k, rotation, maxAge) && k > current by {
      assert InWindow(span, rotation, maxAge);
    }
    var faults := Faults(key, raw, rotation, maxAge, now);
    FirstOfFour(faults);
    hide FirstTrue, Span, InWindow, Cleaned;
    var found := LatestMatch(id, key, Cleaned(raw), current, current - span);
    if FirstTrue(faults) == 4 {
      forall slot ensures IsLatestIn(id, key, Cleaned(raw), rotation, maxAge, current, slot) <==> found == Some(slot) {
        LatestIsFound(id, key, Cleaned(raw), rotation, maxAge, current, slot);
      }
    }
  }

  /** The slot is in the window and has the identifier, and no later one has. */
  ghost predicate IsLatestIn(id: Identify, key: Bytes, presented: string, rotation: nat, maxAge: int, current: int, slot: int) {
    && InWindow(current - slot, rotation, maxAge) && IdOf(id, key, slot) == presented
    && forall later | slot < later <= current :: IdOf(id, key, later) != presented
  }

  lemma {:induction false} LatestIsFound(id: Identify, key: Bytes, presented: string, rotation: nat, maxAge: int, current: int, slot: int)
    requires rotation > 0
    ensures IsLatestIn(id, key, presented, rotation, maxAge, current, slot)
      <==> LatestMatch(id, key, presented, current, current - Span(rotation, maxAge)) == Some(slot)
  {
    SpanIsWindow(rotation, maxAge, current - slot);
  }

  // ---- the window

  /** What a base64url identifier is made of survives cleaning. */
  predicate IsPlain(s: string) {
    s != "" && forall c | c in s :: c < 128 as char && !IsSpace(c) && c != '='
  }

  lemma {:induction false} PlainIsClean(s: string)
    requires IsPlain(s)
    ensures Cleaned(s) == s && IsAscii(s)
  {
  }

  /** All identifiers are plain, and the window does not reach before the epoch nor past 64 bits. */
  ghost predicate Normal(id: Identify, key: Bytes, rotation: nat, maxAge: int, now: real)
    requires rotation > 0
  {
    && |key| == 32 && InRange(SlotFor(now, rotation))
    && (forall k | InWindow(k, rotation, maxAge) :: k <= SlotFor(now, rotation))
    && forall message :: IsPlain(id(key, message))
  }

  /** Two messages of the beacon have the same identifier. */
  ghost predicate IdCollision(id: Identify, key: Bytes, a: int, b: int) {
    InRange(a) && InRange(b) && Message(a) != Message(b) && id(key, Message(a)) == id(key, Message(b))
  }

  /** How far a slot lies back is bounded by the age, rounded up to whole rotations. */
  lemma {:induction false} AgeInSlots(heard: real, now: real, rotation: nat, maxAge: int)
    requires rotation > 0 && heard <= now <= heard + maxAge as real
    ensures 0 <= SlotFor(now, rotation) - SlotFor(heard, rotation) <= Span(rotation, maxAge)
  {
    var d := rotation as real;
    var n, h, c := SlotFor(now, rotation), SlotFor(heard, rotation), Ceiling(maxAge, rotation);
    SlotBounds(now, rotation);
    SlotBounds(heard, rotation);
    CeilingCovers(maxAge, rotation);
    Spread(h + 1, c, d);
    RealProduct(c, rotation);
    Ordered(h, n, if heard < (n + 1) as real * d then heard else now, d);
    assert (h + 1) + c == (h + c) + 1;
    Ordered(n, h + c, now, d);
  }

  lemma {:induction false} Spread(a: int, b: int, d: real)
    ensures (a + b) as real * d == a as real * d + b as real * d
  {
  }

  lemma {:induction false} CeilingCovers(a: int, b: nat)
    requires b > 0
    ensures a <= Ceiling(a, b) * b < a + b
  {
  }

  /** Completeness: whoever heard the beacon at most `maxAge` seconds ago is accepted. */
  lemma {:induction false} RecentlyHeardIsAccepted(id: Identify, key: Bytes, rotation: nat, maxAge: int, heard: real, now: real)
    requires rotation > 0 && Normal(id, key, rotation, maxAge, now)
    requires heard <= now <= heard + maxAge as real
    ensures InRange(SlotFor(heard, rotation))
    ensures
      var v := Verify(id, key, id(key, Message(SlotFor(heard, rotation))), rotation, maxAge, now);
      v.Answer? && v.age.Some?
  {
    var slot := SlotFor(heard, rotation);
    AgeInSlots(heard, now, rotation, maxAge);
    SpanIsWindow(rotation, maxAge, SlotFor(now, rotation) - slot);
    WindowAccepts(id, key, rotation, maxAge, slot, now);
  }

  lemma {:induction false} NormalSpan(id: Identify, key: Bytes, rotation: nat, maxAge: int, now: real)
    requires rotation > 0 && Normal(id, key, rotation, maxAge, now)
    ensures Span(rotation, maxAge) <= SlotFor(now, rotation)
  {
    SpanIsWindow(rotation, maxAge, Span(rotation, maxAge));
  }

  lemma {:induction false} WindowAccepts(id: Identify, key: Bytes, rotation: nat, maxAge: int, slot: int, now: real)
    requires rotation > 0 && Normal(id, key, rotation, maxAge, now)
    requires InWindow(SlotFor(now, rotation) - slot, rotation, maxAge)
    ensures InRange(slot)
    ensures var v := Verify(id, key, id(key, Message(slot)), rotation, maxAge, now); v.Answer? && v.age.Some?
  {
    NormalSpan(id, key, rotation, maxAge, now);
    SpanIsWindow(rotation, maxAge, SlotFor(now, rotation) - slot);
    PlainIsClean(IdOf(id, key, slot));
  }

  /**
   The identifier of a slot is accepted exactly when the slot is in the window, two
   slots that share an identifier aside.
   */
  lemma {:induction false} AcceptedExactlyWhen(id: Identify, key: Bytes, rotation: nat, maxAge: int, slot: nat, now: real)
    returns (other: int)
    requires rotation > 0 && Normal(id, key, rotation, maxAge, now) && InRange(slot)
    ensures
      var v := Verify(id, key, id(key, Message(slot)), rotation, maxAge, now);
      || IdCollision(id, key, slot, other)
      || (v.Answer? && (v.age.Some? <==> InWindow(SlotFor(now, rotation) - slot, rotation, maxAge)))
  {
    var current, span := SlotFor(now, rotation), Span(rotation, maxAge);
    var presented := IdOf(id, key, slot);
    PlainIsClean(presented);
    NormalSpan(id, key, rotation, maxAge, now);
    var found := LatestMatch(id, key, presented, current, current - span);
    other := found.GetOr(slot);
    if InWindow(current - slot, rotation, maxAge) {
      WindowAccepts(id, key, rotation, maxAge, slot, now);
    } else if found.Some? {
      SpanIsWindow(rotation, maxAge, current - other);
      if Message(other) == Message(slot) {
        MessageInjective(other, slot);
      }
    }
  }

  /**
   Soundness: an accepted identifier of slot `slot` is of a slot that has begun, less
   than the maximum age and two rotations ago, or two slots share an identifier; and
   then the reported age is within one rotation of how long ago it was heard.
   */
  lemma {:induction false} AcceptedIsRecent(id: Identify, key: Bytes, rotation: nat, maxAge: int, slot: nat, now: real)
    returns (other: int)
    requires rotation > 0 && Normal(id, key, rotation, maxAge, now) && InRange(slot)
    requires var v := Verify(id, key, id(key, Message(slot)), rotation, maxAge, now); v.Answer? && v.age.Some?
    ensures IdCollision(id, key, slot, other) || (
      var age := Verify(id, key, id(key, Message(slot)), rotation, maxAge, now).age.value;
      BeganRecently(slot, rotation, maxAge, now) && AgeIsTrue(slot, rotation, now, age))
  {
    var current, span := SlotFor(now, rotation), Span(rotation, maxAge);
    var presented := IdOf(id, key, slot);
    PlainIsClean(presented);
    other := LatestMatch(id, key, presented, current, current - span).value;
    if other == slot {
      SpanIsWindow(rotation, maxAge, current - slot);
      SlotIsRecent(slot, rotation, maxAge, now);
      AgeOfSlot(slot, rotation, now);
    } else if Message(other) == Message(slot) {
      MessageInjective(other, slot);
    }
  }

  /** The slot has begun, less than the maximum age and two rotations ago. */
  predicate BeganRecently(slot: int, rotation: nat, maxAge: int, now: real) {
    slot as real * rotation as real <= now < slot as real * rotation as real + (NotNegative(maxAge) + 2 * rotation) as real
  }

  function NotNegative(n: int): nat { if n < 0 then 0 else n }

  /** The age is within one rotation of the time since any moment of the slot. */
  ghost predicate AgeIsTrue(slot: int, rotation: nat, now: real, age: int)
    requires rotation > 0
  {
    forall heard: real | SlotFor(heard, rotation) == slot ::
      now - heard - rotation as real < age as real < now - heard + rotation as real
  }

  lemma {:induction false} AgeOfSlot(slot: int, rotation: nat, now: real)
    requires rotation > 0
    ensures AgeIsTrue(slot, rotation, now, (SlotFor(now, rotation) - slot) * rotation)
  {
    var current := SlotFor(now, rotation);
    forall heard: real | SlotFor(heard, rotation) == slot
      ensures now - heard - rotation as real < ((current - slot) * rotation) as real < now - heard + rotation as real
    {
      SlotBounds(heard, rotation);
      SlotBounds(now, rotation);
      AgeWithinRotation(current, slot, current - slot, rotation, heard, now);
    }
  }

  lemma {:induction false} SlotIsRecent(slot: int, rotation: nat, maxAge: int, now: real)
    requires rotation > 0 && InWindow(SlotFor(now, rotation) - slot, rotation, maxAge)
    ensures BeganRecently(slot, rotation, maxAge, now)
  {
    var current := SlotFor(now, rotation);
    var k := current - slot;
    SlotBounds(now, rotation);
    WithinSlots(slot as real, current as real, (current + 1) as real, (current + 1) as real, rotation as real, now);
    assert (current + 1) * rotation == slot * rotation + (k + 1) * rotation;
    RealProduct(current + 1, rotation);
    RealProduct(slot, rotation);
    WindowLength(k, rotation, maxAge);
  }

  lemma {:induction false} WindowLength(k: int, rotation: nat, maxAge: int)
    requires InWindow(k, rotation, maxAge)
    ensures (k + 1) * rotation <= NotNegative(maxAge) + 2 * rotation
  {
    if k <= 1 {
      Scale(k + 1, 2, rotation);
    } else {
      assert (k + 1) * rotation == (k - 1) * rotation + 2 * rotation;
    }
  }

  lemma {:induction false} WithinSlots(a: real, c: real, n: real, b: real, d: real, now: real)
    requires a <= c && n <= b && d > 0.0 && c * d <= now < n * d
    ensures a * d <= now < b * d
  {
    ScaleReal(a, c, d);
    ScaleReal(n, b, d);
  }

  lemma {:induction false} AgeWithinRotation(current: int, slot: int, k: int, rotation: nat, heard: real, now: real)
    requires current == slot + k
    requires slot as real * rotation as real <= heard < (slot + 1) as real * rotation as real
    requires current as real * rotation as real <= now < (current + 1) as real * rotation as real
    ensures now - heard - rotation as real < (k * rotation) as real < now - heard + rotation as real
  {
  }

  // ---- the controller

  class Beacon {
    const key: Bytes
    const rotation: nat
    var started: bool
    var advertising: bool
    var currentSlot: nat
    var currentId: string

    constructor (key: Bytes, rotation: nat)
      ensures this.key == key && this.rotation == rotation && !started && !advertising
    {
      this.key, this.rotation := key, rotation;
      started, advertising, currentSlot, currentId := false, false, 0, "";
    }

    /** What is advertised is the identifier of `currentSlot`. */
    ghost predicate Valid(id: Identify)
      reads this
    {
      rotation > 0 && (advertising ==> started && InRange(currentSlot) && currentId == IdOf(id, key, currentSlot))
    }

    method Begin(id: Identify)
      requires Valid(id)
      modifies this`started
      ensures Valid(id) && started
    {
      if started { return; }
      started := true;
    }

    /** Advertises the identifier of the slot of `now`, or nothing before the clock is set. */
    method Tick(id: Identify, now: int)
      requires Valid(id) && now < SLOT_LIMIT
      modifies this`advertising, this`currentSlot, this`currentId
      ensures Valid(id)
      ensures !started ==> advertising == old(advertising) && currentSlot == old(currentSlot) && currentId == old(currentId)
      ensures started ==> (advertising <==> now >= MachineInts.CLOCK_SANE)
      ensures now < MachineInts.CLOCK_SANE ==> currentSlot == old(currentSlot) && currentId == old(currentId)
      ensures started && advertising ==>
        currentSlot == SlotFor(now as real, rotation) && currentId == id(key, Message(currentSlot))
    {
      if !started { return; }
      if now < MachineInts.CLOCK_SANE {
        if advertising { advertising := false; }
        return;
      }
      var slot := now / rotation;
      WholeSecondSlot(now, rotation);
      if advertising && slot == currentSlot { return; }
      UpdateAdvertisement(id, slot);
    }

    method UpdateAdvertisement(id: Identify, slot: nat)
      requires started && rotation > 0 && slot < SLOT_LIMIT
      modifies this`advertising, this`currentSlot, this`currentId
      ensures Valid(id) && advertising && currentSlot == slot && currentId == id(key, Message(slot))
    {
      var message := BeaconMessage(slot);
      currentSlot := slot;
      currentId := id(key, message);
      advertising := true;
    }
  }

  lemma {:induction false} WholeSecondSlot(now: nat, rotation: nat)
    requires rotation > 0
    ensures SlotFor(now as real, rotation) == now / rotation <= now
  {
    var q := now / rotation;
    QuotientBounds(now, rotation);
    RealProduct(q, rotation);
    RealProduct(q + 1, rotation);
    SlotUnique(now as real, rotation, q);
    Scale(1, rotation, q);
  }

  lemma {:induction false} RealProduct(a: int, b: int)
    ensures (a * b) as real == a as real * b as real
  {
  }

  /** `kDomain` of the firmware. */
  const FIRMWARE_DOMAIN: string := "acs-beacon:v1"

  lemma {:induction false} SameDomain(i: nat)
    requires i < 13
    ensures FIRMWARE_DOMAIN[i] as int == DOMAIN[i]
  {
  }

  /** The message buffer: the domain, then the slot shifted out byte by byte. The server's message, exactly. */
  method BeaconMessage(slot: nat) returns (message: Bytes)
    requires slot < SLOT_LIMIT
    ensures message == Message(slot)
  {
    SlotLimit();
    var buffer := new Byte[21];
    for i := 0 to 13
      invariant forall j | 0 <= j < i :: buffer[j] == DOMAIN[j]
    {
      SameDomain(i);
      buffer[i] := FIRMWARE_DOMAIN[i] as int;
    }
    for i := 0 to 8
      invariant forall j | 0 <= j < 13 :: buffer[j] == DOMAIN[j]
      invariant forall j | 0 <= j < i :: buffer[13 + j] == ToBigEndian(slot, 8)[j]
    {
      ShiftedByte(slot, 8, i);
      buffer[13 + i] := slot / Pow256(7 - i) % 256;
    }
    message := buffer[..];
    assert forall j | 0 <= j < 21 :: message[j] == Message(slot)[j];
  }

  /** `(n >> 8 * (k - 1 - i)) & 0xFF` is digit `i` of `n` written in `k` bytes. */
  lemma {:induction false} ShiftedByte(n: nat, k: nat, i: nat)
    requires n < Pow256(k) && i < k
    ensures ToBigEndian(n, k)[i] == n / Pow256(k - 1 - i) % 256
    decreases k
  {
    if i < k - 1 {
      ShiftedByte(n / 256, k - 1, i);
      DivideTwice(n, 256, Pow256(k - 2 - i));
    }
  }

  lemma {:induction false} DivideTwice(n: nat, a: nat, b: nat)
    requires a > 0 && b > 0
    ensures a * b > 0 && n / a / b == n / (a * b)
  {
    var m := n / a;
    var q := m / b;
    QuotientBounds(m, b);
    QuotientBounds(n, a);
    Scale(q * b, m, a);
    Scale(m + 1, (q + 1) * b, a);
    Reassociate(q, b, a);
    Reassociate(q + 1, b, a);
    QuotientIs(n, a * b, q);
  }

  lemma {:induction false} QuotientBounds(n: nat, d: nat)
    requires d > 0
    ensures n / d * d <= n < (n / d + 1) * d
  {
  }

  lemma {:induction false} Scale(x: int, y: int, a: nat)
    requires x <= y
    ensures x * a <= y * a
  {
  }

  lemma {:induction false} Reassociate(q: int, b: int, a: int)
    ensures q * b * a == q * (a * b)
  {
  }

  lemma {:induction false} QuotientIs(n: nat, d: nat, q: nat)
    requires d > 0 && q * d <= n < (q + 1) * d
    ensures n / d == q
  {
    var p := n / d;
    QuotientBounds(n, d);
    if p < q { Scale(p + 1, q, d); }
    if q < p { Scale(q + 1, p, d); }
  }
}
