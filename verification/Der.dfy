/**
 The DER reader for key attestation, against the encodings of X.690: identifier
 octets with low and multi-byte tag numbers (section 8.1.2) and length octets in
 the short and the long form (section 8.1.3).
 */
module Der {
  type Byte = b: int | 0 <= b < 256
  type Bytes = seq<Byte>

  datatype DerValue = DerValue(tag: Byte, content: Bytes)

  datatype DerError = Truncated | HighTag | TruncatedLength | BadLength | BeyondBuffer | TooFewFields

  datatype Result<+T> = Ok(value: T) | Err(error: DerError)

  // ---- the reader

  /** `int.from_bytes(.., "big")` */
  function BigEndian(bs: Bytes): nat {
    if bs == [] then 0 else BigEndian(bs[..|bs| - 1]) * 256 + bs[|bs| - 1]
  }

  /** `_read_tlv`: one value and the offset after it. */
  function ReadTlv(data: Bytes, offset: nat): (r: Result<(DerValue, nat)>)
    ensures r.Ok? ==> offset + 2 <= r.value.1 <= |data|
  {
    if offset >= |data| then Err(Truncated)
    else if data[offset] % 32 == 31 then Err(HighTag)
    else if offset + 1 >= |data| then Err(TruncatedLength)
    else
      var first := data[offset + 1];
      if first < 128 then Body(data, data[offset], offset + 2, first)
      else
        var count := first % 128;
        if count == 0 || count > 4 || offset + 2 + count > |data| then Err(BadLength)
        else Body(data, data[offset], offset + 2 + count, BigEndian(data[offset + 2..offset + 2 + count]))
  }

  function Body(data: Bytes, tag: Byte, start: nat, length: nat): (r: Result<(DerValue, nat)>)
    requires start <= |data|
    ensures r.Ok? ==> start <= r.value.1 <= |data|
  {
    if start + length > |data| then Err(BeyondBuffer)
    else Ok((DerValue(tag, data[start..start + length]), start + length))
  }

  /** The values from `offset` to the end. */
  function ValuesFrom(content: Bytes, offset: nat): Result<seq<DerValue>>
    decreases |content| - offset
  {
    if offset >= |content| then Ok([])
    else
      match ReadTlv(content, offset)
      case Err(e) => Err(e)
      case Ok((v, next)) => Prepend([v], ValuesFrom(content, next))
  }

  function Prepend(vs: seq<DerValue>, r: Result<seq<DerValue>>): Result<seq<DerValue>> {
    match r
    case Err(e) => Err(e)
    case Ok(rest) => Ok(vs + rest)
  }

  lemma {:induction false} PrependNone(r: Result<seq<DerValue>>)
    ensures Prepend([], r) == r
  {
    if r.Ok? {
      assert [] + r.value == r.value;
    }
  }

  lemma {:induction false} PrependTwice(vs: seq<DerValue>, v: DerValue, r: Result<seq<DerValue>>)
    ensures Prepend(vs, Prepend([v], r)) == Prepend(vs + [v], r)
  {
    if r.Ok? {
      assert vs + ([v] + r.value) == vs + [v] + r.value;
    }
  }

  /** `_read_sequence` */
  method ReadSequence(content: Bytes) returns (r: Result<seq<DerValue>>)
    ensures r == ValuesFrom(content, 0)
  {
    var items: seq<DerValue> := [];
    var offset := 0;
    PrependNone(ValuesFrom(content, 0));
    while offset < |content|
      invariant 0 <= offset
      invariant ValuesFrom(content, 0) == Prepend(items, ValuesFrom(content, offset))
      decreases |content| - offset
    {
      var one := ReadTlv(content, offset);
      if one.Err? {
        return Err(one.error);
      }
      PrependTwice(items, one.value.0, ValuesFrom(content, one.value.1));
      items := items + [one.value.0];
      offset := one.value.1;
    }
    assert items + [] == items;
    return Ok(items);
  }

  /** `_as_int` */
  function AsInt(v: DerValue): nat {
    BigEndian(v.content)
  }

  // ---- the encodings

  /** How a length is written. `Long` has that many octets after the first, not necessarily the fewest. */
  datatype LengthForm = Short | Long(octets: nat)

  function Pow256(k: nat): (p: nat)
    ensures p > 0
  {
    if k == 0 then 1 else 256 * Pow256(k - 1)
  }

  /** The form can express `n`, with at most `most` octets. */
  predicate Expresses(form: LengthForm, n: nat, most: nat) {
    match form
    case Short => n < 128
    case Long(k) => 1 <= k <= most && k < 128 && n < Pow256(k)
  }

  function ToBigEndian(n: nat, k: nat): (bs: Bytes)
    requires n < Pow256(k)
    ensures |bs| == k
  {
    if k == 0 then [] else ToBigEndian(n / 256, k - 1) + [n % 256]
  }

  function LengthOctets(n: nat, form: LengthForm): Bytes
    requires Expresses(form, n, 127)
  {
    if form.Short? then [n] else [128 + form.octets] + ToBigEndian(n, form.octets)
  }

  function TlvOctets(v: DerValue, form: LengthForm): Bytes
    requires Expresses(form, |v.content|, 127)
  {
    [v.tag] + LengthOctets(|v.content|, form) + v.content
  }

  lemma {:induction false} BigEndianInverse(n: nat, k: nat)
    requires n < Pow256(k)
    ensures BigEndian(ToBigEndian(n, k)) == n
  {
    if k > 0 {
      BigEndianInverse(n / 256, k - 1);
      assert ToBigEndian(n, k)[..k - 1] == ToBigEndian(n / 256, k - 1);
    }
  }

  lemma {:induction false} ToBigEndianInverse(bs: Bytes)
    ensures BigEndian(bs) < Pow256(|bs|)
    ensures ToBigEndian(BigEndian(bs), |bs|) == bs
  {
    if bs != [] {
      ToBigEndianInverse(bs[..|bs| - 1]);
      assert bs == bs[..|bs| - 1] + [bs[|bs| - 1]];
    }
  }

  /** The forms that `_read_tlv` takes: a one-octet tag and a length of at most four octets. */
  predicate Readable(v: DerValue, form: LengthForm) {
    v.tag % 32 != 31 && Expresses(form, |v.content|, 4)
  }

  /** Reading undoes encoding, wherever the encoding stands. */
  lemma {:induction false} ReadsEncoding(data: Bytes, offset: nat, v: DerValue, form: LengthForm)
    requires Readable(v, form)
    requires offset + |TlvOctets(v, form)| <= |data|
    requires data[offset..offset + |TlvOctets(v, form)|] == TlvOctets(v, form)
    ensures ReadTlv(data, offset) == Ok((v, offset + |TlvOctets(v, form)|))
  {
    hide ReadTlv, BigEndian, ToBigEndian, Pow256;
    if form.Short? {
      assert TlvOctets(v, form) == [v.tag] + [|v.content|] + v.content;
      ReadsShortSpan(data, offset, v);
    } else {
      LongForm(v, form.octets);
      ReadsLongSpan(data, offset, v, ToBigEndian(|v.content|, form.octets));
    }
  }

  lemma {:induction false} LongForm(v: DerValue, k: nat)
    requires Expresses(Long(k), |v.content|, 4)
    ensures TlvOctets(v, Long(k)) == [v.tag] + ([128 + k] + ToBigEndian(|v.content|, k)) + v.content
    ensures BigEndian(ToBigEndian(|v.content|, k)) == |v.content|
  {
    BigEndianInverse(|v.content|, k);
  }

  lemma {:induction false} ReadsShortSpan(data: Bytes, offset: nat, v: DerValue)
    requires v.tag % 32 != 31 && |v.content| < 128 && offset + 2 + |v.content| <= |data|
    requires data[offset..offset + 2 + |v.content|] == [v.tag] + [|v.content|] + v.content
    ensures ReadTlv(data, offset) == Ok((v, offset + 2 + |v.content|))
  {
    hide *;
    SpanParts(data, offset, v.tag, [|v.content|], v.content);
    ReadsShort(data, offset, v);
  }

  lemma {:induction false} ReadsLongSpan(data: Bytes, offset: nat, v: DerValue, written: Bytes)
    requires v.tag % 32 != 31 && 1 <= |written| <= 4 && BigEndian(written) == |v.content|
    requires offset + 2 + |written| + |v.content| <= |data|
    requires data[offset..offset + 2 + |written| + |v.content|]
          == [v.tag] + ([128 + |written|] + written) + v.content
    ensures ReadTlv(data, offset) == Ok((v, offset + 2 + |written| + |v.content|))
  {
    hide *;
    SpanParts(data, offset, v.tag, [128 + |written|] + written, v.content);
    ReadsLong(data, offset, v, written);
  }

  lemma {:induction false} ReadsShort(data: Bytes, offset: nat, v: DerValue)
    requires v.tag % 32 != 31 && |v.content| < 128 && offset + 2 + |v.content| <= |data|
    requires data[offset] == v.tag && data[offset + 1] == |v.content|
    requires data[offset + 2..offset + 2 + |v.content|] == v.content
    ensures ReadTlv(data, offset) == Ok((v, offset + 2 + |v.content|))
  {
  }

  lemma {:induction false} ReadsLong(data: Bytes, offset: nat, v: DerValue, written: Bytes)
    requires v.tag % 32 != 31 && 1 <= |written| <= 4 && BigEndian(written) == |v.content|
    requires offset + 2 + |written| + |v.content| <= |data|
    requires data[offset] == v.tag && data[offset + 1] == 128 + |written|
    requires data[offset + 2..offset + 2 + |written|] == written
    requires data[offset + 2 + |written|..offset + 2 + |written| + |v.content|] == v.content
    ensures ReadTlv(data, offset) == Ok((v, offset + 2 + |written| + |v.content|))
  {
    hide BigEndian;
    assert data[offset + 1] % 128 == |written|;
  }

  lemma {:induction false} SpanParts(data: Bytes, offset: nat, tag: Byte, length: Bytes, content: Bytes)
    requires length != [] && offset + 1 + |length| + |content| <= |data|
    requires data[offset..offset + 1 + |length| + |content|] == [tag] + length + content
    ensures data[offset] == tag && data[offset + 1] == length[0]
    ensures data[offset + 2..offset + 1 + |length|] == length[1..]
    ensures data[offset + 1 + |length|..offset + 1 + |length| + |content|] == content
  {
    var span := data[offset..offset + 1 + |length| + |content|];
    assert forall i | 0 <= i < |span| :: span[i] == data[offset + i];
    assert span[0] == data[offset] && span[1] == data[offset + 1];
    forall j | 0 <= j < |length| ensures length[j] == data[offset + 1 + j] {
      assert span[1 + j] == data[offset + (1 + j)];
    }
    forall i | 0 <= i < |content| ensures data[offset + 1 + |length| + i] == content[i] {
      assert span[1 + |length| + i] == data[offset + (1 + |length| + i)];
    }
  }

  /** The form in which the length at `offset + 1` is written. */
  function FormAt(data: Bytes, offset: nat): LengthForm
    requires offset + 1 < |data|
  {
    if data[offset + 1] < 128 then Short else Long(data[offset + 1] % 128)
  }

  /** Whatever is read is an encoding: the span from `offset` to `next` and nothing else. */
  lemma {:induction false} ReadIsEncoding(data: Bytes, offset: nat, v: DerValue, next: nat)
    requires ReadTlv(data, offset) == Ok((v, next))
    ensures Readable(v, FormAt(data, offset))
    ensures data[offset..next] == TlvOctets(v, FormAt(data, offset))
  {
    if data[offset + 1] < 128 {
      assert data[offset..next] == [v.tag] + [data[offset + 1]] + v.content;
    } else {
      LongReadIsEncoding(data, offset, v, next, data[offset + 1] % 128);
    }
  }

  lemma {:induction false} LongReadIsEncoding(data: Bytes, offset: nat, v: DerValue, next: nat, k: nat)
    requires offset + 2 + k <= next <= |data| && 1 <= k <= 4
    requires data[offset] == v.tag && data[offset + 1] == 128 + k
    requires data[offset + 2 + k..next] == v.content && |v.content| == BigEndian(data[offset + 2..offset + 2 + k])
    ensures Expresses(Long(k), |v.content|, 4)
    ensures data[offset..next] == TlvOctets(v, Long(k))
  {
    var written := data[offset + 2..offset + 2 + k];
    ToBigEndianInverse(written);
    assert data[offset..next] == [v.tag] + ([data[offset + 1]] + written) + v.content;
  }

  predicate AllReadable(vs: seq<DerValue>, forms: seq<LengthForm>) {
    |forms| == |vs| && forall i | 0 <= i < |vs| :: Readable(vs[i], forms[i])
  }

  function SequenceOctets(vs: seq<DerValue>, forms: seq<LengthForm>): Bytes
    requires AllReadable(vs, forms)
  {
    if vs == [] then [] else TlvOctets(vs[0], forms[0]) + SequenceOctets(vs[1..], forms[1..])
  }

  /** Slices of a tail, as slices of the whole. */
  lemma {:induction false} TailSlices(content: Bytes, offset: nat, x: Bytes, y: Bytes)
    requires offset <= |content| && content[offset..] == x + y
    ensures offset + |x| <= |content|
    ensures content[offset..offset + |x|] == x && content[offset + |x|..] == y
  {
  }

  lemma {:induction false} SequenceReads(content: Bytes, offset: nat, vs: seq<DerValue>, forms: seq<LengthForm>)
    requires AllReadable(vs, forms) && offset <= |content|
    requires content[offset..] == SequenceOctets(vs, forms)
    ensures ValuesFrom(content, offset) == Ok(vs)
    decreases |vs|
  {
    if vs != [] {
      var next := offset + |TlvOctets(vs[0], forms[0])|;
      RestReadable(vs, forms);
      EncodingThenRest(content, offset, vs[0], forms[0], SequenceOctets(vs[1..], forms[1..]));
      SequenceReads(content, next, vs[1..], forms[1..]);
      ReadOne(content, offset, vs[0], next, vs[1..]);
    }
  }

  lemma {:induction false} RestReadable(vs: seq<DerValue>, forms: seq<LengthForm>)
    requires AllReadable(vs, forms) && vs != []
    ensures AllReadable(vs[1..], forms[1..]) && vs == [vs[0]] + vs[1..]
  {
  }

  lemma {:induction false} EncodingThenRest(content: Bytes, offset: nat, v: DerValue, form: LengthForm, rest: Bytes)
    requires Readable(v, form)
    requires offset <= |content| && content[offset..] == TlvOctets(v, form) + rest
    ensures ReadTlv(content, offset) == Ok((v, offset + |TlvOctets(v, form)|))
    ensures offset + |TlvOctets(v, form)| <= |content| && content[offset + |TlvOctets(v, form)|..] == rest
  {
    TailSlices(content, offset, TlvOctets(v, form), rest);
    ReadsEncoding(content, offset, v, form);
  }

  lemma {:induction false} ReadOne(content: Bytes, offset: nat, v: DerValue, next: nat, rest: seq<DerValue>)
    requires ReadTlv(content, offset) == Ok((v, next)) && ValuesFrom(content, next) == Ok(rest)
    ensures ValuesFrom(content, offset) == Ok([v] + rest)
  {
  }

  lemma {:induction false} SequenceTiles(content: Bytes, offset: nat, vs: seq<DerValue>) returns (forms: seq<LengthForm>)
    requires offset <= |content| && ValuesFrom(content, offset) == Ok(vs)
    ensures AllReadable(vs, forms) && content[offset..] == SequenceOctets(vs, forms)
    decreases |content| - offset
  {
    if offset == |content| {
      forms := [];
    } else {
      var (v, next) := ReadTlv(content, offset).value;
      ReadIsEncoding(content, offset, v, next);
      assert vs[0] == v && ValuesFrom(content, next) == Ok(vs[1..]) by {
        OneRead(content, offset, v, next, vs);
      }
      var rest := SequenceTiles(content, next, vs[1..]);
      forms := [FormAt(content, offset)] + rest;
      Glue(content, offset, next);
      FirstForm(vs, forms, rest);
    }
  }

  lemma {:induction false} OneRead(content: Bytes, offset: nat, v: DerValue, next: nat, vs: seq<DerValue>)
    requires offset < |content| && ReadTlv(content, offset) == Ok((v, next)) && ValuesFrom(content, offset) == Ok(vs)
    ensures vs != [] && vs[0] == v && ValuesFrom(content, next) == Ok(vs[1..])
  {
  }

  lemma {:induction false} Glue(content: Bytes, offset: nat, next: nat)
    requires offset <= next <= |content|
    ensures content[offset..] == content[offset..next] + content[next..]
  {
  }

  lemma {:induction false} FirstForm(vs: seq<DerValue>, forms: seq<LengthForm>, rest: seq<LengthForm>)
    requires vs != [] && forms != [] && forms == [forms[0]] + rest
    requires Readable(vs[0], forms[0]) && AllReadable(vs[1..], rest)
    ensures AllReadable(vs, forms)
    ensures SequenceOctets(vs, forms) == TlvOctets(vs[0], forms[0]) + SequenceOctets(vs[1..], rest)
  {
  }

  /**
   `_read_sequence` succeeds with `vs` on exactly the concatenations of encodings
   of `vs`: it inverts every encoder, and the spans it reads tile its input.
   */
  lemma {:induction false} SequenceIsInverse(content: Bytes, vs: seq<DerValue>)
    ensures ValuesFrom(content, 0) == Ok(vs)
       <==> exists forms :: AllReadable(vs, forms) && content == SequenceOctets(vs, forms)
  {
    assert content[0..] == content;
    if ValuesFrom(content, 0) == Ok(vs) {
      var forms := SequenceTiles(content, 0, vs);
    }
    if exists forms :: AllReadable(vs, forms) && content == SequenceOctets(vs, forms) {
      var forms :| AllReadable(vs, forms) && content == SequenceOctets(vs, forms);
      SequenceReads(content, 0, vs, forms);
    }
  }
}
