/** How large a record is as a batch of its own, in Kafka's message format v2
    (sections 5.3.1, 5.3.2 and 5.3.2.1 of the Apache Kafka documentation). */
module BatchSizes {
  import opened Records

  // ---------- varints ----------

  /** Signed to unsigned, small magnitudes first. */
  function ZigZag(v: int): nat {
    if v >= 0 then 2 * v else -2 * v - 1
  }

  const TWO_63: int := 0x8000_0000_0000_0000

  predicate IsI64(v: int) {
    -TWO_63 <= v < TWO_63
  }

  /** `((v << 1) ^ (v >> 63)) as u64` on 64 bits: the left shift drops the top bit, the right
      shift spreads the sign, and an exclusive or with all ones is the complement. */
  function ZigZagBits(v: int): (z: nat)
    requires IsI64(v)
    ensures z == ZigZag(v) < TWO_64
  {
    var shifted := (2 * v) % TWO_64;
    var sign := if v < 0 then TWO_64 - 1 else 0;
    if sign == 0 then shifted else TWO_64 - 1 - shifted
  }

  function UnZigZag(z: nat): int {
    if z % 2 == 0 then z / 2 else -(z / 2) - 1
  }

  /** Seven bits a byte, least significant first; all but the last byte marked. */
  function Groups(z: nat): (b: Bytes)
    ensures b != []
  {
    if z < 0x80 then [z as byte] else [(0x80 + z % 0x80) as byte] + Groups(z / 0x80)
  }

  function Varint(v: int): Bytes {
    Groups(ZigZag(v))
  }

  /** The number and what follows it. */
  function ReadGroups(b: Bytes): Option<(nat, Bytes)> {
    if b == [] then None
    else if b[0] < 0x80 then Some((b[0] as nat, b[1..]))
    else
      match ReadGroups(b[1..])
      case None => None
      case Some((z, rest)) => Some((z * 0x80 + (b[0] as nat - 0x80), rest))
  }

  function ReadVarint(b: Bytes): Option<(int, Bytes)> {
    match ReadGroups(b)
    case None => None
    case Some((z, rest)) => Some((UnZigZag(z), rest))
  }

  lemma {:induction false} GroupsRoundTrip(z: nat, rest: Bytes)
    ensures ReadGroups(Groups(z) + rest) == Some((z, rest))
  {
    var all := Groups(z) + rest;
    if z < 0x80 {
      assert all[1..] == rest;
    } else {
      GroupsRoundTrip(z / 0x80, rest);
      assert all[1..] == Groups(z / 0x80) + rest;
    }
  }

  lemma {:induction false} VarintRoundTrip(v: int, rest: Bytes)
    ensures ReadVarint(Varint(v) + rest) == Some((v, rest))
  {
    GroupsRoundTrip(ZigZag(v), rest);
  }

  /** The length counts the base-128 groups: for 64-bit values between 1 and 10. */
  lemma {:induction false} GroupsLength(z: nat, n: nat)
    requires n > 0 && z < Pow128(n)
    ensures 1 <= |Groups(z)| <= n
    ensures z >= Pow128(|Groups(z)| - 1) || z == 0
  {
    if z >= 0x80 {
      GroupsLength(z / 0x80, n - 1);
    }
  }

  function Pow128(n: nat): nat {
    if n == 0 then 1 else 0x80 * Pow128(n - 1)
  }

  lemma {:induction false} LongVarintsFit(v: int)
    requires IsI64(v)
    ensures 1 <= |Varint(v)| <= 10
  {
    assert Pow128(10) == 0x80 * 0x80 * 0x80 * 0x80 * 0x80 * 0x80 * 0x80 * 0x80 * 0x80 * 0x80 by {
      assert Pow128(5) == 0x80 * 0x80 * 0x80 * 0x80 * 0x80;
      assert Pow128(7) == 0x80 * 0x80 * Pow128(5);
      assert Pow128(10) == 0x80 * 0x80 * 0x80 * Pow128(7);
    }
    GroupsLength(ZigZag(v), 10);
  }

  method VarintLen(v: int) returns (n: nat)
    requires IsI64(v)
    ensures n == |Varint(v)|
  {
    var z := ZigZagBits(v);
    n := 1;
    while z >= 0x80
      invariant n + |Groups(z)| == |Varint(v)| + 1
    {
      z := z / 0x80;
      n := n + 1;
    }
  }

  // ---------- records ----------

  /** A length and as many bytes; a null is the length -1 alone. */
  function Field(b: Option<Bytes>): Bytes {
    match b
    case None => Varint(-1)
    case Some(bytes) => Varint(|bytes|) + bytes
  }

  function HeaderBytes(h: Header): Bytes {
    Field(Some(h.key)) + Field(h.value)
  }

  function HeadersBytes(headers: seq<Header>): Bytes {
    if headers == [] then [] else HeaderBytes(headers[0]) + HeadersBytes(headers[1..])
  }

  /** A record without its length: attributes, timestamp and offset deltas, key, value, headers. */
  function Body(r: Record): Bytes {
    [0] + Varint(0) + Varint(0) + Field(r.key) + Field(r.value) + Varint(|r.headers|) + HeadersBytes(r.headers)
  }

  function RecordBytes(r: Record): Bytes {
    Varint(|Body(r)|) + Body(r)
  }

  // ---------- reading a record back ----------

  function ReadField(b: Bytes): Option<(Option<Bytes>, Bytes)> {
    match ReadVarint(b)
    case None => None
    case Some((n, rest)) =>
      if n == -1 then Some((None, rest))
      else if 0 <= n <= |rest| then Some((Some(rest[..n]), rest[n..]))
      else None
  }

  function ReadHeaders(n: nat, b: Bytes): Option<(seq<Header>, Bytes)> {
    if n == 0 then Some(([], b))
    else
      match ReadField(b)
      case Some((Some(key), afterKey)) =>
        (match ReadField(afterKey)
         case None => None
         case Some((value, afterValue)) =>
           match ReadHeaders(n - 1, afterValue)
           case None => None
           case Some((headers, rest)) => Some(([Header(key, value)] + headers, rest)))
      case _ => None
  }

  lemma {:induction false} FieldRoundTrip(b: Option<Bytes>, rest: Bytes)
    ensures ReadField(Field(b) + rest) == Some((b, rest))
  {
    match b
    case None => VarintRoundTrip(-1, rest);
    case Some(bytes) =>
      VarintRoundTrip(|bytes|, bytes + rest);
      assert Varint(|bytes|) + bytes + rest == Varint(|bytes|) + (bytes + rest);
  }

  lemma {:induction false} HeadersRoundTrip(headers: seq<Header>, rest: Bytes)
    ensures ReadHeaders(|headers|, HeadersBytes(headers) + rest) == Some((headers, rest))
  {
    hide Field, ReadField;
    if headers == [] {
      assert [] + rest == rest;
    } else {
      var h, more := headers[0], HeadersBytes(headers[1..]) + rest;
      HeadersRoundTrip(headers[1..], rest);
      FieldRoundTrip(Some(h.key), Field(h.value) + more);
      FieldRoundTrip(h.value, more);
      assert HeadersBytes(headers) + rest == Field(Some(h.key)) + (Field(h.value) + more);
      assert headers == [h] + headers[1..];
    }
  }

  /** The key, the value, the headers, and what follows the record. */
  function ReadRecord(b: Bytes): Option<(Option<Bytes>, Option<Bytes>, seq<Header>, Bytes)> {
    match ReadVarint(b)
    case None => None
    case Some((length, body)) =>
      if !(1 <= length <= |body|) then None
      else
        match ReadVarint(body[1..])
        case None => None
        case Some((_, afterTime)) =>
          match ReadVarint(afterTime)
          case None => None
          case Some((_, afterOffset)) =>
            match ReadField(afterOffset)
            case None => None
            case Some((key, afterKey)) =>
              match ReadField(afterKey)
              case None => None
              case Some((value, afterValue)) =>
                match ReadVarint(afterValue)
                case None => None
                case Some((n, afterCount)) =>
                  if n < 0 then None
                  else
                    match ReadHeaders(n, afterCount)
                    case None => None
                    case Some((headers, rest)) => Some((key, value, headers, rest))
  }

  /** The encoder writes what a reader of the format reads. */
  lemma {:induction false} RecordRoundTrip(r: Record, rest: Bytes)
    ensures ReadRecord(RecordBytes(r) + rest) == Some((r.key, r.value, r.headers, rest))
  {
    hide Varint, Field, ReadVarint, ReadField, ReadHeaders, HeadersBytes;
    var headers := HeadersBytes(r.headers) + rest;
    var count := Varint(|r.headers|) + headers;
    var value := Field(r.value) + count;
    var key := Field(r.key) + value;
    var deltas := Varint(0) + (Varint(0) + key);
    assert Body(r) + rest == [0] + deltas;
    assert RecordBytes(r) + rest == Varint(|Body(r)|) + (Body(r) + rest);
    VarintRoundTrip(|Body(r)|, Body(r) + rest);
    assert (Body(r) + rest)[1..] == deltas;
    VarintRoundTrip(0, Varint(0) + key);
    VarintRoundTrip(0, key);
    FieldRoundTrip(r.key, value);
    FieldRoundTrip(r.value, count);
    VarintRoundTrip(|r.headers|, headers);
    HeadersRoundTrip(r.headers, rest);
  }

  // ---------- a batch of one ----------

  function Pow256(n: nat): nat {
    if n == 0 then 1 else 0x100 * Pow256(n - 1)
  }

  /** A fixed-width field, most significant byte first. */
  function BigEndian(v: nat, width: nat): (b: Bytes)
    ensures |b| == width
  {
    if width == 0 then [] else BigEndian(v / 0x100, width - 1) + [(v % 0x100) as byte]
  }

  /** What a batch header holds besides what follows from the record. */
  datatype BatchFields = BatchFields(
    baseOffset: nat, leaderEpoch: nat, crc: nat, attributes: nat, timestamp: nat,
    producerId: nat, producerEpoch: nat, baseSequence: nat)

  const MAGIC: nat := 2

  /** The batch header, from base offset to record count; the batch length counts what follows it. */
  function BatchHeader(f: BatchFields, records: Bytes): Bytes {
    BigEndian(f.baseOffset, 8) + BigEndian(49 + |records|, 4) + BigEndian(f.leaderEpoch, 4) + BigEndian(MAGIC, 1)
    + BigEndian(f.crc, 4) + BigEndian(f.attributes, 2) + BigEndian(0, 4) + BigEndian(f.timestamp, 8)
    + BigEndian(f.timestamp, 8) + BigEndian(f.producerId, 8) + BigEndian(f.producerEpoch, 2)
    + BigEndian(f.baseSequence, 4) + BigEndian(1, 4)
  }

  function Batch(f: BatchFields, r: Record): Bytes {
    BatchHeader(f, RecordBytes(r)) + RecordBytes(r)
  }

  const RECORD_BATCH_OVERHEAD: nat := 61

  method FieldLen(b: Option<Bytes>) returns (n: nat)
    requires b.Some? ==> IsI64(|b.value|)
    ensures n == |Field(b)|
  {
    match b
    case None => n := VarintLen(-1);
    case Some(bytes) =>
      n := VarintLen(|bytes|);
      n := n + |bytes|;
  }

  lemma {:induction false} HeadersMore(headers: seq<Header>, i: nat)
    requires i < |headers|
    ensures |HeadersBytes(headers[..i + 1])| == |HeadersBytes(headers[..i])| + |HeaderBytes(headers[i])|
    decreases i
  {
    hide HeaderBytes;
    if i > 0 {
      var rest := headers[1..];
      HeadersMore(rest, i - 1);
      assert headers[..i][1..] == rest[..i - 1];
      assert headers[..i + 1][1..] == rest[..i];
      assert headers[..i][0] == headers[..i + 1][0] == headers[0];
    } else {
      assert headers[..1][1..] == [];
    }
  }

  predicate FieldFits(b: Option<Bytes>) {
    b.Some? ==> IsI64(|b.value|)
  }

  /** Every length is one of memory. */
  predicate Fits(r: Record) {
    && FieldFits(r.key) && FieldFits(r.value) && IsI64(|r.headers|) && IsI64(|Body(r)|)
    && forall i :: 0 <= i < |r.headers| ==> IsI64(|r.headers[i].key|) && FieldFits(r.headers[i].value)
  }

  /** The size is the length of the record encoded as a batch of its own, whatever the batch
      header holds. */
  method SingleRecordBatchBytes(r: Record) returns (n: nat)
    requires Fits(r)
    ensures forall f :: n == |Batch(f, r)|
  {
    hide Field, Varint, HeaderBytes;
    var timestampDelta := VarintLen(0);
    var offsetDelta := VarintLen(0);
    var key := FieldLen(r.key);
    var value := FieldLen(r.value);
    var count := VarintLen(|r.headers|);
    var body := 1 + timestampDelta + offsetDelta + key + value + count;
    ghost var before := body;
    assert r.headers[..0] == [];
    for i := 0 to |r.headers|
      invariant body == before + |HeadersBytes(r.headers[..i])|
    {
      var headerKey := FieldLen(Some(r.headers[i].key));
      var headerValue := FieldLen(r.headers[i].value);
      HeadersMore(r.headers, i);
      HeaderLength(r.headers[i]);
      body := body + headerKey + headerValue;
    }
    assert r.headers[..|r.headers|] == r.headers;
    assert body == |Body(r)|;
    var length := VarintLen(body);
    n := RECORD_BATCH_OVERHEAD + length + body;
  }

  lemma {:induction false} HeaderLength(h: Header)
    ensures |HeaderBytes(h)| == |Field(Some(h.key))| + |Field(h.value)|
  {
  }
}
