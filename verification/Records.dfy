/** Records in transit, and the source partition they come from.

    The source is the sequence of every record the partition ever gets, in
    offset order.  Offsets may have holes (compaction, transaction markers).
    That the partition grows over time is covered by the steps of the models
    that read it: a record is delivered at any time, or not yet. */
module Records {

  datatype Option<+T> = None | Some(value: T)

  datatype Result<+T, +E> = Ok(value: T) | Err(error: E)

  newtype byte = x: int | 0 <= x < 256

  type Bytes = seq<byte>

  datatype Header = Header(key: Bytes, value: Option<Bytes>)

  datatype TimestampType = CreateTime | LogAppendTime | NotAvailable

  datatype Record = Record(
    topic: string,
    partition: int,
    offset: nat,
    timestamp: Option<int>,
    timestampType: TimestampType,
    key: Option<Bytes>,
    value: Option<Bytes>,
    headers: seq<Header>)

  // ---------- text ----------

  predicate Continues(b: byte) {
    0x80 <= b <= 0xBF
  }

  /** The length of the UTF-8 sequence `b` starts with; 0 if it starts with none. */
  function SequenceLength(b: Bytes): (n: nat)
    ensures n <= |b|
  {
    if |b| >= 1 && b[0] < 0x80 then 1
    else if |b| >= 2 && 0xC2 <= b[0] <= 0xDF && Continues(b[1]) then 2
    else if |b| >= 3 && 0xE0 <= b[0] <= 0xEF && Continues(b[1]) && Continues(b[2])
            && (b[0] == 0xE0 ==> b[1] >= 0xA0) && (b[0] == 0xED ==> b[1] <= 0x9F) then 3
    else if |b| >= 4 && 0xF0 <= b[0] <= 0xF4 && Continues(b[1]) && Continues(b[2]) && Continues(b[3])
            && (b[0] == 0xF0 ==> b[1] >= 0x90) && (b[0] == 0xF4 ==> b[1] <= 0x8F) then 4
    else 0
  }

  predicate IsUtf8(b: Bytes) {
    b == [] || (SequenceLength(b) > 0 && IsUtf8(b[SequenceLength(b)..]))
  }

  /** A key that can name an entry of a view: not null, and text. */
  predicate HasTextKey(r: Record) {
    r.key.Some? && IsUtf8(r.key.value)
  }

  // ---------- the source ----------

  /** One more than the largest `u64`. */
  const TWO_64: nat := 0x1_0000_0000_0000_0000

  /** Offsets strictly increase, and the offset after the last one is a `u64`. */
  ghost predicate Ascending(log: seq<Record>) {
    && (forall i, j :: 0 <= i < j < |log| ==> log[i].offset < log[j].offset)
    && (forall i :: 0 <= i < |log| ==> log[i].offset + 1 < TWO_64)
  }

  /** The index of the first record at or above `position`; the length if there is none. */
  function First(log: seq<Record>, position: nat): (i: nat)
    ensures i <= |log|
    ensures forall k :: 0 <= k < i ==> log[k].offset < position
    ensures i < |log| ==> log[i].offset >= position
  {
    if log == [] || log[0].offset >= position then 0 else 1 + First(log[1..], position)
  }

  lemma {:induction false} FirstIs(log: seq<Record>, position: nat, i: nat)
    requires Ascending(log) && i <= |log|
    requires i > 0 ==> log[i - 1].offset < position
    requires i < |log| ==> log[i].offset >= position
    ensures First(log, position) == i
  {
    assert forall k :: 0 <= k < i ==> log[k].offset < position;
  }

  lemma {:induction false} FirstMonotone(log: seq<Record>, a: nat, b: nat)
    requires Ascending(log) && a <= b
    ensures First(log, a) <= First(log, b)
  {
  }

  /** The records of positions `from..to` (end exclusive). */
  ghost function Range(log: seq<Record>, from: nat, to: nat): seq<Record>
    requires Ascending(log) && from <= to
  {
    FirstMonotone(log, from, to);
    log[First(log, from)..First(log, to)]
  }

  lemma {:induction false} RangeSplit(log: seq<Record>, a: nat, b: nat, c: nat)
    requires Ascending(log) && a <= b <= c
    ensures Range(log, a, b) + Range(log, b, c) == Range(log, a, c)
  {
    FirstMonotone(log, a, b);
    FirstMonotone(log, b, c);
  }

  /** `record` is the record the source delivers next to a reader at `position`. */
  ghost predicate DeliversNext(log: seq<Record>, position: nat, record: Record) {
    First(log, position) < |log| && log[First(log, position)] == record
  }

  lemma {:induction false} RangeOfDelivered(log: seq<Record>, position: nat, record: Record)
    requires Ascending(log) && DeliversNext(log, position, record)
    ensures position <= record.offset
    ensures Range(log, position, record.offset + 1) == [record]
  {
    var i := First(log, position);
    FirstIs(log, record.offset + 1, i + 1);
  }

  /** A reader further on, but not past `record`, gets the same record. */
  lemma {:induction false} DeliveredFromFurtherOn(log: seq<Record>, position: nat, further: nat, record: Record)
    requires Ascending(log) && DeliversNext(log, position, record)
    requires position <= further <= record.offset
    ensures DeliversNext(log, further, record)
  {
    FirstIs(log, further, First(log, position));
  }

  lemma {:induction false} RangeBounds(log: seq<Record>, from: nat, to: nat)
    requires Ascending(log) && from <= to
    ensures Ascending(Range(log, from, to))
    ensures forall k :: 0 <= k < |Range(log, from, to)| ==> from <= Range(log, from, to)[k].offset < to
  {
    FirstMonotone(log, from, to);
    var i, j := First(log, from), First(log, to);
    forall k | 0 <= k < j - i
      ensures from <= log[i..j][k].offset < to
    {
      assert log[i].offset <= log[i + k].offset;
    }
  }
}
