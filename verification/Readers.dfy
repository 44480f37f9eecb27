/** Reading a backup back: each object checked against its name and the backup's
    source, holes counted, and the whole summed up. */
module Readers {
  import opened Records
  import opened Chain
  import opened BlobSinks

  /** What an object's bytes decode to, and their digest. */
  datatype Object = Object(records: seq<Record>, digest: nat)

  type Backup = map<string, Object>

  /** The topic and partition every record of a backup must carry. */
  datatype Source = Source(topic: string, partition: int)

  datatype ObjectSummary = ObjectSummary(name: string, records: nat, holes: nat, firstHole: Option<nat>, digest: nat)

  datatype BackupSummary = BackupSummary(
    objects: seq<ObjectSummary>,
    firstOffset: nat,
    lastOffset: nat,
    records: nat,
    holes: nat,
    firstHole: Option<nat>)

  datatype RestoreError =
    | StoreFailed
    | BadObject
    | BadChain
    | BadMode
    | MissingOffset(next: nat)
    | TargetFailed
    | TargetNotEmpty(start: nat)
    | ProduceFailed(cause: RestoreError)
    | Unsettled

  // ---------- one object ----------

  ghost predicate Increasing(records: seq<Record>) {
    forall i, j :: 0 <= i < j < |records| ==> records[i].offset < records[j].offset
  }

  ghost predicate OfSource(records: seq<Record>, source: Source) {
    forall i :: 0 <= i < |records| ==> records[i].topic == source.topic && records[i].partition == source.partition
  }

  /** The records of an object that is what its name says: of the source, increasing inside its
      range, the last at its end. */
  ghost predicate IsRead(o: ChainObject, source: Source, records: seq<Record>) {
    && records != []
    && o.from <= records[0].offset
    && records[|records| - 1].offset == o.to
    && Increasing(records) && OfSource(records, source)
  }

  method ReadObject(o: ChainObject, source: Source, stored: Option<Object>) returns (r: Result<Object, RestoreError>)
    ensures stored.None? ==> r == Err(StoreFailed)
    ensures stored.Some? ==>
              r == if IsRead(o, source, stored.value.records) then Ok(stored.value) else Err(BadObject)
  {
    if stored.None? {
      return Err(StoreFailed);
    }
    var records := stored.value.records;
    if records == [] || records[|records| - 1].offset != o.to {
      return Err(BadObject);
    }
    var previous: Option<nat> := None;
    for i := 0 to |records|
      invariant previous == if i == 0 then None else Some(records[i - 1].offset)
      invariant Increasing(records[..i]) && OfSource(records[..i], source)
      invariant forall k :: 0 <= k < i ==> o.from <= records[k].offset
    {
      var r := records[i];
      if r.offset < o.from {
        assert i > 0 ==> records[i - 1].offset > r.offset;
        return Err(BadObject);
      }
      if previous.Some? && r.offset <= previous.value {
        return Err(BadObject);
      }
      if r.topic != source.topic || r.partition != source.partition {
        return Err(BadObject);
      }
      previous := Some(r.offset);
    }
    assert records[..|records|] == records;
    return Ok(stored.value);
  }

  // ---------- holes ----------

  ghost predicate HasOffset(records: seq<Record>, p: nat) {
    exists i :: 0 <= i < |records| && records[i].offset == p
  }

  ghost function Interval(from: nat, end: nat): (s: set<nat>)
    ensures forall p :: p in s <==> from <= p < end
    ensures from <= end ==> |s| == end - from
    decreases end - from
  {
    if from >= end then {} else {from} + Interval(from + 1, end)
  }

  /** The positions `from..end` (end exclusive) without a record. */
  ghost function MissingIn(from: nat, end: nat, records: seq<Record>): set<nat> {
    set p | p in Interval(from, end) && !HasOffset(records, p)
  }

  /** `h` is the least element of `s`, if there is one. */
  ghost predicate IsLeast(h: Option<nat>, s: set<nat>) {
    if h.None? then s == {} else h.value in s && forall p :: p in s ==> h.value <= p
  }

  ghost predicate Describes(s: ObjectSummary, o: ChainObject, content: Object) {
    && s.name == o.name
    && s.records == |content.records|
    && s.digest == content.digest
    && s.holes == |MissingIn(o.from, o.to + 1, content.records)|
    && IsLeast(s.firstHole, MissingIn(o.from, o.to + 1, content.records))
  }

  ghost function Offsets(records: seq<Record>): (s: set<nat>) {
    if records == [] then {} else Offsets(records[..|records| - 1]) + {records[|records| - 1].offset}
  }

  lemma {:induction false} OffsetsAre(records: seq<Record>)
    ensures forall p :: p in Offsets(records) <==> HasOffset(records, p)
  {
    if records != [] {
      var n := |records| - 1;
      var init := records[..n];
      OffsetsAre(init);
      forall p
        ensures p in Offsets(records) <==> HasOffset(records, p)
      {
        if i :| 0 <= i < n && init[i].offset == p {
          assert records[i].offset == p;
        }
        if i :| 0 <= i < |records| && records[i].offset == p {
          assert i < n ==> init[i].offset == p;
        }
      }
    }
  }

  lemma {:induction false} OffsetsSize(records: seq<Record>)
    requires Increasing(records)
    ensures |Offsets(records)| == |records|
  {
    if records != [] {
      var n := |records| - 1;
      OffsetsSize(records[..n]);
      OffsetsAre(records[..n]);
      assert forall k :: 0 <= k < n ==> records[..n][k].offset < records[n].offset;
    }
  }

  /** The holes of an object are its positions without those that have a record. */
  lemma {:induction false} MissingSize(o: ChainObject, source: Source, records: seq<Record>)
    requires IsRead(o, source, records)
    ensures |MissingIn(o.from, o.to + 1, records)| == o.to - o.from + 1 - |records|
  {
    forall i | 0 <= i < |records|
      ensures o.from <= records[i].offset <= o.to
    {
      assert records[0].offset <= records[i].offset <= records[|records| - 1].offset;
    }
    OffsetsAre(records);
    OffsetsSize(records);
    var all := Interval(o.from, o.to + 1);
    assert MissingIn(o.from, o.to + 1, records) == all - Offsets(records);
    assert Offsets(records) <= all;
  }

  /** The count is the number of positions without a record, and the first hole is the least of them. */
  method Summarize(o: ChainObject, content: Object, ghost source: Source) returns (s: ObjectSummary)
    requires IsRead(o, source, content.records)
    ensures Describes(s, o, content)
  {
    var records := content.records;
    MissingSize(o, source, records);
    var positions := o.to - o.from + 1;
    var next, firstHole: Option<nat> := o.from, None;
    for i := 0 to |records|
      invariant next == if i == 0 then o.from else records[i - 1].offset + 1
      invariant firstHole.None? ==> forall p :: o.from <= p < next ==> HasOffset(records, p)
      invariant firstHole.Some? ==>
                  && o.from <= firstHole.value < next && !HasOffset(records, firstHole.value)
                  && forall p :: o.from <= p < firstHole.value ==> HasOffset(records, p)
    {
      var r := records[i];
      if r.offset > next && firstHole.None? {
        assert !HasOffset(records, next) by {
          assert i > 0 ==> records[i - 1].offset < next;
          assert forall k :: 0 <= k < i ==> records[k].offset <= records[i - 1].offset;
          assert forall k :: i <= k < |records| ==> r.offset <= records[k].offset;
        }
        firstHole := Some(next);
      }
      assert HasOffset(records, r.offset);
      assert i > 0 ==> records[i - 1].offset < r.offset;
      next := r.offset + 1;
    }
    s := ObjectSummary(o.name, |records|, positions - |records|, firstHole, content.digest);
  }

  // ---------- a backup ----------

  function RecordsOf(backup: Backup): Directory {
    map name | name in backup :: backup[name].records
  }

  /** Every object of the chain is there and is what its name says. */
  ghost predicate AllRead(chain: seq<ChainObject>, source: Source, backup: Backup) {
    forall i :: 0 <= i < |chain| ==> chain[i].name in backup && IsRead(chain[i], source, backup[chain[i].name].records)
  }

  /** The records of a backup: those of its objects, in chain order. */
  function Flat(chain: seq<ChainObject>, backup: Backup): seq<Record>
    requires forall i :: 0 <= i < |chain| ==> chain[i].name in backup
  {
    Concatenated(RecordsOf(backup), chain)
  }

  ghost function HolesIn(chain: seq<ChainObject>, backup: Backup): nat
    requires forall i :: 0 <= i < |chain| ==> chain[i].name in backup
  {
    if chain == [] then 0
    else
      var last := chain[|chain| - 1];
      HolesIn(chain[..|chain| - 1], backup) + |MissingIn(last.from, last.to + 1, backup[last.name].records)|
  }

  function FirstHoleOf(objects: seq<ObjectSummary>): Option<nat> {
    if objects == [] then None
    else if objects[0].firstHole.Some? then objects[0].firstHole
    else FirstHoleOf(objects[1..])
  }

  ghost predicate Sums(s: BackupSummary, chain: seq<ChainObject>, backup: Backup)
    requires chain != [] && forall i :: 0 <= i < |chain| ==> chain[i].name in backup
  {
    && |s.objects| == |chain|
    && (forall i :: 0 <= i < |chain| ==> Describes(s.objects[i], chain[i], backup[chain[i].name]))
    && s.firstOffset == chain[0].from
    && s.lastOffset == chain[|chain| - 1].to
    && s.records == |Flat(chain, backup)|
    && s.holes == HolesIn(chain, backup)
    && s.firstHole == FirstHoleOf(s.objects)
  }

  lemma {:induction false} FirstHoleOfMore(objects: seq<ObjectSummary>, s: ObjectSummary)
    ensures FirstHoleOf(objects + [s]) == if FirstHoleOf(objects).Some? then FirstHoleOf(objects) else s.firstHole
  {
    if objects == [] {
      assert objects + [s] == [s] && [s][1..] == [];
    } else {
      FirstHoleOfMore(objects[1..], s);
      assert (objects + [s])[1..] == objects[1..] + [s];
    }
  }

  lemma {:induction false} NothingRead(backup: Backup)
    ensures Flat([], backup) == [] && HolesIn([], backup) == 0 && FirstHoleOf([]) == None
  {
  }

  ghost predicate AllStored(chain: seq<ChainObject>, backup: Backup) {
    forall k :: 0 <= k < |chain| ==> chain[k].name in backup
  }

  lemma {:induction false} ReadMore(chain: seq<ChainObject>, i: nat, backup: Backup)
    requires i < |chain| && chain[i].name in backup && AllStored(chain[..i], backup)
    ensures AllStored(chain[..i + 1], backup)
    ensures Flat(chain[..i + 1], backup) == Flat(chain[..i], backup) + backup[chain[i].name].records
    ensures HolesIn(chain[..i + 1], backup)
            == HolesIn(chain[..i], backup) + |MissingIn(chain[i].from, chain[i].to + 1, backup[chain[i].name].records)|
  {
    assert chain[..i + 1][..i] == chain[..i];
    assert forall k :: 0 <= k < i ==> chain[..i][k] == chain[..i + 1][k];
  }

  ghost predicate Verified(s: ObjectSummary, o: ChainObject, source: Source, backup: Backup) {
    o.name in backup && IsRead(o, source, backup[o.name].records) && Describes(s, o, backup[o.name])
  }

  /** The verify pass: accepts exactly the backups whose every object is what its name says, and
      sums them up. */
  method Verify(
      chain: seq<ChainObject>, source: Source, backup: Backup) returns (r: Result<BackupSummary, RestoreError>)
    ensures r.Ok? <==> chain != [] && AllRead(chain, source, backup)
    ensures r.Err? ==>
              match r.error
              case BadChain => chain == []
              case StoreFailed => exists i :: 0 <= i < |chain| && chain[i].name !in backup
              case BadObject =>
                exists i :: 0 <= i < |chain| && chain[i].name in backup
                            && !IsRead(chain[i], source, backup[chain[i].name].records)
              case _ => false
    ensures r.Ok? ==> Sums(r.value, chain, backup)
  {
    hide IsRead, Describes, Flat, HolesIn, FirstHoleOf, MissingIn;
    if chain == [] {
      return Err(BadChain);
    }
    NothingRead(backup);
    var objects: seq<ObjectSummary> := [];
    var records, holes, firstHole: Option<nat> := 0, 0, None;
    assert chain[..0] == [];
    for i := 0 to |chain|
      invariant AllStored(chain[..i], backup) && |objects| == i
      invariant forall k :: 0 <= k < i ==> Verified(objects[k], chain[k], source, backup)
      invariant records == |Flat(chain[..i], backup)|
      invariant holes == HolesIn(chain[..i], backup)
      invariant firstHole == FirstHoleOf(objects)
    {
      var o := chain[i];
      var stored := if o.name in backup then Some(backup[o.name]) else None;
      var read := ReadObject(o, source, stored);
      if read.Err? {
        return Err(read.error);
      }
      var s := Summarize(o, read.value, source);
      ReadMore(chain, i, backup);
      DescribedCounts(s, o, read.value);
      FirstHoleOfMore(objects, s);
      records, holes := records + s.records, holes + s.holes;
      firstHole := if firstHole.Some? then firstHole else s.firstHole;
      objects := objects + [s];
    }
    assert chain[..|chain|] == chain;
    return Ok(BackupSummary(objects, chain[0].from, chain[|chain| - 1].to, records, holes, firstHole));
  }

  lemma {:induction false} DescribedCounts(s: ObjectSummary, o: ChainObject, content: Object)
    requires Describes(s, o, content)
    ensures s.records == |content.records| && s.holes == |MissingIn(o.from, o.to + 1, content.records)|
  {
  }

  // ---------- what the sum says about the whole ----------

  ghost predicate Dense(records: seq<Record>, start: nat) {
    forall k :: 0 <= k < |records| ==> records[k].offset == start + k
  }

  lemma {:induction false} NoneMissingIsDense(o: ChainObject, source: Source, records: seq<Record>)
    requires IsRead(o, source, records)
    ensures MissingIn(o.from, o.to + 1, records) == {} <==> Dense(records, o.from)
    ensures Dense(records, o.from) ==> |records| == o.to - o.from + 1
  {
    var n := |records|;
    if MissingIn(o.from, o.to + 1, records) == {} {
      MissingSize(o, source, records);
      AtLeast(records, o.from, n - 1);
      forall k | 0 <= k < n
        ensures records[k].offset == o.from + k
      {
        AtLeast(records, o.from, k);
        AtMost(records, o.to, k);
      }
    }
    if Dense(records, o.from) {
      assert records[n - 1].offset == o.from + n - 1;
      forall p: nat | o.from <= p <= o.to
        ensures HasOffset(records, p)
      {
        assert records[p - o.from].offset == p;
      }
    }
  }

  lemma {:induction false} AtLeast(records: seq<Record>, from: nat, k: nat)
    requires Increasing(records) && k < |records| && from <= records[0].offset
    ensures from + k <= records[k].offset
  {
    if k > 0 {
      AtLeast(records, from, k - 1);
    }
  }

  lemma {:induction false} AtMost(records: seq<Record>, to: nat, k: nat)
    requires Increasing(records) && k < |records| && records[|records| - 1].offset == to
    ensures records[k].offset + (|records| - 1 - k) <= to
    decreases |records| - k
  {
    if k < |records| - 1 {
      AtMost(records, to, k + 1);
    }
  }

  /** The objects' records follow each other: in order, inside the chain's range, and without a
      hole exactly when no object has one. */
  lemma {:induction false} FlatOffsets(chain: seq<ChainObject>, start: nat, source: Source, backup: Backup)
    requires AllRead(chain, source, backup) && Contiguous(chain, start)
    ensures var flat := Flat(chain, backup);
            && Increasing(flat)
            && (forall k :: 0 <= k < |flat| ==> start <= flat[k].offset < End(chain, start))
            && (chain != [] ==> flat != [] && flat[|flat| - 1].offset == End(chain, start) - 1)
            && ((forall i :: 0 <= i < |chain| ==> Dense(backup[chain[i].name].records, chain[i].from))
              <==> Dense(flat, start))
            && (Dense(flat, start) ==> start + |flat| == End(chain, start))
    decreases |chain|
  {
    hide IsRead, Dense, Contiguous, Increasing;
    if chain == [] {
      NothingIsDense(start);
    } else {
      var n := |chain| - 1;
      var init, last := chain[..n], chain[n];
      LastOfContiguous(chain, start);
      FlatOffsets(init, start, source, backup);
      var head, tail := Flat(init, backup), backup[last.name].records;
      assert forall i :: 0 <= i < n ==> init[i] == chain[i];
      assert Flat(chain, backup) == head + tail;
      JoinOffsets(head, tail, start, last, source);
      assert (forall i :: 0 <= i < n ==> Dense(backup[chain[i].name].records, chain[i].from))
             <==> (forall i :: 0 <= i < n ==> Dense(backup[init[i].name].records, init[i].from));
    }
  }

  lemma {:induction false} NothingIsDense(start: nat)
    ensures Dense([], start) && Increasing([])
  {
  }

  lemma {:induction false} JoinOffsets(head: seq<Record>, tail: seq<Record>, start: nat, o: ChainObject, source: Source)
    requires Increasing(head) && forall k :: 0 <= k < |head| ==> start <= head[k].offset < o.from
    requires start <= o.from && IsRead(o, source, tail)
    requires if head == [] then o.from == start else head[|head| - 1].offset == o.from - 1
    requires Dense(head, start) ==> start + |head| == o.from
    ensures Increasing(head + tail)
    ensures forall k :: 0 <= k < |head + tail| ==> start <= (head + tail)[k].offset <= o.to
    ensures (head + tail)[|head + tail| - 1].offset == o.to
    ensures Dense(head, start) && Dense(tail, o.from) <==> Dense(head + tail, start)
    ensures Dense(head + tail, start) ==> start + |head + tail| == o.to + 1
  {
    hide Dense;
    var all, n := head + tail, |head|;
    assert forall k :: n <= k < |all| ==> all[k] == tail[k - n];
    assert forall k :: 0 <= k < |tail| ==>
             o.from <= tail[0].offset <= tail[k].offset <= tail[|tail| - 1].offset == o.to;
    assert all[|all| - 1] == tail[|tail| - 1];
    JoinDense(head, tail, start, o.from);
    if Dense(all, start) {
      NoneMissingIsDense(o, source, tail);
    }
  }

  lemma {:induction false} JoinDense(head: seq<Record>, tail: seq<Record>, start: nat, from: nat)
    requires tail != [] && from <= tail[0].offset && start <= from
    requires if head == [] then from == start else head[|head| - 1].offset == from - 1
    requires Dense(head, start) ==> start + |head| == from
    ensures Dense(head, start) && Dense(tail, from) <==> Dense(head + tail, start)
  {
    var all, n := head + tail, |head|;
    assert forall k :: 0 <= k < |tail| ==> all[n + k] == tail[k];
    if Dense(all, start) {
      assert forall k :: 0 <= k < n ==> head[k] == all[k];
      assert Dense(head, start);
    }
    if Dense(head, start) && Dense(tail, from) {
      assert forall k :: n <= k < |all| ==> all[k] == tail[k - n];
    }
  }

  lemma {:induction false} MissingOfJoin(head: seq<Record>, tail: seq<Record>, start: nat, from: nat, end: nat)
    requires start <= from <= end
    requires forall k :: 0 <= k < |head| ==> head[k].offset < from
    requires forall k :: 0 <= k < |tail| ==> from <= tail[k].offset
    ensures MissingIn(start, end, head + tail) == MissingIn(start, from, head) + MissingIn(from, end, tail)
    ensures |MissingIn(start, end, head + tail)| == |MissingIn(start, from, head)| + |MissingIn(from, end, tail)|
    ensures forall p, q :: p in MissingIn(start, from, head) && q in MissingIn(from, end, tail) ==> p < q
  {
    forall p: nat
      ensures HasOffset(head + tail, p) <==> HasOffset(head, p) || HasOffset(tail, p)
    {
      if i :| 0 <= i < |head| && head[i].offset == p {
        assert (head + tail)[i].offset == p;
      }
      if i :| 0 <= i < |tail| && tail[i].offset == p {
        assert (head + tail)[|head| + i].offset == p;
      }
      if i :| 0 <= i < |head + tail| && (head + tail)[i].offset == p {
        assert if i < |head| then head[i].offset == p else tail[i - |head|].offset == p;
      }
    }
    assert MissingIn(start, from, head) !! MissingIn(from, end, tail);
  }

  lemma {:induction false} LeastOfJoin(
      head: seq<Record>, tail: seq<Record>, start: nat, from: nat, end: nat, first: Option<nat>, next: Option<nat>)
    requires start <= from <= end
    requires forall k :: 0 <= k < |head| ==> head[k].offset < from
    requires forall k :: 0 <= k < |tail| ==> from <= tail[k].offset
    requires IsLeast(first, MissingIn(start, from, head)) && IsLeast(next, MissingIn(from, end, tail))
    ensures IsLeast(if first.Some? then first else next, MissingIn(start, end, head + tail))
    ensures |MissingIn(start, end, head + tail)| == |MissingIn(start, from, head)| + |MissingIn(from, end, tail)|
  {
    hide MissingIn;
    MissingOfJoin(head, tail, start, from, end);
  }

  /** The summary of a whole backup: its holes are the positions of the chain without a record,
      and its first hole is the least of them. */
  lemma {:induction false} SumCountsHoles(
      chain: seq<ChainObject>, start: nat, source: Source, backup: Backup, objects: seq<ObjectSummary>)
    requires AllRead(chain, source, backup) && Contiguous(chain, start) && |objects| == |chain|
    requires forall i :: 0 <= i < |chain| ==> Describes(objects[i], chain[i], backup[chain[i].name])
    ensures var missing := MissingIn(start, End(chain, start), Flat(chain, backup));
            HolesIn(chain, backup) == |missing| && IsLeast(FirstHoleOf(objects), missing)
    decreases |chain|
  {
    hide IsRead, Contiguous, MissingIn, Flat, Describes, IsLeast, Increasing, Dense;
    if chain == [] {
      NothingRead(backup);
      NothingMissing(start);
    } else {
      var n := |chain| - 1;
      var init, last := chain[..n], chain[n];
      LastOfContiguous(chain, start);
      assert forall i :: 0 <= i < n ==> init[i] == chain[i];
      SumCountsHoles(init, start, source, backup, objects[..n]);
      assert chain[..n + 1] == chain;
      ReadMore(chain, n, backup);
      assert objects == objects[..n] + [objects[n]];
      FirstHoleOfMore(objects[..n], objects[n]);
      FlatOffsets(init, start, source, backup);
      ReadBounds(last, source, backup[last.name].records);
      ContiguousIsStrictlyOrdered(init, start);
      DescribedLeast(objects[n], last, backup[last.name]);
      LeastOfJoin(Flat(init, backup), backup[last.name].records, start, last.from, last.to + 1,
                  FirstHoleOf(objects[..n]), objects[n].firstHole);
    }
  }

  lemma {:induction false} DescribedLeast(s: ObjectSummary, o: ChainObject, content: Object)
    requires Describes(s, o, content)
    ensures IsLeast(s.firstHole, MissingIn(o.from, o.to + 1, content.records))
  {
  }

  lemma {:induction false} NothingMissing(start: nat)
    ensures MissingIn(start, start, []) == {} && IsLeast(None, {})
  {
  }

  lemma {:induction false} ReadBounds(o: ChainObject, source: Source, records: seq<Record>)
    requires IsRead(o, source, records)
    ensures forall k :: 0 <= k < |records| ==> o.from <= records[k].offset <= o.to
  {
    assert forall k :: 0 <= k < |records| ==> records[0].offset <= records[k].offset <= records[|records| - 1].offset;
  }

  // ---------- offset modes ----------

  datatype OffsetMode = Preserve | Renumber

  /** Whether a verified backup can be restored with these offsets. */
  function Check(mode: OffsetMode, s: BackupSummary): Option<RestoreError> {
    match mode
    case Renumber => None
    case Preserve => if s.firstOffset != 0 || s.firstHole.Some? then Some(BadMode) else None
  }

  lemma {:induction false} NoFirstHole(objects: seq<ObjectSummary>)
    ensures FirstHoleOf(objects).None? <==> forall i :: 0 <= i < |objects| ==> objects[i].firstHole.None?
  {
    if objects != [] {
      NoFirstHole(objects[1..]);
      assert forall i :: 1 <= i < |objects| ==> objects[i] == objects[1..][i - 1];
    }
  }

  lemma {:induction false} NoHoleIsDense(s: ObjectSummary, o: ChainObject, source: Source, content: Object)
    requires IsRead(o, source, content.records) && Describes(s, o, content)
    ensures s.firstHole.None? <==> Dense(content.records, o.from)
  {
    hide Dense;
    NoneMissingIsDense(o, source, content.records);
  }

  /** Preserve accepts a verified chain exactly when its records are at 0, 1, 2, … already. */
  lemma {:induction false} PreserveAcceptsExactlyDense(
      s: BackupSummary, chain: seq<ChainObject>, source: Source, backup: Backup)
    requires chain != [] && AllRead(chain, source, backup) && Sums(s, chain, backup)
    requires Contiguous(chain, chain[0].from)
    ensures Check(Preserve, s) == None <==> Dense(Flat(chain, backup), 0)
  {
    hide IsRead, Describes, Contiguous, Flat, Dense, FirstHoleOf, HolesIn;
    var start := chain[0].from;
    NoFirstHole(s.objects);
    forall i | 0 <= i < |chain|
      ensures s.objects[i].firstHole.None? <==> Dense(backup[chain[i].name].records, chain[i].from)
    {
      NoHoleIsDense(s.objects[i], chain[i], source, backup[chain[i].name]);
    }
    FlatOffsets(chain, start, source, backup);
    FirstRecord(chain, start, source, backup);
  }

  lemma {:induction false} FirstRecord(chain: seq<ChainObject>, start: nat, source: Source, backup: Backup)
    requires chain != [] && AllRead(chain, source, backup) && Contiguous(chain, start)
    ensures Dense(Flat(chain, backup), 0) ==> start == 0
  {
    FlatOffsets(chain, start, source, backup);
    assert Dense(Flat(chain, backup), 0) ==> Flat(chain, backup)[0].offset == 0;
  }
}
