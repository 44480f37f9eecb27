/** Writing a verified backup to an empty partition, with a window of records in
    flight, while anything else may append to the partition at any time.

    The broker is an append-only log. Other writers, and records in flight that
    land late, twice or never, are what `Interfere` may append. A delivery
    report is true: it names a place that holds the record. */
module Producing {
  import opened Records
  import opened Naming
  import opened Chain
  import opened BlobSinks
  import opened Readers

  /** A record sent, and, on a quiet broker, where it is. */
  datatype Delivery = Delivery(record: Record, at: nat)

  datatype Tried = Sent | Full | Failed

  datatype Queued = Queued(delivery: Delivery) | QueueFull | Refused

  /** How many records may be in flight. */
  type Window = n: nat | n > 0 witness 1

  class Broker {
    /** Nothing else writes, and nothing sent is lost. */
    const quiet: bool
    var log: seq<Record>

    constructor (quiet: bool)
      ensures this.quiet == quiet && log == []
    {
      this.quiet, log := quiet, [];
    }

    method Interfere()
      modifies this
      ensures old(log) <= log && (quiet ==> log == old(log))
    {
      var more: seq<Record> := *;
      if !quiet {
        log := log + more;
      }
    }

    method HighWatermark() returns (high: Option<nat>)
      modifies this
      ensures old(log) <= log && (high.Some? ==> high.value == |log|)
      ensures quiet ==> log == old(log) && high.Some?
    {
      Interfere();
      var answered := *;
      high := if quiet || answered then Some(|log|) else None;
    }

    method Enqueue(record: Record) returns (q: Queued)
      modifies this
      ensures old(log) <= log && (q.Queued? ==> q.delivery.record == record)
      ensures quiet ==> log == old(log) + [record] && q == Queued(Delivery(record, |old(log)|))
    {
      var answer: Queued := *;
      if quiet {
        q := Queued(Delivery(record, |log|));
        log := log + [record];
      } else {
        Interfere();
        q := if answer.Queued? then Queued(Delivery(record, 0)) else answer;
      }
    }

    /** The delivery report of a record in flight; `None` if it was not delivered. */
    method Report(d: Delivery) returns (at: Option<nat>)
      modifies this
      ensures old(log) <= log
      ensures at.Some? ==> at.value < |log| && log[at.value] == d.record
      ensures quiet ==> log == old(log)
      ensures quiet && d.at < |log| && log[d.at] == d.record ==> at == Some(d.at)
    {
      Interfere();
      if quiet {
        return if d.at < |log| && log[d.at] == d.record then Some(d.at) else None;
      }
      var failed := *;
      if failed {
        return None;
      }
      if o: nat :| o < |log| && log[o] == d.record {
        return Some(o);
      }
      return None;
    }
  }

  /** The restore's producer: at most `window` records in flight, acknowledged oldest first, each
      required to be where it was sent for. */
  class RestoreProducer {
    const broker: Broker
    const window: Window
    /** Column types, and the topic's batch limit. */
    const admits: Record -> bool
    var inFlight: seq<(nat, Delivery)>
    ghost var sent: seq<Record>

    constructor (broker: Broker, window: Window, admits: Record -> bool)
      ensures this.broker == broker && this.window == window && this.admits == admits
      ensures inFlight == [] && sent == []
    {
      this.broker, this.window, this.admits := broker, window, admits;
      inFlight, sent := [], [];
    }

    /** The records in flight are the last ones sent, in order, and no more than the window; those
        before them are where they were sent for. */
    ghost predicate Valid()
      reads this, broker
    {
      var acked := |sent| - |inFlight|;
      && |inFlight| <= window
      && 0 <= acked <= |broker.log|
      && sent[..acked] == broker.log[..acked]
      && forall j :: 0 <= j < |inFlight| ==> inFlight[j].0 == acked + j && inFlight[j].1.record == sent[acked + j]
    }

    /** On a quiet broker everything sent is already in its place, and nothing else is there. */
    ghost predicate Settled()
      reads this, broker
    {
      && broker.quiet && Valid()
      && broker.log == sent
      && forall j :: 0 <= j < |inFlight| ==> inFlight[j].1.at == inFlight[j].0
    }

    method AckOldest() returns (ok: bool)
      modifies this, broker
      ensures inFlight == if old(inFlight) == [] then [] else old(inFlight)[1..]
      ensures sent == old(sent) && old(broker.log) <= broker.log
      ensures ok && old(Valid()) ==> Valid()
      ensures old(Settled()) ==> ok && Settled()
    {
      if inFlight == [] {
        return true;
      }
      var (offset, delivery) := inFlight[0];
      inFlight := inFlight[1..];
      var delivered := broker.Report(delivery);
      if old(Valid()) && delivered == Some(offset) {
        assert sent[..offset + 1] == sent[..offset] + [sent[offset]];
        assert broker.log[..offset + 1] == broker.log[..offset] + [broker.log[offset]];
        assert old(broker.log)[..offset] == broker.log[..offset];
      }
      return delivered == Some(offset);
    }

    /** Send `record` to be stored at `offset`. */
    method Send(record: Record, offset: nat) returns (ok: bool)
      requires offset == |sent|
      modifies this, broker
      ensures old(broker.log) <= broker.log
      ensures ok ==> sent == old(sent) + [record] && (old(Valid()) ==> Valid())
      ensures |old(inFlight)| <= window ==> |inFlight| <= window
      ensures !ok ==> sent == old(sent)
      ensures old(Settled()) && admits(record) ==> ok
      ensures ok && old(Settled()) ==> Settled()
    {
      if !admits(record) {
        return false;
      }
      if |inFlight| >= window {
        ok := AckOldest();
        if !ok {
          return false;
        }
      }
      while true
        invariant sent == old(sent) && old(broker.log) <= broker.log
        invariant |old(inFlight)| <= window ==> |inFlight| < window
        invariant (old(Valid()) ==> Valid()) && (old(Settled()) ==> Settled())
        decreases |inFlight|
      {
        var tried := TryEnqueue(record, offset);
        if tried != Full {
          return tried == Sent;
        }
        ok := AckOldest();
        if !ok {
          return false;
        }
      }
    }

    /** One offer to the client's queue; `Full` only while there is a record in flight to wait for. */
    method TryEnqueue(record: Record, offset: nat) returns (tried: Tried)
      requires offset == |sent|
      modifies this, broker
      ensures old(broker.log) <= broker.log
      ensures sent == if tried == Sent then old(sent) + [record] else old(sent)
      ensures |inFlight| <= |old(inFlight)| + 1
      ensures tried == Full ==> inFlight == old(inFlight) != []
      ensures tried != Sent ==> inFlight == old(inFlight)
      ensures old(Valid()) && |old(inFlight)| < window ==> Valid()
      ensures old(Settled()) && |old(inFlight)| < window ==> tried == Sent && Settled()
    {
      ghost var acked := |sent| - |inFlight|;
      var q := broker.Enqueue(record);
      assert old(Valid()) ==> old(broker.log)[..acked] == broker.log[..acked];
      if q.Queued? {
        inFlight, sent := inFlight + [(offset, q.delivery)], sent + [record];
        assert old(Valid()) ==> sent[..acked] == old(sent)[..acked];
        return Sent;
      }
      return if q.QueueFull? && inFlight != [] then Full else Failed;
    }

    /** Wait until every record sent is stored where it was sent for. */
    method Finish() returns (ok: bool)
      modifies this, broker
      ensures sent == old(sent) && old(broker.log) <= broker.log
      ensures ok && old(Valid()) ==> Valid() && inFlight == []
      ensures old(Settled()) ==> ok && Settled()
    {
      while inFlight != []
        invariant sent == old(sent) && old(broker.log) <= broker.log
        invariant (old(Valid()) ==> Valid()) && (old(Settled()) ==> Settled())
        decreases |inFlight|
      {
        ok := AckOldest();
        if !ok {
          return false;
        }
      }
      return true;
    }
  }

  // ---------- the produce pass ----------

  /** Records at 0, 1, 2, …. */
  function Renumbered(records: seq<Record>): (placed: seq<Record>)
    ensures |placed| == |records|
  {
    seq(|records|, k requires 0 <= k < |records| => records[k].(offset := k))
  }

  lemma {:induction false} RenumberedMore(records: seq<Record>, r: Record)
    ensures Renumbered(records + [r]) == Renumbered(records) + [r.(offset := |records|)]
  {
  }

  lemma {:induction false} DenseIsRenumbered(records: seq<Record>)
    ensures Dense(records, 0) <==> Renumbered(records) == records
  {
    assert forall k :: 0 <= k < |records| ==> Renumbered(records)[k] == records[k].(offset := k);
  }

  /** Every object is the one the verify pass read, by its digest. */
  ghost predicate Unchanged(chain: seq<ChainObject>, summary: BackupSummary, reread: Backup) {
    forall i :: 0 <= i < |chain| && i < |summary.objects| ==>
      chain[i].name in reread && reread[chain[i].name].digest == summary.objects[i].digest
  }

  datatype Report = Report(records: nat, highWatermark: nat)

  /** Each record of one object, in turn. */
  method SendObject(
      records: seq<Record>, mode: OffsetMode, target: RestoreProducer, ghost done: seq<Record>, start: nat)
    returns (error: Option<RestoreError>, next: nat)
    requires target.sent == Renumbered(done) && start == |done| && target.Valid()
    modifies target, target.broker
    ensures next == |target.sent|
    ensures error.None? ==>
              && target.Valid() && target.sent == Renumbered(done + records)
              && (mode.Preserve? ==> forall k :: 0 <= k < |records| ==> records[k].offset == start + k)
    ensures error.Some? ==> !error.value.ProduceFailed?
    ensures error.Some? && error.value.MissingOffset? ==>
              mode.Preserve? && exists k :: 0 <= k < |records| && records[k].offset != start + k
    ensures old(target.Settled()) && error.None? ==> target.Settled()
    ensures old(target.Settled()) && (forall r :: r in records ==> forall o :: target.admits(r.(offset := o)))
            ==> error.None? || error.value.MissingOffset?
    ensures old(target.broker.log) <= target.broker.log
  {
    next, error := start, None;
    assert records[..0] == [] && done + [] == done;
    for k := 0 to |records|
      invariant next == start + k == |target.sent|
      invariant target.Valid() && target.sent == Renumbered(done + records[..k])
      invariant mode.Preserve? ==> forall j :: 0 <= j < k ==> records[j].offset == start + j
      invariant old(target.Settled()) ==> target.Settled()
      invariant old(target.broker.log) <= target.broker.log
    {
      var record := records[k];
      if mode.Preserve? {
        if record.offset != next {
          return Some(MissingOffset(next)), next;
        }
      } else {
        record := record.(offset := next);
      }
      assert record == records[k].(offset := next);
      RenumberedMore(done + records[..k], records[k]);
      assert done + records[..k + 1] == done + records[..k] + [records[k]];
      assert records[k] in records;
      var ok := target.Send(record, next);
      if !ok {
        return Some(TargetFailed), next;
      }
      next := next + 1;
    }
    assert records[..|records|] == records;
  }

  lemma {:induction false} FlatPrefix(chain: seq<ChainObject>, i: nat, backup: Backup)
    requires i <= |chain| && AllStored(chain, backup)
    ensures AllStored(chain[..i], backup) && Flat(chain[..i], backup) <= Flat(chain, backup)
    decreases |chain| - i
  {
    hide Flat;
    if i == |chain| {
      assert chain[..i] == chain;
    } else {
      FlatPrefix(chain, i + 1, backup);
      assert forall k :: 0 <= k < i ==> chain[..i][k] == chain[k];
      ReadMore(chain, i, backup);
    }
  }

  /** A record out of place in one object is out of place in the whole. */
  lemma {:induction false} NotDense(chain: seq<ChainObject>, i: nat, backup: Backup, k: nat)
    requires i < |chain| && AllStored(chain, backup) && AllStored(chain[..i], backup)
    requires k < |backup[chain[i].name].records|
    requires backup[chain[i].name].records[k].offset != |Flat(chain[..i], backup)| + k
    ensures !Dense(Flat(chain, backup), 0)
  {
    hide Flat;
    FlatPrefix(chain, i + 1, backup);
    ReadMore(chain, i, backup);
    var at := |Flat(chain[..i], backup)| + k;
    assert Flat(chain[..i + 1], backup)[at] == backup[chain[i].name].records[k];
    assert Flat(chain, backup)[at].offset != at;
  }

  ghost predicate AllAdmitted(chain: seq<ChainObject>, backup: Backup, target: RestoreProducer) {
    forall i, r, o :: 0 <= i < |chain| && chain[i].name in backup && r in backup[chain[i].name].records
                      ==> target.admits(r.(offset := o))
  }

  lemma {:induction false} ObjectAdmitted(chain: seq<ChainObject>, backup: Backup, target: RestoreProducer, i: nat)
    requires AllAdmitted(chain, backup, target) && i < |chain| && chain[i].name in backup
    ensures forall r :: r in backup[chain[i].name].records ==> forall o :: target.admits(r.(offset := o))
  {
  }

  /** One object read again: it must be the one the verify pass read. */
  method Reread(
      o: ChainObject, source: Source, verified: ObjectSummary, reread: Backup)
    returns (r: Result<Object, RestoreError>)
    ensures r.Ok? <==>
              && o.name in reread && IsRead(o, source, reread[o.name].records)
              && reread[o.name].digest == verified.digest
    ensures r.Ok? ==> r.value == reread[o.name]
    ensures r.Err? ==> r.error == if o.name in reread then BadObject else StoreFailed
  {
    hide IsRead;
    r := ReadObject(o, source, if o.name in reread then Some(reread[o.name]) else None);
    if r.Ok? && r.value.digest != verified.digest {
      return Err(BadObject);
    }
  }

  /** An object is still what the verify pass read. */
  ghost predicate StillThere(o: ChainObject, source: Source, verified: ObjectSummary, reread: Backup) {
    o.name in reread && IsRead(o, source, reread[o.name].records) && reread[o.name].digest == verified.digest
  }

  /** The records of the first `i` objects have been sent. */
  ghost predicate SentUpTo(chain: seq<ChainObject>, i: nat, mode: OffsetMode, target: RestoreProducer, reread: Backup)
    requires i <= |chain|
    reads target, target.broker
  {
    && target.Valid() && AllStored(chain[..i], reread)
    && target.sent == Renumbered(Flat(chain[..i], reread))
    && (mode.Preserve? ==> Dense(Flat(chain[..i], reread), 0))
  }

  method SendNext(chain: seq<ChainObject>, i: nat, source: Source, verified: ObjectSummary, mode: OffsetMode,
                  target: RestoreProducer, reread: Backup, start: nat)
    returns (error: Option<RestoreError>, next: nat)
    requires i < |chain| && SentUpTo(chain, i, mode, target, reread) && start == |target.sent|
    modifies target, target.broker
    ensures next == |target.sent| && old(target.broker.log) <= target.broker.log
    ensures error.None?
            ==> SentUpTo(chain, i + 1, mode, target, reread) && StillThere(chain[i], source, verified, reread)
    ensures error.Some? ==> !error.value.ProduceFailed?
    ensures error.Some? && error.value.MissingOffset? ==>
              mode.Preserve? && (AllStored(chain, reread) ==> !Dense(Flat(chain, reread), 0))
    ensures old(target.Settled()) && error.None? ==> target.Settled()
    ensures old(target.Settled()) && StillThere(chain[i], source, verified, reread)
            && AllAdmitted(chain, reread, target)
            ==> error.None? || error.value.MissingOffset?
  {
    hide IsRead, Flat, Concatenated, Dense, Renumbered, AllAdmitted, RestoreProducer.Valid;
    var o := chain[i];
    var read := Reread(o, source, verified, reread);
    if read.Err? {
      return Some(read.error), start;
    }
    ghost var done := Flat(chain[..i], reread);
    ReadMore(chain, i, reread);
    error, next := SendObject(read.value.records, mode, target, done, start);
    if error.None? {
      if mode.Preserve? {
        DenseMore(done, read.value.records);
      }
    } else if error.value.MissingOffset? && AllStored(chain, reread) {
      ghost var k :| 0 <= k < |read.value.records| && read.value.records[k].offset != |done| + k;
      NotDense(chain, i, reread, k);
    }
    if AllAdmitted(chain, reread, target) {
      ObjectAdmitted(chain, reread, target, i);
    }
  }

  /** Every record of the chain, in order, from objects read again. */
  method SendAll(
      chain: seq<ChainObject>, source: Source, summary: BackupSummary, mode: OffsetMode, target: RestoreProducer,
      reread: Backup)
    returns (error: Option<RestoreError>, next: nat)
    requires target.sent == [] && target.inFlight == [] && |summary.objects| == |chain|
    modifies target, target.broker
    ensures next == |target.sent| && old(target.broker.log) <= target.broker.log
    ensures error.None? ==>
              && SentUpTo(chain, |chain|, mode, target, reread)
              && AllRead(chain, source, reread) && Unchanged(chain, summary, reread)
    ensures error.Some? ==> !error.value.ProduceFailed?
    ensures error.Some? && error.value.MissingOffset? ==>
              mode.Preserve? && (AllStored(chain, reread) ==> !Dense(Flat(chain, reread), 0))
    ensures old(target.Settled()) && error.None? ==> target.Settled()
    ensures old(target.Settled()) && AllRead(chain, source, reread) && Unchanged(chain, summary, reread)
            && AllAdmitted(chain, reread, target)
            ==> error.None? || error.value.MissingOffset?
  {
    hide IsRead, Flat, Dense, Renumbered, AllAdmitted, RestoreProducer.Settled;
    next, error := 0, None;
    NothingSent(reread);
    assert chain[..0] == [];
    for i := 0 to |chain|
      invariant error == None && next == |target.sent| && old(target.broker.log) <= target.broker.log
      invariant SentUpTo(chain, i, mode, target, reread)
      invariant forall k :: 0 <= k < i ==> StillThere(chain[k], source, summary.objects[k], reread)
      invariant old(target.Settled()) ==> target.Settled()
    {
      error, next := SendNext(chain, i, source, summary.objects[i], mode, target, reread, next);
      if error.Some? {
        return;
      }
    }
  }

  lemma {:induction false} NothingSent(backup: Backup)
    ensures Flat([], backup) == [] && Dense([], 0) && Renumbered([]) == []
  {
  }

  lemma {:induction false} DenseMore(done: seq<Record>, records: seq<Record>)
    requires Dense(done, 0) && forall k :: 0 <= k < |records| ==> records[k].offset == |done| + k
    ensures Dense(done + records, 0)
  {
  }

  /** The error behind a failed produce pass. */
  function Root(e: RestoreError): RestoreError {
    if e.ProduceFailed? then e.cause else e
  }

  /** Success means that the partition is exactly the backup, record k at offset k, and nothing
      else, whatever else tried to write to it. */
  method Produce(
      chain: seq<ChainObject>, source: Source, summary: BackupSummary, mode: OffsetMode, target: RestoreProducer,
      reread: Backup)
    returns (r: Result<Report, RestoreError>)
    requires target.sent == [] && target.inFlight == []
    modifies target, target.broker
    ensures old(target.broker.log) <= target.broker.log
    ensures r.Ok? ==>
              && |chain| == |summary.objects| && AllRead(chain, source, reread) && Unchanged(chain, summary, reread)
              && target.broker.log == Renumbered(Flat(chain, reread))
              && (mode.Preserve? ==> target.broker.log == Flat(chain, reread))
              && r.value == Report(summary.records, summary.records) && summary.records == |target.broker.log|
    ensures Check(mode, summary).Some?
            ==> r == Err(Check(mode, summary).value) && target.broker.log == old(target.broker.log)
    ensures old(target.broker.log) != [] ==> target.sent == [] && r.Err?
    ensures r.Err? && !r.error.ProduceFailed? ==> target.sent == []
    ensures target.broker.quiet && old(target.broker.log) != [] ==> target.broker.log == old(target.broker.log)
    ensures target.broker.quiet && old(target.broker.log) != [] && Check(mode, summary).None?
            && |chain| == |summary.objects|
            ==> r == Err(TargetNotEmpty(|old(target.broker.log)|))
    ensures r.Err? && Root(r.error).MissingOffset? ==>
              mode.Preserve? && !(AllRead(chain, source, reread) && Dense(Flat(chain, reread), 0))
    ensures Check(mode, summary).None? && target.broker.quiet && old(target.broker.log) == []
            && |chain| == |summary.objects|
            && AllRead(chain, source, reread) && Unchanged(chain, summary, reread) && AllAdmitted(chain, reread, target)
            && summary.records == |Flat(chain, reread)|
            ==> if mode.Preserve? ==> Dense(Flat(chain, reread), 0) then r.Ok?
                else r.Err? && Root(r.error).MissingOffset?
  {
    hide IsRead, Flat, Concatenated, Dense, Renumbered, Unchanged, AllAdmitted;
    var refused := Check(mode, summary);
    if refused.Some? {
      return Err(refused.value);
    }
    if |chain| != |summary.objects| {
      return Err(BadChain);
    }
    var start := target.broker.HighWatermark();
    if start.None? {
      return Err(TargetFailed);
    }
    if start.value != 0 {
      return Err(TargetNotEmpty(start.value));
    }
    assert target.broker.quiet ==> target.Settled();
    var error, next := SendAll(chain, source, summary, mode, target, reread);
    if error.Some? {
      if next == 0 {
        return Err(error.value);
      }
      var _ := target.Finish();
      return Err(ProduceFailed(Root(error.value)));
    }
    assert chain[..|chain|] == chain;
    var finished := target.Finish();
    if !finished {
      return Err(ProduceFailed(Unsettled));
    }
    var high := target.broker.HighWatermark();
    if high.None? || high.value != next || next != summary.records {
      return Err(ProduceFailed(Unsettled));
    }
    assert target.broker.log == target.sent;
    if mode.Preserve? {
      DenseIsRenumbered(Flat(chain, reread));
    }
    return Ok(Report(next, high.value));
  }

  /** Plan, verify, produce. */
  method Restore(names: seq<string>, ext: string, start: nat, keyring: Option<set<string>>,
                 source: Source, backup: Backup, reread: Backup, mode: OffsetMode, target: RestoreProducer)
    returns (r: Result<Report, RestoreError>)
    requires target.sent == [] && target.inFlight == []
    modifies target, target.broker
    ensures r.Ok? ==>
              && Plan(names, ext, start, keyring).Ok?
              && var chain := Plan(names, ext, start, keyring).value;
              && AllRead(chain, source, reread)
              && target.broker.log == Renumbered(Flat(chain, reread))
              && (mode.Preserve? ==> target.broker.log == Flat(chain, reread))
              && r.value == Report(|Flat(chain, reread)|, |Flat(chain, reread)|)
    ensures old(target.broker.log) <= target.broker.log
    ensures old(target.broker.log) != [] ==> target.sent == [] && r.Err?
    ensures r.Err? && !r.error.ProduceFailed? ==> target.sent == []
    ensures target.broker.quiet && old(target.broker.log) != [] ==>
              && target.broker.log == old(target.broker.log)
              && (Plan(names, ext, start, keyring).Ok? ==>
                    var chain := Plan(names, ext, start, keyring).value;
                    AllRead(chain, source, backup) && (mode.Preserve? ==> Dense(Flat(chain, backup), 0)) ==>
                      r == Err(TargetNotEmpty(|old(target.broker.log)|)))
    ensures target.broker.quiet && old(target.broker.log) == [] && reread == backup
            && Plan(names, ext, start, keyring).Ok?
            && AllAdmitted(Plan(names, ext, start, keyring).value, backup, target)
            ==> var chain := Plan(names, ext, start, keyring).value;
                r.Ok? <==> AllRead(chain, source, backup) && (mode.Preserve? ==> Dense(Flat(chain, backup), 0))
    ensures reread == backup ==> !(r.Err? && Root(r.error).MissingOffset?)
  {
    hide Plan, IsRead, Flat, Dense, Renumbered, AllAdmitted, Describes;
    var planned := PlanChain(names, ext, start, keyring);
    if planned.Err? {
      return Err(BadChain);
    }
    var chain := planned.value;
    PlannedIsContiguous(names, chain, ext, start, keyring);
    var verified := Verify(chain, source, backup);
    if verified.Err? {
      return Err(verified.error);
    }
    assert chain[0].from == start;
    PreserveAcceptsExactlyDense(verified.value, chain, source, backup);
    if reread == backup {
      VerifiedIsUnchanged(chain, verified.value, backup);
    }
    r := Produce(chain, source, verified.value, mode, target, reread);
  }

  lemma {:induction false} VerifiedIsUnchanged(chain: seq<ChainObject>, summary: BackupSummary, backup: Backup)
    requires chain != [] && AllStored(chain, backup) && Sums(summary, chain, backup)
    ensures Unchanged(chain, summary, backup)
  {
    hide Flat, HolesIn, FirstHoleOf, MissingIn;
  }

  // ---------- backup and restore ----------

  /** What an append destination holds can be planned, verified, and is the source's records. */
  lemma {:induction false} MirroredIsRestorable(
      log: seq<Record>, spec: Spec, dir: Directory, chain: seq<ChainObject>, names: seq<string>,
      source: Source, backup: Backup, keyring: Option<set<string>>)
    requires Ascending(log) && Holds(log, spec, dir, chain) && !spec.snapshots && chain != []
    requires multiset(names) == multiset(dir.Keys) && RecordsOf(backup) == dir && OfSource(log, source)
    requires forall o :: o in chain ==> KeyHeld(o, keyring)
    ensures Plan(names, spec.ext, 0, keyring) == Ok(chain)
    ensures AllRead(chain, source, backup)
    ensures Flat(chain, backup) == log[..First(log, End(chain, 0))]
  {
    hide Plan, AllWritten, Names, Concatenated, Contiguous, HoldsRange, IsRead, Range;
    ChainPlans(names, chain, spec.ext, 0, keyring);
    forall i | 0 <= i < |chain|
      ensures chain[i].name in backup && IsRead(chain[i], source, backup[chain[i].name].records)
    {
      assert HoldsRange(log, dir, chain[i]);
      HeldIsRead(log, dir, chain[i], source, backup);
    }
    ConcatenatedIsRange(log, dir, chain);
    RangeFromStart(log, End(chain, 0));
  }

  lemma {:induction false} RangeFromStart(log: seq<Record>, end: nat)
    requires Ascending(log)
    ensures Range(log, 0, end) == log[..First(log, end)]
  {
    assert First(log, 0) == 0;
  }

  lemma {:induction false} HeldIsRead(log: seq<Record>, dir: Directory, o: ChainObject, source: Source, backup: Backup)
    requires Ascending(log) && o.from <= o.to && HoldsRange(log, dir, o)
    requires RecordsOf(backup) == dir && OfSource(log, source)
    ensures o.name in backup && IsRead(o, source, backup[o.name].records)
  {
    assert o.name in RecordsOf(backup);
    RangeBounds(log, o.from, o.to + 1);
    FirstMonotone(log, o.from, o.to + 1);
  }

  /** The round trip. A backup made by the append destination, restored to an empty partition
      that nothing else writes: renumbered, it always succeeds; at its own offsets, it succeeds
      exactly when the source has no hole. */
  method RestoreMirrored(ghost log: seq<Record>, ghost dir: Directory, ghost chain: seq<ChainObject>, ghost spec: Spec,
                         names: seq<string>, ext: string, keyring: Option<set<string>>,
                         source: Source, backup: Backup, mode: OffsetMode, target: RestoreProducer)
    returns (r: Result<Report, RestoreError>)
    requires Ascending(log) && Holds(log, spec, dir, chain) && !spec.snapshots && chain != [] && ext == spec.ext
    requires multiset(names) == multiset(dir.Keys) && RecordsOf(backup) == dir && OfSource(log, source)
    requires forall o :: o in chain ==> KeyHeld(o, keyring)
    requires target.sent == [] && target.inFlight == []
    requires target.broker.quiet && target.broker.log == [] && AllAdmitted(chain, backup, target)
    modifies target, target.broker
    ensures var mirrored := log[..First(log, End(chain, 0))];
            && (r.Ok? <==> (mode.Preserve? ==> Dense(mirrored, 0)))
            && (r.Ok? ==> target.broker.log == Renumbered(mirrored))
            && (r.Ok? && mode.Preserve? ==> target.broker.log == mirrored)
  {
    hide Plan, Holds, Flat, Dense, Renumbered, AllAdmitted, AllRead, RecordsOf;
    MirroredIsRestorable(log, spec, dir, chain, names, source, backup, keyring);
    r := Restore(names, ext, 0, keyring, source, backup, backup, mode, target);
  }
}
