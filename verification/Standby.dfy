/** A standby: a growing backup followed into a Kafka partition through the run
    loop, over any number of starts. */
module Standbys {
  import opened Records
  import opened Chain
  import opened Sinks
  import opened Tees
  import opened Mirrors
  import opened Readers
  import Producing
  import opened Follow

  /** The partition is the backup's records up to where it ends: record k at offset k. */
  ghost predicate IsReplica(cfg: Config, partition: seq<Record>, chain: seq<ChainObject>, b: Backup) {
    && Listed(cfg, chain, b)
    && forall k :: 0 <= k < |partition| ==> IsAt(cfg, chain, b, k, partition[k])
  }

  function OnlyKafka(partition: seq<Record>): Tee {
    Tee([Kafka(partition)], [|partition|], None)
  }

  /** What the run loop makes of a tee with one Kafka destination. */
  lemma {:induction false} KafkaAsks(partition: seq<Record>, c: Choice)
    ensures TeeAsk(OnlyKafka(partition), [c]).tee == OnlyKafka(partition)
    ensures c.reachable ==> TeeAsk(OnlyKafka(partition), [c]).error == None
    ensures Reported(OnlyKafka(partition)) == Furthest(OnlyKafka(partition)) == |partition|
  {
    var t := OnlyKafka(partition);
    assert t.sinks[0 := Kafka(partition)] == t.sinks && t.heads[0 := |partition|] == t.heads;
    assert AskFrom(t, [c], 1) == TeeDid(t, None);
  }

  lemma {:induction false} KafkaBegins(partition: seq<Record>, high: nat, c: Choice)
    ensures var s := Begin(OnlyKafka(partition), 0, high, [c]).world;
            s == Down([Kafka(partition)]) || s == Up(OnlyKafka(partition), |partition|)
    ensures c == Willing() && |partition| <= high ==>
              Begin(OnlyKafka(partition), 0, high, [c]).world == Up(OnlyKafka(partition), |partition|)
  {
    KafkaAsks(partition, c);
  }

  lemma {:induction false} KafkaIdles(partition: seq<Record>, c: Choice)
    ensures var s := React(OnlyKafka(partition), |partition|, PolledNothing, [c]).world;
            s == Down([Kafka(partition)]) || s == Up(OnlyKafka(partition), |partition|)
    ensures c == Willing() ==> React(OnlyKafka(partition), |partition|, PolledNothing, [c]).world.Up?
  {
    KafkaAsks(partition, c);
  }

  lemma {:induction false} KafkaTakes(partition: seq<Record>, r: Record, c: Choice)
    requires r.offset == |partition|
    ensures var s := React(OnlyKafka(partition), |partition|, Polled(r), [c]).world;
            || s == Down([Kafka(partition)]) || s == Down([Kafka(partition + [r])])
            || s == Up(OnlyKafka(partition + [r]), |partition| + 1)
    ensures c == Willing() ==> React(OnlyKafka(partition), |partition|, Polled(r), [c]).world.Up?
  {
    var t := OnlyKafka(partition);
    var dids := Fan(t, r, [c]);
    assert dids == [WriteTo(t.sinks[0], r, c)];
    assert partition + [] == partition;
    assert SinksOf(dids) == [dids[0].sink];
    assert HeadsAfter(t, r, dids) == [if dids[0].error.None? then r.offset + 1 else t.heads[0]];
  }

  // ---------- the replica ----------

  lemma {:induction false} ReplicaStays(
      cfg: Config, partition: seq<Record>, chain: seq<ChainObject>, b: Backup, b': Backup)
    requires IsReplica(cfg, partition, chain, b) && GrownTo(b, b')
    ensures IsReplica(cfg, partition, chain, b')
  {
    hide IsAt, Contiguous, ParseObject;
    FlatStays(chain, b, b');
    forall k | 0 <= k < |partition|
      ensures IsAt(cfg, chain, b', k, partition[k])
    {
      IsAtInMore(cfg, chain, chain, b, b', k, partition[k]);
    }
  }

  /** The partition is the backup's first records, renumbered or in place; in place, every object
      with a position in it is what its name says. */
  ghost predicate IsFirstOf(cfg: Config, partition: seq<Record>, chain: seq<ChainObject>, b: Backup) {
    && AllStored(chain, b)
    && match cfg.mode
       case Renumber => partition <= Producing.Renumbered(Flat(chain, b))
       case Preserve =>
         && partition <= Flat(chain, b)
         && forall i :: 0 <= i < |chain| && chain[i].from < |partition| ==>
              IsRead(chain[i], cfg.source, b[chain[i].name].records)
  }

  lemma {:induction false} NothingBelowTheFirst(chain: seq<ChainObject>, start: nat, i: nat)
    requires Contiguous(chain, start) && i < |chain| && chain[i].from == 0
    ensures i == 0
  {
    ContiguousAt(chain, start, 0);
  }

  lemma {:induction false} FirstInPlace(cfg: Config, chain: seq<ChainObject>, b: Backup, i: nat, m: nat, r: Record)
    requires AllStored(chain, b) && Contiguous(chain, cfg.start) && cfg.mode.Preserve?
             && Gives(cfg, chain, b, i, m, 0, r)
    ensures |Flat(chain[..i], b)| + m == 0
  {
    hide Flat, Contiguous;
    GivesInRange(cfg, chain, b, i, m, 0, r);
    NothingBelowTheFirst(chain, cfg.start, i);
    NoneBeforeFirst(b[chain[i].name].records, m);
    NothingRead(b);
    assert chain[..0] == [];
  }

  lemma {:induction false} HolderIsRead(cfg: Config, partition: seq<Record>, chain: seq<ChainObject>, b: Backup, i: nat)
    requires IsReplica(cfg, partition, chain, b) && cfg.mode.Preserve? && i < |chain| && chain[i].from < |partition|
    ensures IsRead(chain[i], cfg.source, b[chain[i].name].records)
  {
    hide IsRead, Flat;
    var p := chain[i].from;
    assert IsAt(cfg, chain, b, p, partition[p]);
    var j: nat, n: nat :| Gives(cfg, chain, b, j, n, p, partition[p]);
    GivesInRange(cfg, chain, b, j, n, p, partition[p]);
    ContiguousAt(chain, cfg.start, i);
    OnlyHolder(chain, cfg.start, i, p);
  }

  lemma {:induction false} ReplicaIsFirst(cfg: Config, partition: seq<Record>, chain: seq<ChainObject>, b: Backup)
    requires IsReplica(cfg, partition, chain, b)
    ensures IsFirstOf(cfg, partition, chain, b)
  {
    hide Flat, Contiguous, ParseObject, Gives, IsRead;
    assert forall k :: 0 <= k < |partition| ==> IsAt(cfg, chain, b, 0 + k, partition[k]);
    var all := Flat(chain, b);
    if cfg.mode.Renumber? {
      YieldedRenumbered(cfg, chain, b, 0, partition);
    } else {
      if partition != [] {
        var i: nat, m: nat :| Gives(cfg, chain, b, i, m, 0, partition[0]);
        FirstInPlace(cfg, chain, b, i, m, partition[0]);
        YieldedInPlace(cfg, chain, b, 0, partition, i, m);
      }
      forall i | 0 <= i < |chain| && chain[i].from < |partition|
        ensures IsRead(chain[i], cfg.source, b[chain[i].name].records)
      {
        HolderIsRead(cfg, partition, chain, b, i);
      }
    }
  }

  lemma {:induction false} ReplicaOfMore(
      cfg: Config, partition: seq<Record>, chain: seq<ChainObject>, now: seq<ChainObject>, b: Backup)
    requires IsReplica(cfg, partition, chain, b) && Listed(cfg, now, b) && chain <= now
    ensures IsReplica(cfg, partition, now, b)
  {
    hide IsAt, Contiguous, ParseObject;
    forall k | 0 <= k < |partition|
      ensures IsAt(cfg, now, b, k, partition[k])
    {
      IsAtInMore(cfg, chain, now, b, b, k, partition[k]);
    }
  }

  lemma {:induction false} ReplicaTakes(
      cfg: Config, partition: seq<Record>, chain: seq<ChainObject>, b: Backup, r: Record)
    requires IsReplica(cfg, partition, chain, b) && IsAt(cfg, chain, b, |partition|, r)
    ensures IsReplica(cfg, partition + [r], chain, b) && r.offset == |partition|
  {
    hide IsAt, Contiguous, ParseObject;
    IsAtItsPosition(cfg, chain, b, |partition|, r);
  }

  /** A listing of the whole backup starts with every chain listed before. */
  lemma {:induction false} ListedAgain(cfg: Config, was: seq<ChainObject>, now: seq<ChainObject>, b: Backup, b': Backup)
    requires Listed(cfg, was, b) && Listed(cfg, now, b')
    requires forall n, o :: n in b && ParseObject(n, cfg.ext, false) == Ok(o) ==> o in now
    ensures was <= now
  {
    hide ParseObject;
    forall o | o in was
      ensures o in now
    {
      var i :| 0 <= i < |was| && was[i] == o;
      assert ParseObject(o.name, cfg.ext, false) == Ok(o);
    }
    ChainsAgree(was, now, cfg.start);
  }

  /** The source stands where the target ends. */
  ghost predicate IsFollowing(source: ChainSource, partition: seq<Record>)
    reads source, source.store
  {
    && source.Valid() && source.Waits() && source.position == |partition|
    && IsReplica(source.cfg, partition, source.chain, source.store.objects)
  }

  /** What is to be followed in all. */
  ghost function Total(cfg: Config, b: Backup): nat
    requires HasWhole(cfg, b)
  {
    var all := TheWhole(cfg, b);
    WholeIsStored(cfg, all, b);
    |Flat(all, b)|
  }

  /** One poll and what the run loop makes of it; while the target is calm, nothing of it fails. */
  method FollowOne(source: ChainSource, partition: seq<Record>, calm: bool) returns (partition': seq<Record>, up: bool)
    requires IsFollowing(source, partition)
    modifies source, source.store
    ensures GrownTo(old(source.store.objects), source.store.objects) && old(source.chain) <= source.chain
    ensures IsReplica(source.cfg, partition', source.chain, source.store.objects) && partition <= partition'
    ensures up ==> IsFollowing(source, partition')
    ensures old(source.IsWhole()) && calm ==>
              && up && source.IsWhole() && source.store.objects == old(source.store.objects)
              && |partition'| == Lesser(|partition| + 1, Total(source.cfg, source.store.objects))
  {
    hide IsReplica, Known, Placed, React, IsAt, Flat, ParseObject, Listed, Whole, HasWhole;
    ghost var objects, chain, whole := source.store.objects, source.chain, source.IsWhole();
    var polled := source.PollOne();
    ReplicaStays(source.cfg, partition, chain, objects, source.store.objects);
    Extended(source.cfg, partition, chain, source.chain, source.store.objects, source.Value());
    if whole {
      InPlaceFromStart(source.cfg, source.Value(), source.store.objects);
      AtTheEnd(source.cfg, source.Value(), source.store.objects, |partition|, polled);
    }
    var c: Choice := *;
    c := if calm then Willing() else c;
    match polled
    case Cancelled => return partition, true;
    case Failed(_) => return partition, false;
    case Idle =>
      KafkaIdles(partition, c);
      var world := React(OnlyKafka(partition), |partition|, PolledNothing, [c]).world;
      return partition, world.Up?;
    case Yielded(r) =>
      ReplicaTakes(source.cfg, partition, source.chain, source.store.objects, r);
      KafkaTakes(partition, r, c);
      var world := React(OnlyKafka(partition), |partition|, Polled(r), [c]).world;
      return SinksNow(world)[0].partition, world.Up?;
  }

  /** Where a poll of a whole backup that idles or yields was. */
  lemma {:induction false} AtTheEnd(cfg: Config, c: Cursor, b: Backup, p: nat, polled: Polled)
    requires Fits(cfg, c, b) && HasWhole(cfg, b) && c.chain <= TheWhole(cfg, b)
    requires cfg.mode.Preserve? ==> cfg.start == 0
    requires polled.Yielded? ==> AllStored(c.chain, b) && IsAt(cfg, c.chain, b, p, polled.record)
    requires polled.Idle? ==> c.chain == TheWhole(cfg, b) && c.buffer == [] && c.next == |c.chain| && c.position == p
    ensures polled.Yielded? ==> p < Total(cfg, b)
    ensures polled.Idle? ==> p == Total(cfg, b)
  {
    hide Fits, Whole, HasWhole, IsAt, Flat;
    if polled.Yielded? {
      WholePositions(cfg, c.chain, TheWhole(cfg, b), b, p, polled.record);
    } else if polled.Idle? {
      WholeEnds(cfg, c, b);
    }
  }

  /** Open, let the run loop start, and seek to where the target ends. */
  method Open(store: BackupStore, cfg: Config, partition: seq<Record>, ghost chain: seq<ChainObject>, calm: bool)
    returns (source: ChainSource, up: bool)
    requires cfg.mode.Preserve? ==> cfg.start == 0
    requires IsReplica(cfg, partition, chain, store.objects)
    modifies store
    ensures fresh(source) && source.store == store && source.cfg == cfg
    ensures GrownTo(old(store.objects), store.objects)
    ensures up ==> IsFollowing(source, partition) && chain <= source.chain
    ensures calm && store.quiet && old(HasWhole(cfg, store.objects)) ==>
              && up && source.IsWhole() && store.objects == old(store.objects)
              && |partition| <= Total(cfg, store.objects)
  {
    hide IsReplica, Known, Placed, Begin, IsAt, Flat, ParseObject, Listed, Whole, HasWhole;
    source := new ChainSource(store, cfg);
    ghost var objects, whole := store.objects, store.quiet && HasWhole(cfg, store.objects);
    var listed := source.ListNew();
    ReplicaStays(cfg, partition, chain, objects, store.objects);
    if listed.Err? {
      return source, false;
    }
    Joined(cfg, partition, chain, source.chain, objects, store.objects, source.Value());
    if whole {
      ReplicaIsInside(cfg, partition, source.chain, store.objects);
    }
    var c: Choice := *;
    c := if calm then Willing() else c;
    KafkaBegins(partition, source.PositionsEnd(), c);
    var world := Begin(OnlyKafka(partition), 0, source.PositionsEnd(), [c]).world;
    if world.Down? {
      return source, false;
    }
    objects := store.objects;
    ghost var before := source.chain;
    var sought := source.Seek(world.expected);
    ReplicaStays(cfg, partition, before, objects, store.objects);
    Extended(cfg, partition, before, source.chain, store.objects, source.Value());
    up := sought.Found?;
  }

  /** One run: open, start where the target ends, and poll until it fails or the caller stops it.
      A run over a whole backup and a calm target gets as far as it polls. */
  method Run(store: BackupStore, cfg: Config, partition: seq<Record>, ghost chain: seq<ChainObject>, polls: nat,
             calm: bool)
    returns (partition': seq<Record>, ghost chain': seq<ChainObject>)
    requires cfg.mode.Preserve? ==> cfg.start == 0
    requires IsReplica(cfg, partition, chain, store.objects)
    modifies store
    ensures GrownTo(old(store.objects), store.objects)
    ensures IsReplica(cfg, partition', chain', store.objects) && partition <= partition' && chain <= chain'
    ensures calm && store.quiet && old(HasWhole(cfg, store.objects)) ==>
              && store.objects == old(store.objects)
              && |partition'| == Lesser(|partition| + polls, Total(cfg, store.objects))
  {
    hide IsReplica, Whole, HasWhole, Total, GrownTo;
    partition', chain' := partition, chain;
    ghost var objects := store.objects;
    var source, up := Open(store, cfg, partition, chain, calm);
    ReplicaStays(cfg, partition, chain, objects, store.objects);
    if !up {
      return;
    }
    chain' := source.chain;
    for i := 0 to polls
      invariant fresh(source) && source.store == store && source.cfg == cfg
      invariant GrownTo(objects, store.objects) && IsFollowing(source, partition')
      invariant chain' == source.chain && chain <= chain' && partition <= partition'
      invariant calm && store.quiet && old(HasWhole(cfg, store.objects)) ==>
                  && source.IsWhole() && store.objects == objects
                  && |partition'| == Lesser(|partition| + i, Total(cfg, store.objects))
    {
      ghost var before := store.objects;
      partition', up := FollowOne(source, partition', calm);
      GrownFurther(objects, before, store.objects);
      chain' := source.chain;
      if !up {
        return;
      }
    }
  }

  lemma {:induction false} GrownFurther(a: Backup, b: Backup, c: Backup)
    requires GrownTo(a, b) && GrownTo(b, c)
    ensures GrownTo(a, c)
  {
  }

  /** A replica of a whole backup is no longer than it, nor than its positions. */
  lemma {:induction false} ReplicaIsInside(cfg: Config, partition: seq<Record>, all: seq<ChainObject>, b: Backup)
    requires Whole(cfg, all, b) && (cfg.mode.Preserve? ==> cfg.start == 0) && IsReplica(cfg, partition, all, b)
    ensures AllStored(all, b) && |partition| <= |Flat(all, b)| <= End(all, cfg.start) - cfg.start
  {
    hide Whole, IsAt, Flat, ParseObject, IsRead;
    WholeIsStored(cfg, all, b);
    if partition != [] {
      var n := |partition| - 1;
      WholePositions(cfg, all, all, b, n, partition[n]);
    }
    WholeIsRead(cfg, all, b);
    FlatOffsets(all, cfg.start, cfg.source, b);
    FlatFits(Flat(all, b), cfg.start, End(all, cfg.start));
  }

  lemma {:induction false} WholeIsRead(cfg: Config, all: seq<ChainObject>, b: Backup)
    requires Whole(cfg, all, b)
    ensures AllRead(all, cfg.source, b) && Contiguous(all, cfg.start)
  {
  }

  /** Increasing offsets between two bounds are no more than there are positions. */
  lemma {:induction false} FlatFits(records: seq<Record>, from: nat, end: nat)
    requires Increasing(records) && from <= end
    requires forall k :: 0 <= k < |records| ==> from <= records[k].offset < end
    ensures |records| <= end - from
    decreases |records|
  {
    if records != [] {
      var n := |records| - 1;
      var init := records[..n];
      FlatFits(init, from, records[n].offset);
    }
  }

  lemma {:induction false} Joined(
      cfg: Config, partition: seq<Record>, chain: seq<ChainObject>, now: seq<ChainObject>, b: Backup, b': Backup,
      c: Cursor)
    requires IsReplica(cfg, partition, chain, b) && IsReplica(cfg, partition, chain, b') && Known(cfg, c, b')
             && c.chain == now
    requires forall n, o :: n in b && ParseObject(n, cfg.ext, false) == Ok(o) ==> o in now
    ensures chain <= now && IsReplica(cfg, partition, now, b')
  {
    hide IsAt, Flat, Contiguous, ParseObject, Counted;
    ListedAgain(cfg, chain, now, b, b');
    ReplicaOfMore(cfg, partition, chain, now, b');
  }

  lemma {:induction false} Extended(
      cfg: Config, partition: seq<Record>, chain: seq<ChainObject>, now: seq<ChainObject>, b: Backup, c: Cursor)
    requires IsReplica(cfg, partition, chain, b) && Known(cfg, c, b) && c.chain == now && chain <= now
    ensures IsReplica(cfg, partition, now, b)
  {
    hide IsAt, Flat, Contiguous, ParseObject, Counted;
    ReplicaOfMore(cfg, partition, chain, now, b);
  }

  /** However often it starts again, and whatever is dropped, fails, lands unacknowledged or is
      added to the backup meanwhile, the target only ever gains the backup's next records. */
  method Standby(store: BackupStore, cfg: Config, partition: seq<Record>, ghost chain: seq<ChainObject>, starts: nat)
    returns (partition': seq<Record>, ghost chain': seq<ChainObject>)
    requires IsReplica(cfg, partition, chain, store.objects)
    modifies store
    ensures GrownTo(old(store.objects), store.objects)
    ensures IsReplica(cfg, partition', chain', store.objects) && partition <= partition' && chain <= chain'
    ensures IsFirstOf(cfg, partition', chain', store.objects)
  {
    hide IsReplica, IsFirstOf;
    partition', chain' := partition, chain;
    if cfg.mode.Preserve? && cfg.start != 0 {
      ReplicaIsFirst(cfg, partition', chain', store.objects);
      return;
    }
    for i := 0 to starts
      invariant GrownTo(old(store.objects), store.objects)
      invariant IsReplica(cfg, partition', chain', store.objects) && partition <= partition' && chain <= chain'
    {
      ghost var objects := store.objects;
      store.Grow();
      ReplicaStays(cfg, partition', chain', objects, store.objects);
      var polls: nat := *;
      var calm := *;
      partition', chain' := Run(store, cfg, partition', chain', polls, calm);
    }
    ReplicaIsFirst(cfg, partition', chain', store.objects);
  }
}
