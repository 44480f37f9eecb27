/** The destinations a mirror writes to, as one type: a blob sink, a Kafka
    partition behind the high-watermark gate, and the in-memory position of a
    mirror without destinations. */
module Sinks {
  import opened Records
  import opened Chain
  import opened Views
  import opened BlobSinks

  /** What comes of one produce: refused before it is sent (a column type, an unreachable
      broker), sent and lost, landed, or landed with its acknowledgement lost. */
  datatype Produce = NotSent | NotLanded | Landed | LandedUnacked

  /** What the environment decides about one call of one sink. */
  datatype Choice = Choice(env: Env, produce: Produce, reachable: bool)

  /** An environment that answers, with no timer due and nothing lost. */
  function Willing(): Choice {
    Choice(Env(false, Stored, false, Stored, false), Landed, true)
  }

  datatype Sink =
    | Blob(spec: Spec, dir: Directory, live: State)
    | Kafka(partition: seq<Record>)
    | Nowhere(position: nat)

  datatype Did = Did(sink: Sink, error: Option<SinkError>)

  /** The next offset the sink accepts; for Kafka, the high watermark. */
  function Position(s: Sink): nat {
    match s
    case Blob(_, _, live) => Head(live)
    case Kafka(partition) => |partition|
    case Nowhere(position) => position
  }

  function OfBlob(spec: Spec, a: After): Did {
    Did(Blob(spec, a.dir, a.state), a.error)
  }

  /** The Kafka gate reads the high watermark before each produce and refuses a record that would
      not get its own offset; what others put there between the two is found in the report. */
  function Gated(partition: seq<Record>, between: seq<Record>, r: Record, produce: Produce): Did {
    if produce.NotSent? then Did(Kafka(partition), Some(Transport))
    else if |partition| != r.offset then Did(Kafka(partition), Some(UnexpectedPosition(r.offset, |partition|)))
    else if produce.NotLanded? then Did(Kafka(partition + between), Some(Transport))
    else
      Did(Kafka(partition + between + [r]),
          if produce.Landed? && |partition + between| == r.offset then None else Some(Transport))
  }

  /** The same while nothing else writes. */
  function Produced(partition: seq<Record>, r: Record, produce: Produce): Did {
    Gated(partition, [], r, produce)
  }

  function WriteTo(s: Sink, r: Record, c: Choice): Did {
    match s
    case Blob(spec, dir, live) => OfBlob(spec, Write(spec, live, dir, r, c.env))
    case Kafka(partition) => Produced(partition, r, c.produce)
    case Nowhere(position) =>
      if r.offset < position then Did(s, Some(UnexpectedPosition(position, r.offset)))
      else Did(Nowhere(r.offset + 1), None)
  }

  /** `next_expected_offset`: for a blob sink also where its timers and its drift check run. */
  function Ask(s: Sink, c: Choice): Did {
    match s
    case Blob(spec, dir, live) => OfBlob(spec, Idle(spec, live, dir, c.env))
    case Kafka(_) => Did(s, if c.reachable then None else Some(Transport))
    case Nowhere(_) => Did(s, None)
  }

  function FlushSink(s: Sink, c: Choice): Did {
    match s
    case Blob(spec, dir, live) => OfBlob(spec, FlushNow(spec, live, dir, c.env))
    case _ => Did(s, None)
  }

  function AlignSink(s: Sink, low: nat): Did {
    match s
    case Blob(spec, dir, live) => OfBlob(spec, Align(spec, live, dir, low))
    case Kafka(_) => Did(s, None)
    case Nowhere(_) => Did(Nowhere(low), None)
  }

  predicate AllowsCompactedSource(s: Sink) {
    (s.Blob? && s.spec.snapshots) || s.Nowhere?
  }

  predicate AllowsHoles(s: Sink) {
    !s.Kafka?
  }

  /** A new process: nothing is left but the destination itself. */
  function Reopened(s: Sink, names: seq<string>): Option<Sink> {
    match s
    case Blob(spec, dir, _) =>
      (match Open(spec, dir, names) case None => None case Some(live) => Some(Blob(spec, dir, live)))
    case Kafka(_) => Some(s)
    case Nowhere(_) => Some(Nowhere(0))
  }

  // ---------- what destinations hold ----------

  /** Record k of the source at offset k, for every offset the partition has. */
  ghost predicate IsPrefix(log: seq<Record>, partition: seq<Record>) {
    partition <= log && forall k :: 0 <= k < |partition| ==> partition[k].offset == k
  }

  /** What is left of a sink after a crash is sound. */
  ghost predicate Sound(log: seq<Record>, s: Sink)
    requires Ascending(log)
  {
    match s
    case Blob(spec, dir, _) => exists chain :: Holds(log, spec, dir, chain)
    case Kafka(partition) => IsPrefix(log, partition)
    case Nowhere(_) => true
  }

  /** A sink that has not failed since it was opened. */
  ghost predicate Live(log: seq<Record>, s: Sink)
    requires Ascending(log)
  {
    match s
    case Blob(spec, dir, live) => exists chain :: Fits(log, spec, dir, chain, live)
    case Kafka(partition) => IsPrefix(log, partition)
    case Nowhere(_) => true
  }

  /** What a destination held, it still holds. */
  ghost predicate Grown(s: Sink, s': Sink) {
    match s
    case Blob(spec, dir, _) => s'.Blob? && s'.spec == spec && Extends(dir, s'.dir)
    case Kafka(partition) => s'.Kafka? && partition <= s'.partition
    case Nowhere(_) => s'.Nowhere?
  }

  lemma {:induction false} LiveIsSound(log: seq<Record>, s: Sink)
    requires Ascending(log) && Live(log, s)
    ensures Sound(log, s) && Grown(s, s)
  {
    hide Holds, FitsState;
  }

  lemma {:induction false} GrownFurther(s: Sink, s': Sink, s'': Sink)
    requires Grown(s, s') && Grown(s', s'')
    ensures Grown(s, s'')
  {
  }

  lemma {:induction false} ProducedKeeps(log: seq<Record>, partition: seq<Record>, r: Record, produce: Produce)
    requires Ascending(log) && IsPrefix(log, partition) && DeliversNext(log, |partition|, r) && r.offset == |partition|
    ensures IsPrefix(log, Produced(partition, r, produce).sink.partition)
  {
    var n := |partition|;
    assert n > 0 ==> log[n - 1] == partition[n - 1];
    FirstIs(log, n, n);
    assert partition + [] + [r] == log[..n + 1];
    assert partition + [] == partition;
  }

  // ---------- the gate, whoever else writes the partition ----------

  /** Success means that the partition grew by exactly the record, at its own offset; nothing else
      is a success. */
  lemma {:induction false} GateLetsOnlyItsOwnIn(
      partition: seq<Record>, between: seq<Record>, r: Record, produce: Produce)
    ensures var did := Gated(partition, between, r, produce);
            && (did.error.None? <==> produce.Landed? && between == [] && r.offset == |partition|)
            && (did.error.None? ==> did.sink == Kafka(partition + [r]))
            && did.sink.Kafka? && partition <= did.sink.partition <= partition + between + [r]
            && (r.offset != |partition| ==> did.sink == Kafka(partition))
  {
    assert between == [] ==> partition + between == partition;
  }

  /** One write through the gate, after what others have put there, and while they put more. */
  datatype Attempt = Attempt(before: seq<Record>, between: seq<Record>, record: Record, produce: Produce)

  function Attempted(partition: seq<Record>, a: Attempt): Did {
    Gated(partition + a.before, a.between, a.record, a.produce)
  }

  function PartitionAfter(partition: seq<Record>, attempts: seq<Attempt>): seq<Record>
    decreases |attempts|
  {
    if attempts == [] then partition
    else PartitionAfter(Attempted(partition, attempts[0]).sink.partition, attempts[1..])
  }

  /** The records whose writes succeeded. */
  function Acknowledged(partition: seq<Record>, attempts: seq<Attempt>): seq<Record>
    decreases |attempts|
  {
    if attempts == [] then []
    else
      var did := Attempted(partition, attempts[0]);
      (if did.error.None? then [attempts[0].record] else []) + Acknowledged(did.sink.partition, attempts[1..])
  }

  lemma {:induction false} PartitionGrows(partition: seq<Record>, attempts: seq<Attempt>)
    ensures partition <= PartitionAfter(partition, attempts)
    decreases |attempts|
  {
    hide Gated;
    if attempts != [] {
      var a := attempts[0];
      GateLetsOnlyItsOwnIn(partition + a.before, a.between, a.record, a.produce);
      PartitionGrows(Attempted(partition, a).sink.partition, attempts[1..]);
    }
  }

  /** Each record is at its own offset, from `start` on, and each is further than the one before. */
  ghost predicate InPlace(records: seq<Record>, start: nat, partition: seq<Record>) {
    && (forall i :: 0 <= i < |records| ==>
          start <= records[i].offset < |partition| && partition[records[i].offset] == records[i])
    && forall i, j :: 0 <= i < j < |records| ==> records[i].offset < records[j].offset
  }

  lemma {:induction false} OneMoreInPlace(r: Record, records: seq<Record>, start: nat, partition: seq<Record>)
    requires InPlace(records, r.offset + 1, partition) && start <= r.offset < |partition| && partition[r.offset] == r
    ensures InPlace([r] + records, start, partition)
  {
    var all := [r] + records;
    assert forall i :: 1 <= i < |all| ==> all[i] == records[i - 1];
  }

  lemma {:induction false} InPlaceFromBelow(records: seq<Record>, start: nat, below: nat, partition: seq<Record>)
    requires InPlace(records, start, partition) && below <= start
    ensures InPlace(records, below, partition)
  {
  }

  /** Whatever records are written, in whatever order, and whatever others write at any time: every
      record acknowledged is in the partition at its own offset, and was acknowledged once. */
  lemma {:induction false} AcknowledgedIsInPlace(partition: seq<Record>, attempts: seq<Attempt>)
    ensures InPlace(Acknowledged(partition, attempts), |partition|, PartitionAfter(partition, attempts))
    decreases |attempts|
  {
    hide Gated, InPlace;
    if attempts == [] {
      NoneInPlace(|partition|, partition);
    } else {
      var a := attempts[0];
      var did := Attempted(partition, a);
      GateLetsOnlyItsOwnIn(partition + a.before, a.between, a.record, a.produce);
      var now := did.sink.partition;
      AcknowledgedIsInPlace(now, attempts[1..]);
      PartitionGrows(now, attempts[1..]);
      var after, rest := PartitionAfter(now, attempts[1..]), Acknowledged(now, attempts[1..]);
      if did.error.None? {
        assert now[a.record.offset] == a.record;
        assert after[a.record.offset] == now[a.record.offset];
        OneMoreInPlace(a.record, rest, |partition|, after);
      } else {
        InPlaceFromBelow(rest, |now|, |partition|, after);
        assert [] + rest == rest;
      }
    }
  }

  lemma {:induction false} NoneInPlace(start: nat, partition: seq<Record>)
    ensures InPlace([], start, partition)
  {
  }

  /** Writing the record the source delivers next, at the sink's own position. */
  lemma {:induction false} WriteToKeeps(log: seq<Record>, s: Sink, r: Record, c: Choice)
    requires Ascending(log) && Live(log, s) && DeliversNext(log, Position(s), r)
    requires s.Kafka? ==> r.offset == Position(s)
    ensures var did := WriteTo(s, r, c);
            && Sound(log, did.sink) && Grown(s, did.sink) && IsOutside(did.error)
            && (did.error.None? ==> Live(log, did.sink) && Position(did.sink) == r.offset + 1)
  {
    hide Write, Holds, FitsState, DeliversNext;
    match s
    case Blob(spec, dir, live) =>
      var chain :| Fits(log, spec, dir, chain, live);
      var chain' := WriteKeeps(log, spec, dir, chain, live, r, c.env);
      var a := Write(spec, live, dir, r, c.env);
      assert a.error.None? ==> Fits(log, spec, a.dir, chain', a.state);
    case Kafka(partition) =>
      ProducedKeeps(log, partition, r, c.produce);
    case Nowhere(_) =>
      RangeOfDelivered(log, Position(s), r);
  }

  /** Asking a sink where it is never moves it, and never finds a contradiction. */
  lemma {:induction false} AskKeeps(log: seq<Record>, s: Sink, c: Choice)
    requires Ascending(log) && Live(log, s)
    ensures var did := Ask(s, c);
            && Sound(log, did.sink) && Grown(s, did.sink) && IsOutside(did.error)
            && (did.error.None? ==> Live(log, did.sink) && Position(did.sink) == Position(s))
  {
    hide Idle, Holds, FitsState;
    if s.Blob? {
      var chain :| Fits(log, s.spec, s.dir, chain, s.live);
      var chain' := IdleKeeps(log, s.spec, s.dir, chain, s.live, c.env);
      var a := Idle(s.spec, s.live, s.dir, c.env);
      assert a.error.None? ==> Fits(log, s.spec, a.dir, chain', a.state);
    }
  }

  lemma {:induction false} FlushSinkKeeps(log: seq<Record>, s: Sink, c: Choice)
    requires Ascending(log) && Live(log, s)
    ensures var did := FlushSink(s, c);
            && Sound(log, did.sink) && Grown(s, did.sink) && IsOutside(did.error)
            && (did.error.None? ==> Live(log, did.sink) && Position(did.sink) == Position(s) && Empty(did.sink))
  {
    hide FlushNow, Holds, FitsState;
    if s.Blob? {
      var chain :| Fits(log, s.spec, s.dir, chain, s.live);
      var chain' := FlushNowKeeps(log, s.spec, s.dir, chain, s.live, c.env);
      var a := FlushNow(s.spec, s.live, s.dir, c.env);
      assert a.error.None? ==> Fits(log, s.spec, a.dir, chain', a.state);
    }
  }

  /** Nothing is buffered: the sink's position is the destination's. */
  predicate Empty(s: Sink) {
    s.Blob? ==> s.live.buffer == []
  }

  predicate Alignable(s: Sink, low: nat) {
    s.Blob? ==> s.spec.snapshots && s.live.buffer == [] && s.live.durable <= low
  }

  /** Aligning moves a sink that can take a trimmed source up to the low watermark, exactly
      when that is not back. */
  lemma {:induction false} AlignSinkKeeps(log: seq<Record>, s: Sink, low: nat)
    requires Ascending(log) && Live(log, s)
    ensures var did := AlignSink(s, low);
            && (did.error.None? <==> Alignable(s, low))
            && Sound(log, did.sink) && Grown(s, did.sink)
            && (did.error.None? ==> Live(log, did.sink) && (AllowsCompactedSource(s) ==> Position(did.sink) == low))
            && (did.error.Some? ==> did == Did(s, Some(Inconsistent)))
  {
    hide Align, Holds, FitsState;
    if s.Blob? {
      var chain :| Fits(log, s.spec, s.dir, chain, s.live);
      AlignKeeps(log, s.spec, s.dir, chain, s.live, low);
      var a := Align(s.spec, s.live, s.dir, low);
      AlignRefused(s.spec, s.live, s.dir, low);
      assert a.error.None? ==> Fits(log, s.spec, a.dir, chain, a.state);
    }
  }

  /** The sinks that take a source trimmed above them are exactly those that aligning moves up. */
  lemma {:induction false} AlignedIsAllowed(s: Sink, low: nat)
    requires Empty(s) && Position(s) < low
    ensures AllowsCompactedSource(s) <==> AlignSink(s, low).error.None? && Position(AlignSink(s, low).sink) == low
  {
  }

  lemma {:induction false} AlignRefused(spec: Spec, s: State, dir: Directory, low: nat)
    ensures var a := Align(spec, s, dir, low);
            a.error.Some? ==> a == After(s, dir, Some(Inconsistent))
  {
  }

  /** A destination found sound opens at its own end, with nothing buffered. */
  lemma {:induction false} ReopenedIsLive(log: seq<Record>, s: Sink, names: seq<string>)
    requires Ascending(log) && Sound(log, s)
    requires s.Blob? ==> multiset(names) == multiset(s.dir.Keys)
    ensures Reopened(s, names).Some?
    ensures Live(log, Reopened(s, names).value) && Empty(Reopened(s, names).value) && Grown(s, Reopened(s, names).value)
  {
    hide Open, Holds, FitsState;
    if s.Blob? {
      var chain :| Holds(log, s.spec, s.dir, chain);
      OpenFits(log, s.spec, s.dir, chain, names);
      assert Fits(log, s.spec, s.dir, chain, Open(s.spec, s.dir, names).value);
    }
  }

  lemma {:induction false} AskEmpty(s: Sink, c: Choice)
    requires Empty(s)
    ensures Empty(Ask(s, c).sink)
  {
  }
}
