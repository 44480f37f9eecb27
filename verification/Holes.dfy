/** A source hole in front of a Kafka destination: what it keeps out of every
    destination of the mirror. */
module Holes {
  import opened Records
  import opened Chain
  import opened Views
  import opened BlobSinks
  import opened Sinks
  import opened Tees
  import opened Mirrors

  /** The source has every offset below `hole`, and not `hole`. */
  ghost predicate IsFirstHole(log: seq<Record>, hole: nat) {
    && hole <= |log|
    && (forall k :: 0 <= k < hole ==> log[k].offset == k)
    && (hole < |log| ==> log[hole].offset > hole)
  }

  ghost predicate AllBelow(records: seq<Record>, hole: nat) {
    forall i :: 0 <= i < |records| ==> records[i].offset < hole
  }

  ghost predicate DirBelow(dir: Directory, hole: nat) {
    forall name :: name in dir ==> AllBelow(dir[name], hole)
  }

  ghost predicate ViewBelow(view: View, hole: nat) {
    forall key :: key in view ==> view[key].offset < hole
  }

  ghost predicate BlobBelow(s: State, dir: Directory, hole: nat) {
    DirBelow(dir, hole) && AllBelow(s.buffer, hole) && ViewBelow(s.view, hole)
  }

  /** What a destination itself holds. */
  ghost predicate HeldBelow(s: Sink, hole: nat) {
    match s
    case Blob(_, dir, _) => DirBelow(dir, hole)
    case Kafka(partition) => |partition| <= hole && AllBelow(partition, hole)
    case Nowhere(_) => true
  }

  /** What a destination holds, and what its sink buffers or keeps a view of. */
  ghost predicate Below(s: Sink, hole: nat) {
    HeldBelow(s, hole) && (s.Blob? ==> BlobBelow(s.live, s.dir, hole))
  }

  ghost predicate SinksHeldBelow(sinks: seq<Sink>, hole: nat) {
    forall i :: 0 <= i < |sinks| ==> HeldBelow(sinks[i], hole)
  }

  ghost predicate SinksBelow(sinks: seq<Sink>, hole: nat) {
    forall i :: 0 <= i < |sinks| ==> Below(sinks[i], hole)
  }

  // ---------- one blob sink ----------

  lemma {:induction false} SnapshotBelow(view: View, hole: nat)
    requires ViewBelow(view, hole)
    ensures AllBelow(Snapshot(view), hole)
    decreases |view|
  {
    if view != map[] {
      var k := Least(view.Keys);
      assert |(view - {k}).Keys| < |view.Keys|;
      SnapshotBelow(view - {k}, hole);
    }
  }

  lemma {:induction false} ReadViewBelow(records: seq<Record>, hole: nat)
    requires AllBelow(records, hole) && ReadView(records).Some?
    ensures ViewBelow(ReadView(records).value, hole)
  {
    if records != [] {
      ReadViewBelow(records[..|records| - 1], hole);
    }
  }

  lemma {:induction false} FlushBelow(spec: Spec, s: State, dir: Directory, put: Put, hole: nat)
    requires BlobBelow(s, dir, hole) && s.buffer != []
    ensures var a := Flush(spec, s, dir, put); BlobBelow(a.state, a.dir, hole)
  {
    hide Naming.BlobFilename, Snapshot, PushTail, ViewBelow;
    SnapshotBelow(s.view, hole);
  }

  lemma {:induction false} TickBelow(spec: Spec, s: State, dir: Directory, env: Env, hole: nat)
    requires BlobBelow(s, dir, hole)
    ensures var a := TickDaily(spec, s, dir, env); BlobBelow(a.state, a.dir, hole)
  {
    hide Flush, BlobBelow;
    if env.dailyDue && s.buffer != [] {
      FlushBelow(spec, s, dir, env.dailyPut, hole);
    }
  }

  lemma {:induction false} WriteBelow(spec: Spec, s: State, dir: Directory, r: Record, env: Env, hole: nat)
    requires BlobBelow(s, dir, hole) && r.offset < hole
    ensures var a := Write(spec, s, dir, r, env); BlobBelow(a.state, a.dir, hole)
  {
    hide Flush, TickDaily, DueTrigger, HasTextKey, ByteSize;
    TickBelow(spec, s, dir, env, hole);
    var daily := TickDaily(spec, s, dir, env);
    var accepted := Accept(spec, daily.state, r);
    assert BlobBelow(accepted, daily.dir, hole);
    FlushBelow(spec, accepted, daily.dir, env.put, hole);
  }

  lemma {:induction false} IdleBelow(spec: Spec, s: State, dir: Directory, env: Env, hole: nat)
    requires BlobBelow(s, dir, hole)
    ensures var a := Idle(spec, s, dir, env); BlobBelow(a.state, a.dir, hole)
  {
    hide Flush, TickDaily, NoDrift, BlobBelow;
    TickBelow(spec, s, dir, env, hole);
    var daily := TickDaily(spec, s, dir, env);
    if DueTrigger(spec, daily.state, env.timeUp) == Some(MaxTime) {
      FlushBelow(spec, daily.state, daily.dir, env.put, hole);
    }
  }

  lemma {:induction false} OpenBelow(spec: Spec, dir: Directory, names: seq<string>, hole: nat)
    requires DirBelow(dir, hole) && Open(spec, dir, names).Some?
    ensures BlobBelow(Open(spec, dir, names).value, dir, hole)
  {
    hide Validate, ReadView;
    var listing := Validate(names, spec.ext, spec.snapshots).value;
    if listing.latest.Some? {
      ReadViewBelow(dir[listing.latest.value], hole);
    }
  }

  // ---------- one destination ----------

  lemma {:induction false} WriteToBelow(s: Sink, r: Record, c: Choice, hole: nat)
    requires Below(s, hole) && r.offset < hole
    ensures Below(WriteTo(s, r, c).sink, hole)
  {
    hide Write;
    if s.Blob? {
      WriteBelow(s.spec, s.live, s.dir, r, c.env, hole);
    }
  }

  lemma {:induction false} AskBelow(s: Sink, c: Choice, hole: nat)
    requires Below(s, hole)
    ensures Below(Ask(s, c).sink, hole)
  {
    hide Idle;
    if s.Blob? {
      IdleBelow(s.spec, s.live, s.dir, c.env, hole);
    }
  }

  lemma {:induction false} FlushSinkBelow(s: Sink, c: Choice, hole: nat)
    requires Below(s, hole)
    ensures Below(FlushSink(s, c).sink, hole)
  {
    hide Flush;
    if s.Blob? && s.live.buffer != [] {
      FlushBelow(s.spec, s.live, s.dir, c.env.put, hole);
    }
  }

  lemma {:induction false} AlignSinkBelow(s: Sink, low: nat, hole: nat)
    requires Below(s, hole)
    ensures Below(AlignSink(s, low).sink, hole)
  {
  }

  lemma {:induction false} ReopenedBelow(s: Sink, names: seq<string>, hole: nat)
    requires HeldBelow(s, hole) && Reopened(s, names).Some?
    ensures Below(Reopened(s, names).value, hole)
  {
    hide Open;
    if s.Blob? {
      OpenBelow(s.spec, s.dir, names, hole);
    }
  }

  // ---------- the tee ----------

  lemma {:induction false} TeeWriteBelow(t: Tee, r: Record, c: seq<Choice>, hole: nat)
    requires IsTee(t) && |c| == |t.sinks| && SinksBelow(t.sinks, hole) && r.offset < hole
    ensures SinksBelow(TeeWrite(t, r, c).tee.sinks, hole)
  {
    hide WriteTo, Below;
    var dids := Fan(t, r, c);
    forall i | 0 <= i < |t.sinks|
      ensures Below(dids[i].sink, hole)
    {
      WriteToBelow(t.sinks[i], r, c[i], hole);
    }
  }

  lemma {:induction false} AskFromBelow(t: Tee, c: seq<Choice>, i: nat, hole: nat)
    requires IsTee(t) && |c| == |t.sinks| && i <= |t.sinks| && SinksBelow(t.sinks, hole)
    ensures SinksBelow(AskFrom(t, c, i).tee.sinks, hole)
    decreases |t.sinks| - i
  {
    hide Ask, Below;
    if i < |t.sinks| {
      AskBelow(t.sinks[i], c[i], hole);
      var did := Ask(t.sinks[i], c[i]);
      if did.error.None? && Position(did.sink) >= t.heads[i] {
        AskFromBelow(t.(sinks := t.sinks[i := did.sink], heads := t.heads[i := Position(did.sink)]), c, i + 1, hole);
      }
    }
  }

  lemma {:induction false} TeeFlushBelow(t: Tee, c: seq<Choice>, hole: nat)
    requires IsTee(t) && |c| == |t.sinks| && SinksBelow(t.sinks, hole)
    ensures SinksBelow(TeeFlush(t, c).tee.sinks, hole)
  {
    hide FlushSink, Below;
    var dids := Flushed(t, c);
    forall i | 0 <= i < |t.sinks|
      ensures Below(dids[i].sink, hole)
    {
      FlushSinkBelow(t.sinks[i], c[i], hole);
    }
  }

  lemma {:induction false} TeeAlignBelow(t: Tee, low: nat, hole: nat)
    requires IsTee(t) && SinksBelow(t.sinks, hole)
    ensures SinksBelow(TeeAlign(t, low).tee.sinks, hole)
  {
    hide AlignSink, Below;
    var dids := Aligned(t, low);
    forall i | 0 <= i < |t.sinks|
      ensures Below(dids[i].sink, hole)
    {
      AlignSinkBelow(t.sinks[i], low, hole);
    }
  }

  // ---------- the mirror ----------

  ghost predicate HasKafka(sinks: seq<Sink>) {
    exists i :: 0 <= i < |sinks| && sinks[i].Kafka?
  }

  ghost predicate WorldBelow(w: World, hole: nat) {
    && HasKafka(SinksNow(w))
    && SinksHeldBelow(SinksNow(w), hole)
    && (w.Up? ==> SinksBelow(w.tee.sinks, hole))
  }

  lemma {:induction false} BelowIsHeld(sinks: seq<Sink>, hole: nat)
    requires SinksBelow(sinks, hole)
    ensures SinksHeldBelow(sinks, hole)
  {
  }

  lemma {:induction false} BeginBelow(t: Tee, low: nat, high: nat, c: seq<Choice>, hole: nat)
    requires IsTee(t) && |c| == |t.sinks| && SinksBelow(t.sinks, hole)
    ensures SinksBelow(SinksNow(Begin(t, low, high, c).world), hole)
  {
    hide AskFrom, TeeAlign, SinksBelow, Reported, Furthest;
    AskFromBelow(t, c, 0, hole);
    TeeAlignBelow(TeeAsk(t, c).tee, low, hole);
  }

  lemma {:induction false} StartBelow(w: World, l: Label, hole: nat)
    requires Enabled(w, l) && l.Start? && SinksHeldBelow(w.sinks, hole)
    ensures SinksHeldBelow(SinksNow(Step(w, l).world), hole)
    ensures Step(w, l).world.Up? ==> SinksBelow(SinksNow(Step(w, l).world), hole)
  {
    hide Reopened, AskFrom, Begin, Below, HeldBelow;
    if ReopenedAll(w.sinks, l.names).Some? {
      var sinks := ReopenedAll(w.sinks, l.names).value;
      forall i | 0 <= i < |sinks|
        ensures Below(sinks[i], hole)
      {
        ReopenedBelow(w.sinks[i], l.names[i], hole);
      }
      AskFromBelow(Tee(sinks, seq(|sinks|, i => 0), l.floor), l.opening, 0, hole);
      var tee := TeeOpen(sinks, l.floor, l.opening);
      BelowIsHeld(tee.tee.sinks, hole);
      if tee.error.None? {
        BeginBelow(tee.tee, l.low, l.high, l.first, hole);
        BelowIsHeld(SinksNow(Begin(tee.tee, l.low, l.high, l.first).world), hole);
      }
    }
  }

  /** The loop is never past the hole: its slowest destination includes the Kafka partition. */
  lemma {:induction false} LoopIsNotPast(log: seq<Record>, w: World, hole: nat)
    requires Ascending(log) && Good(log, w) && w.Up? && WorldBelow(w, hole)
    ensures w.expected <= hole
  {
    hide Live, Reported;
    var i :| 0 <= i < |w.tee.sinks| && w.tee.sinks[i].Kafka?;
    assert HeldBelow(w.tee.sinks[i], hole);
    assert w.expected <= w.tee.heads[i] == Position(w.tee.sinks[i]);
  }

  /** At the loop's position, not past the hole, the source delivers a record below the hole. */
  lemma {:induction false} DeliveredBelow(log: seq<Record>, hole: nat, expected: nat, r: Record)
    requires Ascending(log) && IsFirstHole(log, hole) && expected <= hole
    requires DeliversNext(log, expected, r) && r.offset == expected
    ensures r.offset < hole
  {
    if expected == hole {
      FirstIs(log, hole, hole);
    }
  }

  lemma {:induction false} TurnBelow(log: seq<Record>, w: World, l: Label, hole: nat)
    requires Ascending(log) && IsFirstHole(log, hole) && Good(log, w) && WorldBelow(w, hole)
    requires Enabled(w, l) && Honest(log, w, l) && l.Turn?
    ensures SinksBelow(SinksNow(Step(w, l).world), hole)
  {
    hide AskFrom, TeeWrite, TeeFlush, SinksBelow, SinksHeldBelow, Reported, DeliversNext, Good, IsFirstHole;
    match l.event
    case ShutdownRequested => TeeFlushBelow(w.tee, l.c, hole);
    case PolledNothing => AskFromBelow(w.tee, l.c, 0, hole);
    case Polled(r) =>
      LoopIsNotPast(log, w, hole);
      if r.offset == w.expected {
        DeliveredBelow(log, hole, w.expected, r);
        TeeWriteBelow(w.tee, r, l.c, hole);
      } else {
        var i :| 0 <= i < |w.tee.sinks| && w.tee.sinks[i].Kafka?;
        assert !AllowsHoles(w.tee.sinks[i]);
      }
  }

  lemma {:induction false} KafkaStays(a: seq<Sink>, b: seq<Sink>)
    requires AllGrown(a, b) && HasKafka(a)
    ensures HasKafka(b)
  {
    var i :| 0 <= i < |a| && a[i].Kafka?;
    assert Grown(a[i], b[i]);
  }

  lemma {:induction false} StepBelow(log: seq<Record>, w: World, l: Label, hole: nat)
    requires Ascending(log) && IsFirstHole(log, hole) && Good(log, w) && WorldBelow(w, hole)
    requires Enabled(w, l) && Honest(log, w, l)
    ensures WorldBelow(Step(w, l).world, hole)
  {
    hide Good, Honest, Begin, React, Warranted, AllGrown, SinksBelow, SinksHeldBelow, HasKafka, IsFirstHole;
    StepKeeps(log, w, l);
    var w' := Step(w, l).world;
    KafkaStays(SinksNow(w), SinksNow(w'));
    match l
    case Start(_, _, _, _, _, _) => StartBelow(w, l, hole);
    case Turn(_, _) =>
      TurnBelow(log, w, l, hole);
      BelowIsHeld(SinksNow(w'), hole);
    case Crash =>
  }

  lemma {:induction false} RunBelow(log: seq<Record>, w: World, labels: seq<Label>, hole: nat)
    requires Ascending(log) && IsFirstHole(log, hole) && Good(log, w) && WorldBelow(w, hole)
             && HonestRun(log, w, labels)
    ensures WorldBelow(RunOf(log, w, labels), hole)
    decreases |labels|
  {
    hide Good, Honest, Step, WorldBelow, AllGrown, IsFirstHole;
    if labels != [] {
      StepKeeps(log, w, labels[0]);
      StepBelow(log, w, labels[0], hole);
      RunBelow(log, Step(w, labels[0]).world, labels[1..], hole);
    }
  }

  lemma {:induction false} FreshHeldBelow(s: Sink, hole: nat)
    requires Fresh(s)
    ensures HeldBelow(s, hole)
  {
  }

  /** A hole keeps everything after it out: in every run of a mirror that has a Kafka destination
      among its fresh destinations, no destination ever holds, and no live sink buffers or keeps in
      its view, a record at or past the source's first hole. */
  lemma {:induction false} NothingPastTheHole(log: seq<Record>, sinks: seq<Sink>, labels: seq<Label>, hole: nat)
    requires Ascending(log) && IsFirstHole(log, hole) && (forall k :: 0 <= k < |sinks| ==> Fresh(sinks[k]))
    requires HasKafka(sinks) && HonestRun(log, Down(sinks), labels)
    ensures var w := RunOf(log, Down(sinks), labels);
            && SinksHeldBelow(SinksNow(w), hole)
            && (w.Up? ==> SinksBelow(w.tee.sinks, hole))
  {
    hide Fresh, HonestRun, RunOf, Sound, HeldBelow, Below;
    forall k | 0 <= k < |sinks|
      ensures Sound(log, sinks[k]) && HeldBelow(sinks[k], hole)
    {
      FreshIsSound(log, sinks[k]);
      FreshHeldBelow(sinks[k], hole);
    }
    RunBelow(log, Down(sinks), labels, hole);
  }
}
