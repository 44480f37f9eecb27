/** A mirror over its whole life: processes that start from what the destinations
    hold, deliver, idle, shut down, fail or crash, one after the other.

    The run loop is `React` (one turn of the loop) after `Begin` (what it does
    before the first). A world is what exists at one moment: destinations with
    no process, or a process with its tee. */
module Mirrors {
  import opened Records
  import Naming
  import opened Chain
  import opened Views
  import opened BlobSinks
  import opened Sinks
  import opened Tees

  datatype Failure =
    | OfSink(e: SinkError)
    | CannotOpen
    | SourceWentBackwards(expected: nat, got: nat)
    | SourceGapAboveExpected(expected: nat, got: nat)
    | DestinationDrift(expected: nat, actual: nat)
    | SinkAheadOfSource(position: nat, high: nat)
    | SourceCompactedBelowExpected(start: nat, low: nat)

  datatype World = Down(sinks: seq<Sink>) | Up(tee: Tee, expected: nat)

  datatype Stepped = Stepped(world: World, failure: Option<Failure>)

  /** What one turn of the loop waits for. */
  datatype Event = Polled(record: Record) | PolledNothing | ShutdownRequested

  function Failed(sinks: seq<Sink>, f: Failure): Stepped {
    Stepped(Down(sinks), Some(f))
  }

  /** Where a run starts: the tee's position, if the source still has it and is not behind. */
  function Begin(t: Tee, low: nat, high: nat, c: seq<Choice>): Stepped
    requires IsTee(t) && |c| == |t.sinks|
  {
    var asked := TeeAsk(t, c);
    if asked.error.Some? then Failed(asked.tee.sinks, OfSink(asked.error.value))
    else
      var start := Reported(asked.tee);
      if Furthest(asked.tee) > high then Failed(asked.tee.sinks, SinkAheadOfSource(Furthest(asked.tee), high))
      else if start >= low then Stepped(Up(asked.tee, start), None)
      else if !TeeAllowsCompactedSource(asked.tee)
        then Failed(asked.tee.sinks, SourceCompactedBelowExpected(start, low))
      else
        var aligned := TeeAlign(asked.tee, low);
        if aligned.error.Some? then Failed(aligned.tee.sinks, OfSink(aligned.error.value))
        else Stepped(Up(aligned.tee, low), None)
  }

  function React(t: Tee, expected: nat, event: Event, c: seq<Choice>): Stepped
    requires IsTee(t) && |c| == |t.sinks|
  {
    match event
    case ShutdownRequested =>
      var flushed := TeeFlush(t, c);
      Stepped(Down(flushed.tee.sinks), if flushed.error.Some? then Some(OfSink(flushed.error.value)) else None)
    case Polled(r) =>
      if r.offset < expected then Failed(t.sinks, SourceWentBackwards(expected, r.offset))
      else if r.offset > expected && !TeeAllowsHoles(t) then Failed(t.sinks, SourceGapAboveExpected(expected, r.offset))
      else
        var wrote := TeeWrite(t, r, c);
        if wrote.error.Some? then Failed(wrote.tee.sinks, OfSink(wrote.error.value))
        else Stepped(Up(wrote.tee, r.offset + 1), None)
    case PolledNothing =>
      var asked := TeeAsk(t, c);
      if asked.error.Some? then Failed(asked.tee.sinks, OfSink(asked.error.value))
      else if Reported(asked.tee) != expected then
        Failed(asked.tee.sinks, DestinationDrift(expected, Reported(asked.tee)))
      else Stepped(Up(asked.tee, expected), None)
  }

  /** The loop as written: it keeps its own `expected`, which a hole moves and a write increments. */
  method RunMirror(tee: TeeSink, low: nat, high: nat, c: seq<Choice>, events: seq<(Event, seq<Choice>)>)
    returns (world: World, failure: Option<Failure>)
    requires IsTee(tee.Value()) && |c| == |tee.sinks|
    requires forall k :: 0 <= k < |events| ==> |events[k].1| == |tee.sinks|
    modifies tee
    ensures Stepped(world, failure) == Loop(Begin(old(tee.Value()), low, high, c), events)
  {
    hide TeeWrite, TeeAsk, TeeAlign, TeeFlush, Reported, Furthest;
    ghost var n, begun := |tee.sinks|, Begin(tee.Value(), low, high, c);
    var sinkStart := tee.NextExpectedOffset(c);
    if sinkStart.Err? {
      return Down(tee.sinks), Some(OfSink(sinkStart.error));
    }
    var furthest := Furthest(tee.Value());
    if furthest > high {
      return Down(tee.sinks), Some(SinkAheadOfSource(furthest, high));
    }
    var expected: nat := sinkStart.value;
    if expected < low {
      if !TeeAllowsCompactedSource(tee.Value()) {
        return Down(tee.sinks), Some(SourceCompactedBelowExpected(expected, low));
      }
      var error := tee.AlignToSourceLowWatermark(low);
      if error.Some? {
        return Down(tee.sinks), Some(OfSink(error.value));
      }
      expected := low;
    }
    assert begun == Stepped(Up(tee.Value(), expected), None);
    for i := 0 to |events|
      invariant IsTee(tee.Value()) && |tee.sinks| == n
      invariant Loop(begun, events) == Loop(Stepped(Up(tee.Value(), expected), None), events[i..])
    {
      var (event, choices) := events[i];
      assert events[i..][0] == events[i] && events[i..][1..] == events[i + 1..];
      match event
      case ShutdownRequested =>
        var error := tee.FlushAll(choices);
        return Down(tee.sinks), if error.Some? then Some(OfSink(error.value)) else None;
      case Polled(record) =>
        if record.offset < expected {
          return Down(tee.sinks), Some(SourceWentBackwards(expected, record.offset));
        }
        if record.offset > expected {
          if !TeeAllowsHoles(tee.Value()) {
            return Down(tee.sinks), Some(SourceGapAboveExpected(expected, record.offset));
          }
          expected := record.offset;
        }
        var error := tee.WriteRecord(record, choices);
        if error.Some? {
          return Down(tee.sinks), Some(OfSink(error.value));
        }
        expected := expected + 1;
      case PolledNothing =>
        var current := tee.NextExpectedOffset(choices);
        if current.Err? {
          return Down(tee.sinks), Some(OfSink(current.error));
        }
        if current.value != expected {
          return Down(tee.sinks), Some(DestinationDrift(expected, current.value));
        }
    }
    return Up(tee.Value(), expected), None;
  }

  /** A process as it is started: its destinations opened, the tee over them, a floor where
      records are wanted again, and the loop. */
  method StartMirror(sinks: seq<Sink>, l: Label, events: seq<(Event, seq<Choice>)>)
    returns (world: World, failure: Option<Failure>)
    requires l.Start? && Enabled(Down(sinks), l) && forall k :: 0 <= k < |events| ==> |events[k].1| == |sinks|
    ensures Stepped(world, failure) == Loop(Step(Down(sinks), l), events)
  {
    hide Reopened, AskFrom, Begin;
    var reopened := ReopenedAll(sinks, l.names);
    if reopened.None? {
      return Down(sinks), Some(CannotOpen);
    }
    FloorAfterOpening(reopened.value, l.floor, l.opening);
    var tee, error := OpenTee(reopened.value, l.opening);
    if error.Some? {
      return Down(tee.sinks), Some(OfSink(error.value));
    }
    if l.floor.Some? {
      tee.SetResumeFloor(l.floor.value);
    }
    world, failure := RunMirror(tee, l.low, l.high, l.first, events);
  }

  /** Turns of the loop until it ends. */
  function Loop(s: Stepped, events: seq<(Event, seq<Choice>)>): Stepped
    requires s.world.Up? ==>
               && IsTee(s.world.tee)
               && forall k :: 0 <= k < |events| ==> |events[k].1| == |s.world.tee.sinks|
    decreases |events|
  {
    if s.world.Down? || events == [] then s
    else Loop(React(s.world.tee, s.world.expected, events[0].0, events[0].1), events[1..])
  }

  // ---------- every life of a mirror ----------

  /** One step of the world. A start carries the listing each store served, the floor a
      notifier asks for, and the source's watermarks. */
  datatype Label =
    | Start(names: seq<seq<string>>, floor: Option<nat>, low: nat, high: nat, opening: seq<Choice>, first: seq<Choice>)
    | Turn(event: Event, c: seq<Choice>)
    | Crash

  function ReopenedAll(sinks: seq<Sink>, names: seq<seq<string>>): Option<seq<Sink>>
    requires |names| == |sinks|
  {
    if forall i :: 0 <= i < |sinks| ==> Reopened(sinks[i], names[i]).Some?
    then Some(seq(|sinks|, i requires 0 <= i < |sinks|
      && Reopened(sinks[i], names[i]).Some? => Reopened(sinks[i], names[i]).value))
    else None
  }

  function Positions(sinks: seq<Sink>): seq<nat> {
    seq(|sinks|, i requires 0 <= i < |sinks| => Position(sinks[i]))
  }

  function SinksNow(w: World): seq<Sink> {
    if w.Down? then w.sinks else w.tee.sinks
  }

  /** The step can be taken here: one listing and one choice per destination. */
  predicate Enabled(w: World, l: Label) {
    && SinksNow(w) != [] && (w.Up? ==> IsTee(w.tee))
    && match l
       case Start(names, _, _, _, opening, first) => w.Down? && |names| == |opening| == |first| == |w.sinks|
       case Turn(_, c) => w.Up? && |c| == |w.tee.sinks|
       case Crash => w.Up?
  }

  /** The tee a start comes to: each destination at its own end, and the floor. */
  function StartTee(w: World, l: Label): Tee
    requires Enabled(w, l) && l.Start? && ReopenedAll(w.sinks, l.names).Some?
  {
    var sinks := ReopenedAll(w.sinks, l.names).value;
    Tee(sinks, Positions(sinks), l.floor)
  }

  function Step(w: World, l: Label): Stepped
    requires Enabled(w, l)
  {
    match l
    case Crash => Stepped(Down(w.tee.sinks), None)
    case Turn(event, c) => React(w.tee, w.expected, event, c)
    case Start(names, floor, low, high, opening, first) =>
      match ReopenedAll(w.sinks, names)
      case None => Failed(w.sinks, CannotOpen)
      case Some(sinks) =>
        var tee := TeeOpen(sinks, floor, opening);
        if tee.error.Some? then Failed(tee.tee.sinks, OfSink(tee.error.value))
        else Begin(tee.tee, low, high, first)
  }

  // ---------- what every step keeps ----------

  ghost predicate Good(log: seq<Record>, w: World)
    requires Ascending(log)
  {
    && SinksNow(w) != []
    && if w.Down? then AllSound(log, w.sinks) else TeeFits(log, w.tee, w.expected)
  }

  /** Stores list what they hold, and the source delivers its records in turn. */
  ghost predicate Honest(log: seq<Record>, w: World, l: Label)
    requires Enabled(w, l)
  {
    match l
    case Start(names, _, _, _, _, _) =>
      forall i :: 0 <= i < |w.sinks| && w.sinks[i].Blob? ==> multiset(names[i]) == multiset(w.sinks[i].dir.Keys)
    case Turn(Polled(r), _) => DeliversNext(log, w.expected, r)
    case _ => true
  }

  /** The tee has to be aligned up to the low watermark, and a blob destination is past it. */
  predicate MustAlignPast(t: Tee, low: nat, high: nat)
    requires IsTee(t)
  {
    && Reported(t) < low && Furthest(t) <= high && TeeAllowsCompactedSource(t)
    && exists i :: 0 <= i < |t.sinks| && t.sinks[i].Blob? && t.heads[i] > low
  }

  /** A start below the low watermark that has to align a destination which is past it. */
  predicate AlignsPast(w: World, l: Label)
    requires Enabled(w, l)
  {
    l.Start? && ReopenedAll(w.sinks, l.names).Some? && MustAlignPast(StartTee(w, l), l.low, l.high)
  }

  /** The only cause each failure can have, as long as nothing else writes to the destinations. */
  ghost predicate Warranted(w: World, l: Label, f: Failure)
    requires Enabled(w, l)
  {
    match f
    case OfSink(e) => e == Transport || e == Rejected || (e == Inconsistent && AlignsPast(w, l))
    case CannotOpen => false
    case SourceWentBackwards(_, _) => false
    case SourceGapAboveExpected(expected, got) => l.Turn? && l.event.Polled? && got > w.expected
      && !TeeAllowsHoles(w.tee)
    case DestinationDrift(_, _) => l.Turn? && l.event.PolledNothing? && Lagging(w.tee, w.expected)
    case SinkAheadOfSource(position, high) => l.Start? && position > high == l.high
    case SourceCompactedBelowExpected(start, low) => l.Start? && start < low == l.low
  }

  /** A start whose floor is below a low watermark it is moved up to. */
  predicate FloorBelowLow(l: Label) {
    l.Start? && l.floor.Some? && l.floor.value < l.low
  }

  lemma {:induction false} BeginKeeps(log: seq<Record>, t: Tee, low: nat, high: nat, c: seq<Choice>)
    requires Ascending(log) && IsTee(t) && TeeFits(log, t, Reported(t)) && AllEmpty(t.sinks) && |c| == |t.sinks|
    ensures var s := Begin(t, low, high, c);
            && Good(log, s.world) && AllGrown(t.sinks, SinksNow(s.world))
            && (s.world.Up? ==> (Lagging(s.world.tee, s.world.expected) <==> t.cursor.Some? && t.cursor.value < low))
            && match s.failure
               case None => true
               case Some(OfSink(e)) =>
                 || e == Transport || e == Rejected
                 || (e == Inconsistent && MustAlignPast(t, low, high))
               case Some(SinkAheadOfSource(position, h)) => position > h == high
               case Some(SourceCompactedBelowExpected(start, l)) => start < l == low
               case _ => false
  {
    hide Live, Sound, Grown, AskFrom, TeeAlign, AllEmpty, Furthest;
    AskFromKeeps(log, t, Reported(t), c, 0);
    var asked := TeeAsk(t, c);
    if asked.error.None? {
      assert Reported(asked.tee) == Reported(t);
      CurrentIsSound(log, asked.tee, Reported(t));
      if Furthest(asked.tee) <= high && Reported(t) < low && TeeAllowsCompactedSource(asked.tee) {
        TeeAlignKeeps(log, asked.tee, low);
        AlignSucceedsIff(log, asked.tee, low);
        AllGrownFurther(t.sinks, asked.tee.sinks, TeeAlign(asked.tee, low).tee.sinks);
        SameAlignment(t, asked.tee, low, high);
      }
    }
  }

  lemma {:induction false} SameKind(a: seq<Sink>, b: seq<Sink>)
    requires AllGrown(a, b)
    ensures forall i :: 0 <= i < |a| ==>
              (a[i].Blob? <==> b[i].Blob?) && (AllowsCompactedSource(a[i]) <==> AllowsCompactedSource(b[i]))
  {
    forall i | 0 <= i < |a|
      ensures (a[i].Blob? <==> b[i].Blob?) && (AllowsCompactedSource(a[i]) <==> AllowsCompactedSource(b[i]))
    {
      assert Grown(a[i], b[i]);
    }
  }

  lemma {:induction false} SameAlignment(t: Tee, t': Tee, low: nat, high: nat)
    requires IsTee(t) && IsTee(t') && t.heads == t'.heads && t.cursor == t'.cursor && AllGrown(t.sinks, t'.sinks)
    ensures MustAlignPast(t, low, high) <==> MustAlignPast(t', low, high)
  {
    SameKind(t.sinks, t'.sinks);
  }

  lemma {:induction false} StartKeeps(log: seq<Record>, w: World, l: Label)
    requires Ascending(log) && Good(log, w) && Enabled(w, l) && Honest(log, w, l) && l.Start?
    ensures var s := Step(w, l);
            && Good(log, s.world) && AllGrown(SinksNow(w), SinksNow(s.world))
            && (s.failure.Some? ==> Warranted(w, l, s.failure.value))
            && (s.world.Up? ==> (Lagging(s.world.tee, s.world.expected) <==> FloorBelowLow(l)))
  {
    hide Live, Sound, Grown, Reopened, TeeOpen, Begin, AllEmpty, Empty;
    var n := |w.sinks|;
    forall i | 0 <= i < n
      ensures Reopened(w.sinks[i], l.names[i]).Some?
      ensures var s := Reopened(w.sinks[i], l.names[i]).value; Live(log, s) && Empty(s) && Grown(w.sinks[i], s)
    {
      ReopenedIsLive(log, w.sinks[i], l.names[i]);
    }
    var sinks := ReopenedAll(w.sinks, l.names).value;
    assert AllGrown(w.sinks, sinks);
    TeeOpenKeeps(log, sinks, l.floor, l.opening);
    var tee := TeeOpen(sinks, l.floor, l.opening);
    AllGrownFurther(w.sinks, sinks, tee.tee.sinks);
    if tee.error.None? {
      BeginKeeps(log, tee.tee, l.low, l.high, l.first);
      var s := Begin(tee.tee, l.low, l.high, l.first);
      AllGrownFurther(w.sinks, tee.tee.sinks, SinksNow(s.world));
      if s.failure == Some(OfSink(Inconsistent)) {
        SameKind(sinks, tee.tee.sinks);
        assert tee.tee.heads == StartTee(w, l).heads;
        SameAlignment(StartTee(w, l), tee.tee, l.low, l.high);
      }
    }
  }

  lemma {:induction false} TurnKeeps(log: seq<Record>, w: World, l: Label)
    requires Ascending(log) && Good(log, w) && Enabled(w, l) && Honest(log, w, l) && l.Turn?
    ensures var s := Step(w, l);
            && Good(log, s.world) && AllGrown(SinksNow(w), SinksNow(s.world))
            && (s.failure.Some? ==> Warranted(w, l, s.failure.value))
            && (s.world.Up? ==> !Lagging(s.world.tee, s.world.expected))
  {
    hide Live, Sound, Grown, AskFrom, TeeWrite, TeeFlush, DeliversNext;
    CurrentIsSound(log, w.tee, w.expected);
    AllGrownAlready(log, w.tee, w.expected);
    match l.event
    case ShutdownRequested =>
      TeeFlushKeeps(log, w.tee, w.expected, l.c);
    case PolledNothing =>
      AskFromKeeps(log, w.tee, w.expected, l.c, 0);
      var asked := TeeAsk(w.tee, l.c);
      if asked.error.None? {
        CurrentIsSound(log, asked.tee, w.expected);
      }
    case Polled(r) =>
      RangeOfDelivered(log, w.expected, r);
      if r.offset == w.expected || TeeAllowsHoles(w.tee) {
        TeeWriteKeeps(log, w.tee, w.expected, r, l.c);
      }
  }

  lemma {:induction false} AllGrownAlready(log: seq<Record>, t: Tee, expected: nat)
    requires Ascending(log) && Current(log, t, expected)
    ensures AllGrown(t.sinks, t.sinks)
  {
    hide Live, Grown;
    forall i | 0 <= i < |t.sinks|
      ensures Grown(t.sinks[i], t.sinks[i])
    {
      LiveIsSound(log, t.sinks[i]);
    }
  }

  /** One step: destinations stay sound and lose nothing, the tee stays where the loop is, and
      a failure has an outside cause. */
  lemma {:induction false} StepKeeps(log: seq<Record>, w: World, l: Label)
    requires Ascending(log) && Good(log, w) && Enabled(w, l) && Honest(log, w, l)
    ensures var s := Step(w, l);
            && Good(log, s.world) && AllGrown(SinksNow(w), SinksNow(s.world))
            && (s.failure.Some? ==> Warranted(w, l, s.failure.value))
            && (s.world.Up? ==> (Lagging(s.world.tee, s.world.expected) <==> FloorBelowLow(l)))
  {
    hide Good, Honest, Begin, React, Warranted, AllGrown;
    match l
    case Start(_, _, _, _, _, _) => StartKeeps(log, w, l);
    case Turn(_, _) => TurnKeeps(log, w, l);
    case Crash => CrashKeeps(log, w);
  }

  lemma {:induction false} CrashKeeps(log: seq<Record>, w: World)
    requires Ascending(log) && Good(log, w) && w.Up?
    ensures Good(log, Down(w.tee.sinks)) && AllGrown(w.tee.sinks, w.tee.sinks)
  {
    CurrentIsSound(log, w.tee, w.expected);
    AllGrownAlready(log, w.tee, w.expected);
  }

  /** The idle check of a sound mirror fails exactly when the cursor was left below the position
      an alignment moved the loop to, and every destination could be asked. */
  lemma {:induction false} IdleDriftsIff(log: seq<Record>, t: Tee, expected: nat, c: seq<Choice>)
    requires Ascending(log) && TeeFits(log, t, expected) && |c| == |t.sinks|
    ensures (React(t, expected, PolledNothing, c).failure.Some?
            && React(t, expected, PolledNothing, c).failure.value.DestinationDrift?)
            <==> TeeAsk(t, c).error.None? && Lagging(t, expected)
  {
    hide Live, Sound, AskFrom;
    AskFromKeeps(log, t, expected, c, 0);
  }

  /** After a shutdown that reports no failure nothing is left in a buffer: each destination
      itself is at its position, at or past everything the loop delivered. */
  lemma {:induction false} ShutdownLeavesNothingBuffered(log: seq<Record>, t: Tee, expected: nat, c: seq<Choice>)
    requires Ascending(log) && TeeFits(log, t, expected) && |c| == |t.sinks|
    requires React(t, expected, ShutdownRequested, c).failure.None?
    ensures var sinks := React(t, expected, ShutdownRequested, c).world.sinks;
            && |sinks| == |t.sinks|
            && forall i :: 0 <= i < |sinks| ==>
                 Live(log, sinks[i]) && Empty(sinks[i]) && expected <= t.heads[i] == Position(sinks[i])
  {
    hide Live, Sound, Grown, FlushSink;
    TeeFlushKeeps(log, t, expected, c);
  }

  // ---------- whole runs ----------

  ghost predicate HonestRun(log: seq<Record>, w: World, labels: seq<Label>)
    decreases |labels|
  {
    labels == []
    || (Enabled(w, labels[0]) && Honest(log, w, labels[0]) && HonestRun(log, Step(w, labels[0]).world, labels[1..]))
  }

  ghost function RunOf(log: seq<Record>, w: World, labels: seq<Label>): World
    requires HonestRun(log, w, labels)
    decreases |labels|
  {
    if labels == [] then w else RunOf(log, Step(w, labels[0]).world, labels[1..])
  }

  /** Every failure of the run, in turn. */
  ghost function Failures(log: seq<Record>, w: World, labels: seq<Label>): seq<Failure>
    requires HonestRun(log, w, labels)
    decreases |labels|
  {
    if labels == [] then []
    else
      var s := Step(w, labels[0]);
      (if s.failure.Some? then [s.failure.value] else []) + Failures(log, s.world, labels[1..])
  }

  lemma {:induction false} OneMoreStep(log: seq<Record>, w: World, labels: seq<Label>, l: Label)
    requires HonestRun(log, w, labels) && Enabled(RunOf(log, w, labels), l) && Honest(log, RunOf(log, w, labels), l)
    ensures HonestRun(log, w, labels + [l])
    ensures RunOf(log, w, labels + [l]) == Step(RunOf(log, w, labels), l).world
    decreases |labels|
  {
    hide Step, Enabled, Honest;
    var all := labels + [l];
    if labels == [] {
      assert all == [l] && all[1..] == [];
    } else {
      assert all[1..] == labels[1..] + [l];
      OneMoreStep(log, Step(w, labels[0]).world, labels[1..], l);
    }
  }

  lemma {:induction false} RunKeeps(log: seq<Record>, w: World, labels: seq<Label>)
    requires Ascending(log) && Good(log, w) && HonestRun(log, w, labels)
    ensures Good(log, RunOf(log, w, labels)) && AllGrown(SinksNow(w), SinksNow(RunOf(log, w, labels)))
    decreases |labels|
  {
    hide Good, Honest, Step, AllGrown, Warranted;
    if labels == [] {
      GrownInPlace(log, w);
    } else {
      var s := Step(w, labels[0]);
      StepKeeps(log, w, labels[0]);
      RunKeeps(log, s.world, labels[1..]);
      AllGrownFurther(SinksNow(w), SinksNow(s.world), SinksNow(RunOf(log, w, labels)));
    }
  }

  lemma {:induction false} GrownInPlace(log: seq<Record>, w: World)
    requires Ascending(log) && Good(log, w)
    ensures AllGrown(SinksNow(w), SinksNow(w))
  {
  }

  /** A contradiction with what this mirror wrote or read: a destination that drifted, went back,
      holds what it should not, or cannot be opened; a record or a position out of place. */
  predicate IsFalseAlarm(f: Failure) {
    || f.DestinationDrift? || f.SourceWentBackwards? || f.CannotOpen?
    || (f.OfSink? && f.e != Transport && f.e != Rejected)
  }

  /** No start of the run has a floor below the low watermark, or has to align a destination that is
      past it. */
  ghost predicate StartsInOrder(log: seq<Record>, w: World, labels: seq<Label>)
    requires HonestRun(log, w, labels)
    decreases |labels|
  {
    labels == []
    || (&& !FloorBelowLow(labels[0]) && !AlignsPast(w, labels[0])
        && StartsInOrder(log, Step(w, labels[0]).world, labels[1..]))
  }

  /** No false alarm, ever: while nothing else writes to the destinations, and no start has a floor
      below the low watermark or has to align a destination that is past it, no run of starts,
      deliveries, replays, idle turns, failures and crashes reports a contradiction. */
  lemma {:induction false} NoFalseAlarm(log: seq<Record>, w: World, labels: seq<Label>)
    requires Ascending(log) && Good(log, w) && HonestRun(log, w, labels) && StartsInOrder(log, w, labels)
    requires w.Up? ==> !Lagging(w.tee, w.expected)
    ensures forall f :: f in Failures(log, w, labels) ==> !IsFalseAlarm(f)
    decreases |labels|
  {
    hide Good, Honest, Step, AllGrown, AlignsPast;
    if labels != [] {
      StepKeeps(log, w, labels[0]);
      NoFalseAlarm(log, Step(w, labels[0]).world, labels[1..]);
    }
  }

  /** A start on a source that still begins at 0, or of a single destination without a floor below
      the low watermark. */
  predicate StartsPlainly(l: Label) {
    l.Start? ==> l.low == 0 || (|l.names| == 1 && !FloorBelowLow(l))
  }

  lemma {:induction false} PlainIsInOrder(w: World, l: Label)
    requires Enabled(w, l) && StartsPlainly(l)
    ensures !FloorBelowLow(l) && !AlignsPast(w, l)
  {
    hide Reopened;
    if l.Start? && ReopenedAll(w.sinks, l.names).Some? && |l.names| == 1 {
      assert Min(StartTee(w, l).heads) == StartTee(w, l).heads[0];
    }
  }

  /** So a mirror of a source that was never trimmed, and a mirror of one destination, restarted
      as often as one likes, never raises a false alarm. */
  lemma {:induction false} NoFalseAlarmStartingPlainly(log: seq<Record>, w: World, labels: seq<Label>)
    requires Ascending(log) && Good(log, w) && HonestRun(log, w, labels)
    requires forall k :: 0 <= k < |labels| ==> StartsPlainly(labels[k])
    requires w.Up? ==> !Lagging(w.tee, w.expected)
    ensures forall f :: f in Failures(log, w, labels) ==> !IsFalseAlarm(f)
  {
    hide Good, HonestRun, StartsInOrder, Failures;
    PlainRunIsInOrder(log, w, labels);
    NoFalseAlarm(log, w, labels);
  }

  lemma {:induction false} PlainRunIsInOrder(log: seq<Record>, w: World, labels: seq<Label>)
    requires HonestRun(log, w, labels) && forall k :: 0 <= k < |labels| ==> StartsPlainly(labels[k])
    ensures StartsInOrder(log, w, labels)
    decreases |labels|
  {
    hide Honest, Step, StartsPlainly, AlignsPast;
    if labels != [] {
      PlainIsInOrder(w, labels[0]);
      PlainRunIsInOrder(log, Step(w, labels[0]).world, labels[1..]);
    }
  }

  // ---------- exactly once ----------

  /** A destination nothing was ever written to. */
  ghost predicate Fresh(s: Sink) {
    match s
    case Blob(spec, dir, _) =>
      dir == map[] && Naming.IsExtension(spec.ext) && (spec.keyId.Some? ==> Naming.IsKeyId(spec.keyId.value))
    case Kafka(partition) => partition == []
    case Nowhere(_) => true
  }

  lemma {:induction false} FreshIsSound(log: seq<Record>, s: Sink)
    requires Ascending(log) && Fresh(s)
    ensures Sound(log, s)
  {
    if s.Blob? {
      assert Names([]) == [] && s.dir.Keys == {};
      assert Holds(log, s.spec, s.dir, []);
    }
  }

  /** What a destination holds, read from a listing in any order. */
  ghost predicate HoldsTheSource(log: seq<Record>, s: Sink, names: seq<string>)
    requires Ascending(log)
  {
    match s
    case Nowhere(_) => true
    case Kafka(partition) => IsPrefix(log, partition)
    case Blob(spec, dir, _) =>
      var listing := Validate(names, spec.ext, spec.snapshots);
      && listing.Ok?
      && if spec.snapshots then
           exists chain: seq<ChainObject> ::
             && Apart(chain) && AllWritten(chain, spec.ext) && Lists(names, chain)
             && (if chain == [] then listing.value.durable == 0 && listing.value.latest == None
                 else
                   && listing.value.durable == chain[|chain| - 1].to + 1
                   && listing.value.latest.Some? && listing.value.latest.value in dir
                   && ReadView(dir[listing.value.latest.value]) == Some(Fold(Delivered(log, chain))))
         else
           var sorted := Sorted(ParseAll(names, spec.ext, true).value, false);
           && (forall i :: 0 <= i < |sorted| ==> sorted[i].name in dir)
           && Concatenated(dir, sorted) == log[..First(log, listing.value.durable)]
  }

  lemma {:induction false} SoundHoldsTheSource(log: seq<Record>, s: Sink, names: seq<string>)
    requires Ascending(log) && Sound(log, s)
    requires s.Blob? ==> multiset(names) == multiset(s.dir.Keys)
    ensures HoldsTheSource(log, s, names)
  {
    hide Validate, Delivered, Fold, ReadView, HoldsRange, HoldsFold, ParseAll, Sorted, Concatenated, AllWritten, Names;
    if s.Blob? {
      var chain :| Holds(log, s.spec, s.dir, chain);
      if !s.spec.snapshots {
        AppendHoldsTheSource(log, s.spec, s.dir, chain, names);
      } else if chain == [] {
        SnapshotsOpen(names, chain, s.spec.ext);
      } else {
        NewestSnapshotIsTheFold(log, s.spec, s.dir, chain, names);
      }
    }
  }

  /** Exactly once. Whatever is delivered, replayed, flushed, lost or reported lost, and however
      often processes fail, crash and start again: at every moment each destination holds the
      source's records up to where it continues, each once and in order (or their fold), at
      their own offsets; and nothing a destination once held is gone. */
  lemma {:induction false} EveryRunIsExactlyOnce(
      log: seq<Record>, sinks: seq<Sink>, labels: seq<Label>, i: nat, names: seq<string>)
    requires Ascending(log) && sinks != [] && (forall k :: 0 <= k < |sinks| ==> Fresh(sinks[k]))
    requires HonestRun(log, Down(sinks), labels)
    requires i < |SinksNow(RunOf(log, Down(sinks), labels))|
    requires var s := SinksNow(RunOf(log, Down(sinks), labels))[i];
             s.Blob? ==> multiset(names) == multiset(s.dir.Keys)
    ensures HoldsTheSource(log, SinksNow(RunOf(log, Down(sinks), labels))[i], names)
  {
    hide Fresh, HonestRun, RunOf, HoldsTheSource, Sound;
    forall k | 0 <= k < |sinks|
      ensures Sound(log, sinks[k])
    {
      FreshIsSound(log, sinks[k]);
    }
    RunKeeps(log, Down(sinks), labels);
    var w := RunOf(log, Down(sinks), labels);
    if w.Up? {
      CurrentIsSound(log, w.tee, w.expected);
    }
    SoundHoldsTheSource(log, SinksNow(w)[i], names);
  }
}
