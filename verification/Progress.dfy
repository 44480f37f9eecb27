/** What a mirror comes to when nothing outside fails: every start and every turn of
    the loop succeeds, except for the reasons that the source and the destinations
    themselves give; and a run fills its destinations.

    Timers may be due at any time, and a drift check with them. */
module Progress {
  import opened Records
  import opened Chain
  import opened Views
  import opened BlobSinks
  import opened Outcomes
  import opened Sinks
  import opened Tees
  import opened Mirrors
  import opened Alignments

  // ---------- one sink ----------

  /** Every put is stored and answered, every produce lands and is acknowledged. */
  predicate IsCalm(c: Choice) {
    c.env.dailyPut.Stored? && c.env.put.Stored? && c.produce.Landed? && c.reachable
  }

  predicate AllCalm(c: seq<Choice>) {
    forall i :: 0 <= i < |c| ==> IsCalm(c[i])
  }

  /** Only a snapshot destination refuses a record, for its key. */
  predicate CanTake(s: Sink, r: Record) {
    s.Blob? && s.spec.snapshots ==> HasTextKey(r)
  }

  lemma {:induction false} CalmWrite(log: seq<Record>, s: Sink, r: Record, c: Choice)
    requires Ascending(log) && Live(log, s) && DeliversNext(log, Position(s), r) && IsCalm(c)
    requires s.Kafka? ==> r.offset == Position(s)
    ensures WriteTo(s, r, c).error == if CanTake(s, r) then None else Some(Rejected)
  {
    hide Write, Fits, DeliversNext, HasTextKey;
    if s.Blob? {
      var chain :| Fits(log, s.spec, s.dir, chain, s.live);
      WriteComesTo(log, s.spec, s.dir, chain, s.live, r, c.env);
    } else {
      RangeOfDelivered(log, Position(s), r);
    }
  }

  lemma {:induction false} CalmAsk(log: seq<Record>, s: Sink, c: Choice)
    requires Ascending(log) && Live(log, s) && IsCalm(c)
    ensures Ask(s, c).error == None
  {
    hide Idle, Fits;
    if s.Blob? {
      var chain :| Fits(log, s.spec, s.dir, chain, s.live);
      IdleComesTo(log, s.spec, s.dir, chain, s.live, c.env);
    }
  }

  lemma {:induction false} CalmFlush(log: seq<Record>, s: Sink, c: Choice)
    requires Ascending(log) && Live(log, s) && IsCalm(c)
    ensures FlushSink(s, c).error == None
  {
    hide FlushNow, Fits;
    if s.Blob? {
      var chain :| Fits(log, s.spec, s.dir, chain, s.live);
      FlushNowComesTo(log, s.spec, s.dir, chain, s.live, c.env);
    }
  }

  /** No sink takes a record below its position. */
  lemma {:induction false} NothingIsTakenAgain(log: seq<Record>, s: Sink, r: Record, c: Choice)
    requires Ascending(log) && Live(log, s) && r.offset < Position(s)
    ensures WriteTo(s, r, c).error.Some?
  {
    hide Write, Fits, HasTextKey;
    if s.Blob? {
      var chain :| Fits(log, s.spec, s.dir, chain, s.live);
      BelowIsRefused(log, s.spec, s.dir, chain, s.live, r, c.env);
    }
  }

  // ---------- the tee ----------

  /** No destination that still lacks the record refuses it. */
  predicate AllCanTake(t: Tee, r: Record)
    requires IsTee(t)
  {
    forall i :: 0 <= i < |t.sinks| && Takes(t, i, r) ==> CanTake(t.sinks[i], r)
  }

  lemma {:induction false} OneError(dids: seq<Did>, e: SinkError)
    requires forall i :: 0 <= i < |dids| ==> dids[i].error == None || dids[i].error == Some(e)
    ensures FirstError(dids) == None || FirstError(dids) == Some(e)
  {
    var first := FirstError(dids);
    if first.Some? {
      var i :| 0 <= i < |dids| && dids[i].error == first;
    }
  }

  lemma {:induction false} CalmTeeWrite(log: seq<Record>, t: Tee, expected: nat, r: Record, c: seq<Choice>)
    requires Ascending(log) && TeeFits(log, t, expected) && |c| == |t.sinks| && AllCalm(c)
    requires DeliversNext(log, expected, r) && (r.offset == expected || TeeAllowsHoles(t))
    ensures TeeWrite(t, r, c).error == if AllCanTake(t, r) then None else Some(Rejected)
  {
    hide Live, WriteTo, DeliversNext, CanTake, IsCalm, Reported;
    var dids := Fan(t, r, c);
    RangeOfDelivered(log, expected, r);
    forall i | 0 <= i < |t.sinks|
      ensures dids[i].error == if Takes(t, i, r) && !CanTake(t.sinks[i], r) then Some(Rejected) else None
    {
      if Takes(t, i, r) {
        DeliveredFromFurtherOn(log, expected, t.heads[i], r);
        CalmWrite(log, t.sinks[i], r, c[i]);
      }
    }
    OneError(dids, Rejected);
  }

  lemma {:induction false} CalmTeeFlush(log: seq<Record>, t: Tee, expected: nat, c: seq<Choice>)
    requires Ascending(log) && Current(log, t, expected) && |c| == |t.sinks| && AllCalm(c)
    ensures TeeFlush(t, c).error == None
  {
    hide Live, FlushSink, IsCalm;
    forall i | 0 <= i < |t.sinks|
      ensures Flushed(t, c)[i].error == None
    {
      CalmFlush(log, t.sinks[i], c[i]);
    }
  }

  lemma {:induction false} CalmTeeAsk(log: seq<Record>, t: Tee, expected: nat, c: seq<Choice>, i: nat)
    requires Ascending(log) && Current(log, t, expected) && |c| == |t.sinks| && i <= |t.sinks| && AllCalm(c)
    ensures AskFrom(t, c, i).error == None
    decreases |t.sinks| - i
  {
    hide Live, Sound, Ask, IsCalm;
    if i < |t.sinks| {
      CalmAsk(log, t.sinks[i], c[i]);
      AskKeeps(log, t.sinks[i], c[i]);
      var did := Ask(t.sinks[i], c[i]);
      var asked := t.(sinks := t.sinks[i := did.sink], heads := t.heads[i := Position(did.sink)]);
      CalmTeeAsk(log, asked, expected, c, i + 1);
    }
  }

  // ---------- one turn of the loop ----------

  /** A turn that nothing outside disturbs fails for exactly three reasons: a hole in front of a
      Kafka partition, a record whose key a snapshot cannot hold, and a cursor left behind. */
  lemma {:induction false} TurnComesTo(log: seq<Record>, t: Tee, expected: nat, event: Event, c: seq<Choice>)
    requires Ascending(log) && TeeFits(log, t, expected) && |c| == |t.sinks| && AllCalm(c)
    requires event.Polled? ==> DeliversNext(log, expected, event.record)
    ensures React(t, expected, event, c).failure ==
            match event
            case ShutdownRequested => None
            case PolledNothing =>
              if Lagging(t, expected) then Some(DestinationDrift(expected, Reported(t))) else None
            case Polled(r) =>
              if r.offset > expected && !TeeAllowsHoles(t) then Some(SourceGapAboveExpected(expected, r.offset))
              else if AllCanTake(t, r) then None
              else Some(OfSink(Rejected))
    ensures React(t, expected, event, c).failure == None && !event.ShutdownRequested? ==>
              && React(t, expected, event, c).world.Up?
              && React(t, expected, event, c).world.expected
                 == if event.Polled? then event.record.offset + 1 else expected
  {
    hide Live, AllCalm, TeeWrite, AskFrom, TeeFlush, AllCanTake, DeliversNext;
    match event
    case ShutdownRequested => CalmTeeFlush(log, t, expected, c);
    case PolledNothing =>
      CalmTeeAsk(log, t, expected, c, 0);
      AskFromKeeps(log, t, expected, c, 0);
    case Polled(r) =>
      RangeOfDelivered(log, expected, r);
      if r.offset == expected || TeeAllowsHoles(t) {
        CalmTeeWrite(log, t, expected, r, c);
      }
  }

  // ---------- starts ----------

  /** No destination, and not the floor, is below `low`. */
  predicate AllAtOrAbove(t: Tee, low: nat) {
    (t.cursor.Some? ==> low <= t.cursor.value) && forall i :: 0 <= i < |t.heads| ==> low <= t.heads[i]
  }

  lemma {:induction false} ReportedAbove(t: Tee, low: nat)
    requires IsTee(t)
    ensures Reported(t) >= low <==> AllAtOrAbove(t, low)
  {
    assert forall i :: 0 <= i < |t.heads| ==> t.heads[i] in t.heads;
  }

  predicate SomeAbove(t: Tee, high: nat) {
    exists i :: 0 <= i < |t.heads| && t.heads[i] > high
  }

  lemma {:induction false} FurthestAbove(t: Tee, high: nat)
    requires IsTee(t)
    ensures Furthest(t) > high <==> SomeAbove(t, high)
  {
    assert forall i :: 0 <= i < |t.heads| ==> t.heads[i] in t.heads;
  }

  /** What a start comes to that nothing outside disturbs: a destination past the source's end is
      refused first; then one below its beginning, if it takes no compacted source; then one that
      cannot be aligned. Any other start goes on from the slowest destination or the floor, or
      from the low watermark if that is further. */
  lemma {:induction false} StartComesTo(log: seq<Record>, w: World, l: Label)
    requires Ascending(log) && Good(log, w) && Enabled(w, l) && Honest(log, w, l) && IsWilling(w, l)
    ensures ReopenedAll(w.sinks, l.names).Some?
    ensures var t, s := StartTee(w, l), Step(w, l);
            && (s.failure.Some? && s.failure.value.SinkAheadOfSource? <==> SomeAbove(t, l.high))
            && (s.failure.Some? && s.failure.value.SourceCompactedBelowExpected? <==>
                  !SomeAbove(t, l.high) && !AllAtOrAbove(t, l.low) && !TeeAllowsCompactedSource(t))
            && (s.failure == Some(OfSink(Inconsistent)) <==> AlignsPast(w, l))
            && (s.failure == None <==>
                  && !SomeAbove(t, l.high) && !AlignsPast(w, l)
                  && (AllAtOrAbove(t, l.low) || TeeAllowsCompactedSource(t)))
            && (s.failure == None ==>
                  && s.world.Up?
                  && (if AllAtOrAbove(t, l.low) then s.world.tee == t && s.world.expected == Reported(t)
                      else s.world.expected == l.low))
  {
    hide Live, Sound, Reopened, Empty, AskFrom, TeeAlign, Reported, Furthest, Good, Honest, ReopenedAll;
    StartsWillingly(log, w, l);
    AllReopen(log, w, l);
    AlignFailsIff(log, w, l);
    var t := StartTee(w, l);
    ReportedAbove(t, l.low);
    FurthestAbove(t, l.high);
    if TeeAllowsCompactedSource(t) {
      AlignSucceedsIff(log, t, l.low);
    }
  }

  /** Whatever happens outside: a mirror that is up after a start has no destination past the
      source's end, and none below its beginning that takes no compacted source. */
  lemma {:induction false} UpIsInside(log: seq<Record>, w: World, l: Label)
    requires Ascending(log) && Good(log, w) && Enabled(w, l) && Honest(log, w, l) && l.Start?
    requires Step(w, l).world.Up?
    ensures ReopenedAll(w.sinks, l.names).Some?
    ensures var t := StartTee(w, l);
            && !SomeAbove(t, l.high)
            && (AllAtOrAbove(t, l.low) || TeeAllowsCompactedSource(t))
            && Step(w, l).world.expected == if AllAtOrAbove(t, l.low) then Reported(t) else l.low
  {
    hide Live, Sound, Reopened, Empty, AskFrom, TeeAlign, Reported, Furthest, Grown;
    AllReopen(log, w, l);
    var t := StartTee(w, l);
    TeeOpenKeeps(log, t.sinks, l.floor, l.opening);
    var tee := TeeOpen(t.sinks, l.floor, l.opening).tee;
    assert tee.heads == t.heads;
    SameReport(t, tee);
    SameKind(t.sinks, tee.sinks);
    AskFromKeeps(log, tee, Reported(tee), l.first, 0);
    var asked := TeeAsk(tee, l.first).tee;
    SameReport(tee, asked);
    SameKind(tee.sinks, asked.sinks);
    ReportedAbove(t, l.low);
    FurthestAbove(t, l.high);
  }

  lemma {:induction false} SameReport(t: Tee, t': Tee)
    requires IsTee(t) && IsTee(t') && t.heads == t'.heads && t.cursor == t'.cursor
    ensures Reported(t) == Reported(t') && Furthest(t) == Furthest(t')
  {
  }

  // ---------- whatever the source and the destinations do ----------

  /** The inner sinks are asked up to the first that fails or has gone back, and each that was
      asked is believed. */
  lemma {:induction false} AskFindsEach(t: Tee, c: seq<Choice>, i: nat)
    requires IsTee(t) && |c| == |t.sinks| && i <= |t.sinks|
    ensures var did := AskFrom(t, c, i);
            && (did.error.None? <==>
                  forall k :: i <= k < |t.sinks| ==>
                    Ask(t.sinks[k], c[k]).error.None? && t.heads[k] <= Position(Ask(t.sinks[k], c[k]).sink))
            && (did.error.None? ==>
                  && did.tee.cursor == t.cursor
                  && forall k :: 0 <= k < |t.sinks| ==>
                       did.tee.heads[k] == if k < i then t.heads[k] else Position(Ask(t.sinks[k], c[k]).sink))
            && (did.error.Some? ==>
                  exists k :: i <= k < |t.sinks| &&
                    did.error == if Ask(t.sinks[k], c[k]).error.Some? then Ask(t.sinks[k], c[k]).error
                      else Some(Inconsistent))
    decreases |t.sinks| - i
  {
    hide Ask, Position;
    if i < |t.sinks| {
      var did := Ask(t.sinks[i], c[i]);
      if did.error.None? && t.heads[i] <= Position(did.sink) {
        var asked := t.(sinks := t.sinks[i := did.sink], heads := t.heads[i := Position(did.sink)]);
        AskFindsEach(asked, c, i + 1);
        assert forall k :: i + 1 <= k < |t.sinks| ==> asked.sinks[k] == t.sinks[k] && asked.heads[k] == t.heads[k];
      }
    }
  }

  /** Where inner sink `i` is when it is asked. */
  function PositionFound(t: Tee, c: seq<Choice>, i: nat): nat
    requires IsTee(t) && |c| == |t.sinks| && i < |t.sinks|
  {
    Position(Ask(t.sinks[i], c[i]).sink)
  }

  /** An idle turn that the mirror survives has found every destination at or past what it wrote
      there and at or past the loop, and, unless a cursor says so, one exactly there: a destination
      that went back, and one that alone was slowest and moved, end the run. */
  lemma {:induction false} IdleFindsWhatMoved(t: Tee, expected: nat, c: seq<Choice>)
    requires IsTee(t) && |c| == |t.sinks| && React(t, expected, PolledNothing, c).world.Up?
    ensures forall i :: 0 <= i < |t.sinks| ==>
              t.heads[i] <= PositionFound(t, c, i) && expected <= PositionFound(t, c, i)
    ensures t.cursor == Some(expected) || exists i :: 0 <= i < |t.sinks| && PositionFound(t, c, i) == expected
  {
    hide AskFrom, Ask, Position;
    AskFindsEach(t, c, 0);
    var asked := TeeAsk(t, c).tee;
    assert forall i :: 0 <= i < |asked.heads| ==> asked.heads[i] in asked.heads;
  }

  /** The records the loop has taken: upwards from `expected`, and one by one without holes. */
  ghost predicate TakenInOrder(events: seq<(Event, seq<Choice>)>, expected: nat, holes: bool)
    decreases |events|
  {
    events == []
    || match events[0].0
       case Polled(r) =>
         && expected <= r.offset && (holes || r.offset == expected)
         && TakenInOrder(events[1..], r.offset + 1, holes)
       case PolledNothing => TakenInOrder(events[1..], expected, holes)
       case ShutdownRequested => false
  }

  lemma {:induction false} HolesStay(t: Tee, expected: nat, event: Event, c: seq<Choice>)
    requires IsTee(t) && |c| == |t.sinks| && React(t, expected, event, c).world.Up?
    ensures TeeAllowsHoles(React(t, expected, event, c).world.tee) <==> TeeAllowsHoles(t)
    ensures IsTee(React(t, expected, event, c).world.tee)
    ensures |React(t, expected, event, c).world.tee.sinks| == |t.sinks|
  {
    hide Write, Idle;
    match event
    case Polled(r) =>
      forall i | 0 <= i < |t.sinks|
        ensures AllowsHoles(Fan(t, r, c)[i].sink) <==> AllowsHoles(t.sinks[i])
      {
      }
      assert forall i :: 0 <= i < |t.sinks| ==> SinksOf(Fan(t, r, c))[i] == Fan(t, r, c)[i].sink;
      var sinks := SinksOf(Fan(t, r, c));
      assert (forall i :: 0 <= i < |sinks| ==> AllowsHoles(sinks[i])) <==> TeeAllowsHoles(t);
    case PolledNothing => AskKeepsKinds(t, c, 0);
    case ShutdownRequested =>
  }

  lemma {:induction false} AskKeepsKinds(t: Tee, c: seq<Choice>, i: nat)
    requires IsTee(t) && |c| == |t.sinks| && i <= |t.sinks|
    ensures TeeAllowsHoles(AskFrom(t, c, i).tee) <==> TeeAllowsHoles(t)
    decreases |t.sinks| - i
  {
    hide Idle;
    if i < |t.sinks| {
      var did := Ask(t.sinks[i], c[i]);
      var asked := t.(sinks := t.sinks[i := did.sink]);
      assert AllowsHoles(did.sink) <==> AllowsHoles(t.sinks[i]);
      assert forall k :: 0 <= k < |t.sinks| ==> (AllowsHoles(asked.sinks[k]) <==> AllowsHoles(t.sinks[k]));
      assert TeeAllowsHoles(asked) <==> TeeAllowsHoles(t);
      if did.error.None? && Position(did.sink) >= t.heads[i] {
        AskKeepsKinds(asked.(heads := t.heads[i := Position(did.sink)]), c, i + 1);
      }
    }
  }

  /** Whatever a source delivers: a loop that is still up has taken strictly ascending offsets from
      where it started, and without a hole if a destination allows none. A replay or a reordering
      has ended it. */
  lemma {:induction false} LoopTakesInOrder(t: Tee, expected: nat, events: seq<(Event, seq<Choice>)>)
    requires IsTee(t) && forall k :: 0 <= k < |events| ==> |events[k].1| == |t.sinks|
    requires Loop(Stepped(Up(t, expected), None), events).world.Up?
    ensures TakenInOrder(events, expected, TeeAllowsHoles(t))
    decreases |events|
  {
    hide TeeWrite, AskFrom, TeeAllowsHoles, Reported;
    if events != [] {
      var (event, c) := events[0];
      var s := React(t, expected, event, c);
      assert s.world.Up?;
      HolesStay(t, expected, event, c);
      LoopTakesInOrder(s.world.tee, s.world.expected, events[1..]);
    }
  }

  // ---------- every prefix is reached ----------

  /** Up to `n`, the destinations take every record: keys for the snapshots, no hole for Kafka. */
  ghost predicate Fillable(log: seq<Record>, sinks: seq<Sink>, n: nat) {
    && n <= |log|
    && forall i, k :: 0 <= i < |sinks| && 0 <= k < n ==>
         CanTake(sinks[i], log[k]) && (sinks[i].Kafka? ==> log[k].offset == k)
  }

  /** The position after the first `n` records. */
  function PositionAfter(log: seq<Record>, n: nat): nat
    requires n <= |log|
  {
    if n == 0 then 0 else log[n - 1].offset + 1
  }

  /** What a sink has got of the first `n` records, buffered or stored. */
  ghost predicate HasGot(log: seq<Record>, s: Sink, n: nat)
    requires n <= |log|
  {
    && Position(s) == PositionAfter(log, n)
    && (s.Kafka? ==> s.partition == log[..n])
    && (s.Blob? && s.spec.snapshots ==> s.live.view == Fold(log[..n]))
  }

  ghost predicate AllHaveGot(log: seq<Record>, t: Tee, n: nat)
    requires n <= |log|
  {
    && IsTee(t) && t.cursor == None
    && forall i :: 0 <= i < |t.sinks| ==> t.heads[i] == Position(t.sinks[i]) && HasGot(log, t.sinks[i], n)
  }

  /** A run without a failure, at whose end the mirror is up and has got the first `n` records. */
  ghost predicate Reaches(log: seq<Record>, sinks: seq<Sink>, labels: seq<Label>, n: nat)
    requires n <= |log|
  {
    && HonestRun(log, Down(sinks), labels) && Failures(log, Down(sinks), labels) == []
    && var w := RunOf(log, Down(sinks), labels);
    && w.Up? && w.expected == PositionAfter(log, n) && |w.tee.sinks| == |sinks| && AllHaveGot(log, w.tee, n)
  }

  lemma {:induction false} FreshHasGot(log: seq<Record>, s: Sink)
    requires Ascending(log) && Fresh(s)
    ensures Reopened(s, []).Some? && HasGot(log, Reopened(s, []).value, 0)
  {
    hide Open, Holds, FitsState, BlobSinks.Fits;
    if s.Blob? {
      FreshIsSound(log, s);
      FreshHolds(log, s);
      assert s.dir.Keys == {};
      OpenFits(log, s.spec, s.dir, [], []);
      OpenIsEmpty(s.spec, s.dir);
    }
    assert log[..0] == [];
  }

  lemma {:induction false} FreshHolds(log: seq<Record>, s: Sink)
    requires Ascending(log) && Fresh(s) && s.Blob?
    ensures Holds(log, s.spec, s.dir, [])
  {
    assert Names([]) == [] && s.dir.Keys == {};
  }

  lemma {:induction false} OpenIsEmpty(spec: Spec, dir: Directory)
    requires Open(spec, dir, []).Some?
    ensures Open(spec, dir, []).value.view == map[]
  {
    assert ParseAll([], spec.ext, true) == Ok([]);
    assert Sorted([], spec.snapshots) == [];
  }

  lemma {:induction false} StartReaches(log: seq<Record>, sinks: seq<Sink>)
    requires Ascending(log) && sinks != [] && forall k :: 0 <= k < |sinks| ==> Fresh(sinks[k])
    ensures exists labels :: Reaches(log, sinks, labels, 0)
  {
    hide Fresh, Reopened, Begin, TeeOpen, Position, Sound;
    var n := |sinks|;
    var w, l := Down(sinks), Start(seq(n, i => []), None, 0, 0, AllWilling(n), AllWilling(n));
    forall k | 0 <= k < n
      ensures Sound(log, sinks[k])
      ensures sinks[k].Blob? ==> multiset(l.names[k]) == multiset(sinks[k].dir.Keys)
      ensures Reopened(sinks[k], l.names[k]).Some? && HasGot(log, Reopened(sinks[k], l.names[k]).value, 0)
    {
      FreshIsSound(log, sinks[k]);
      FreshHasGot(log, sinks[k]);
      FreshIsUnlisted(sinks[k]);
    }
    StartComesTo(log, w, l);
    var t := StartTee(w, l);
    assert forall k :: 0 <= k < n ==> t.heads[k] == 0;
    assert t.heads[0] in t.heads && Reported(t) in t.heads;
    assert Step(w, l) == Stepped(Up(t, 0), None);
    EmptyRun(log, w);
    OneMoreStep(log, w, [], l);
    FailuresMore(log, w, [], l);
    assert Reaches(log, sinks, [] + [l], 0);
  }

  lemma {:induction false} FreshIsUnlisted(s: Sink)
    requires Fresh(s)
    ensures s.Blob? ==> multiset([]) == multiset(s.dir.Keys)
  {
    assert s.Blob? ==> s.dir.Keys == {};
  }

  lemma {:induction false} EmptyRun(log: seq<Record>, w: World)
    ensures HonestRun(log, w, []) && RunOf(log, w, []) == w && Failures(log, w, []) == []
  {
  }

  lemma {:induction false} FailuresMore(log: seq<Record>, w: World, labels: seq<Label>, l: Label)
    requires HonestRun(log, w, labels) && Enabled(RunOf(log, w, labels), l) && Honest(log, RunOf(log, w, labels), l)
    requires HonestRun(log, w, labels + [l])
    ensures var f := Step(RunOf(log, w, labels), l).failure;
            Failures(log, w, labels + [l]) == Failures(log, w, labels) + if f.Some? then [f.value] else []
    decreases |labels|
  {
    hide Step, Enabled, Honest, HonestRun, RunOf, Failures;
    var all := labels + [l];
    FirstFailure(log, w, all);
    if labels == [] {
      EmptyRun(log, w);
      assert all == [l] && all[1..] == [];
      EmptyRun(log, Step(w, l).world);
    } else {
      FirstFailure(log, w, labels);
      assert all[1..] == labels[1..] + [l];
      FailuresMore(log, Step(w, labels[0]).world, labels[1..], l);
    }
  }

  lemma {:induction false} FirstFailure(log: seq<Record>, w: World, labels: seq<Label>)
    requires HonestRun(log, w, labels) && labels != []
    ensures Enabled(w, labels[0]) && HonestRun(log, Step(w, labels[0]).world, labels[1..])
    ensures RunOf(log, w, labels) == RunOf(log, Step(w, labels[0]).world, labels[1..])
    ensures var s := Step(w, labels[0]);
            Failures(log, w, labels)
            == (if s.failure.Some? then [s.failure.value] else []) + Failures(log, s.world, labels[1..])
  {
    hide Step, Enabled, Honest;
  }

  lemma {:induction false} DeliversAt(log: seq<Record>, n: nat)
    requires Ascending(log) && 0 < n <= |log|
    ensures DeliversNext(log, PositionAfter(log, n - 1), log[n - 1])
    ensures PositionAfter(log, n - 1) <= log[n - 1].offset
  {
    FirstIs(log, PositionAfter(log, n - 1), n - 1);
  }

  lemma {:induction false} FlushKeepsView(spec: Spec, s: State, dir: Directory, put: Put)
    requires s.buffer != [] && Flush(spec, s, dir, put).error.None?
    ensures Flush(spec, s, dir, put).state.view == s.view
  {
  }

  lemma {:induction false} WriteAppliesView(spec: Spec, s: State, dir: Directory, r: Record, env: Env)
    requires spec.snapshots && Write(spec, s, dir, r, env).error.None?
    ensures Write(spec, s, dir, r, env).state.view == Apply(s.view, r)
  {
    hide Flush, Apply, HasTextKey, ByteSize;
    if env.dailyDue && s.buffer != [] {
      FlushKeepsView(spec, s, dir, env.dailyPut);
    }
    var daily := TickDaily(spec, s, dir, env);
    if daily.error.None? && DueTrigger(spec, Accept(spec, daily.state, r), env.timeUp).Some? {
      FlushKeepsView(spec, Accept(spec, daily.state, r), daily.dir, env.put);
    }
  }

  lemma {:induction false} GetsNext(log: seq<Record>, s: Sink, n: nat, c: Choice)
    requires Ascending(log) && 0 < n <= |log| && Live(log, s) && HasGot(log, s, n - 1)
    requires s.Kafka? ==> log[n - 1].offset == Position(s)
    requires WriteTo(s, log[n - 1], c).error.None?
    ensures HasGot(log, WriteTo(s, log[n - 1], c).sink, n)
  {
    hide Live, Sound, Write, Fold, Apply, DeliversNext, Position;
    var r := log[n - 1];
    DeliversAt(log, n);
    WriteToKeeps(log, s, r, c);
    ContentsGetNext(log, s, n, c);
  }

  lemma {:induction false} ContentsGetNext(log: seq<Record>, s: Sink, n: nat, c: Choice)
    requires 0 < n <= |log| && HasGot(log, s, n - 1) && WriteTo(s, log[n - 1], c).error.None?
    ensures var s' := WriteTo(s, log[n - 1], c).sink;
            && (s'.Kafka? ==> s'.partition == log[..n])
            && (s'.Blob? && s'.spec.snapshots ==> s'.live.view == Fold(log[..n]))
  {
    hide Write, Fold, Apply;
    var r := log[n - 1];
    assert log[..n] == log[..n - 1] + [r];
    if s.Blob? && s.spec.snapshots {
      WriteAppliesView(s.spec, s.live, s.dir, r, c.env);
      FoldOfConcat(log[..n - 1], r);
    }
  }

  /** One more record. */
  lemma {:induction false} TurnGets(log: seq<Record>, t: Tee, n: nat, c: seq<Choice>)
    requires Ascending(log) && 0 < n <= |log| && TeeFits(log, t, PositionAfter(log, n - 1)) && |c| == |t.sinks|
    requires AllHaveGot(log, t, n - 1) && Fillable(log, t.sinks, n) && AllCalm(c)
    ensures var s := React(t, PositionAfter(log, n - 1), Polled(log[n - 1]), c);
            && s.failure == None && s.world.Up? && s.world.expected == PositionAfter(log, n)
            && |s.world.tee.sinks| == |t.sinks| && AllHaveGot(log, s.world.tee, n)
  {
    hide Live, WriteTo, DeliversNext, CanTake, IsCalm, Reported, HasGot;
    var r, expected := log[n - 1], PositionAfter(log, n - 1);
    DeliversAt(log, n);
    OneByOne(log, t, n);
    TurnComesTo(log, t, expected, Polled(r), c);
    var dids := Fan(t, r, c);
    var t' := TeeWrite(t, r, c).tee;
    forall i | 0 <= i < |t.sinks|
      ensures t'.heads[i] == Position(t'.sinks[i]) && HasGot(log, t'.sinks[i], n)
    {
      PositionIs(log, t.sinks[i], n - 1);
      assert Takes(t, i, r) && dids[i] == WriteTo(t.sinks[i], r, c[i]);
      assert dids[i].error.None?;
      GetsNext(log, t.sinks[i], n, c[i]);
      PositionIs(log, t'.sinks[i], n);
    }
  }

  lemma {:induction false} PositionIs(log: seq<Record>, s: Sink, n: nat)
    requires n <= |log| && HasGot(log, s, n)
    ensures Position(s) == PositionAfter(log, n)
  {
  }

  lemma {:induction false} OneByOne(log: seq<Record>, t: Tee, n: nat)
    requires Ascending(log) && 0 < n <= |log| && IsTee(t) && Fillable(log, t.sinks, n)
    ensures log[n - 1].offset == PositionAfter(log, n - 1) || TeeAllowsHoles(t)
    ensures AllCanTake(t, log[n - 1])
    ensures forall i :: 0 <= i < |t.sinks| && t.sinks[i].Kafka? ==> log[n - 1].offset == PositionAfter(log, n - 1)
  {
    hide CanTake;
    if i :| 0 <= i < |t.sinks| && t.sinks[i].Kafka? {
      assert log[n - 1].offset == n - 1;
      assert n > 1 ==> log[n - 2].offset == n - 2;
    }
  }

  /** What can be filled depends on what the destinations are, not on what they hold. */
  lemma {:induction false} StaysFillable(log: seq<Record>, a: seq<Sink>, b: seq<Sink>, n: nat)
    requires AllGrown(a, b) && Fillable(log, a, n)
    ensures Fillable(log, b, n)
  {
    hide HasTextKey;
    forall i, k | 0 <= i < |b| && 0 <= k < n
      ensures CanTake(b[i], log[k]) && (b[i].Kafka? ==> log[k].offset == k)
    {
      assert Grown(a[i], b[i]) && CanTake(a[i], log[k]);
    }
  }

  lemma {:induction false} PrefixIsReached(log: seq<Record>, sinks: seq<Sink>, n: nat)
    requires Ascending(log) && sinks != [] && (forall k :: 0 <= k < |sinks| ==> Fresh(sinks[k]))
    requires Fillable(log, sinks, n)
    ensures exists labels :: Reaches(log, sinks, labels, n)
    decreases n
  {
    hide Fresh, Reaches;
    if n == 0 {
      StartReaches(log, sinks);
    } else {
      FewerFillable(log, sinks, n);
      PrefixIsReached(log, sinks, n - 1);
      var labels :| Reaches(log, sinks, labels, n - 1);
      ReachesNext(log, sinks, labels, n);
    }
  }

  lemma {:induction false} ReachesNext(log: seq<Record>, sinks: seq<Sink>, labels: seq<Label>, n: nat)
    requires Ascending(log) && sinks != [] && (forall k :: 0 <= k < |sinks| ==> Fresh(sinks[k]))
    requires 0 < n <= |log| && Fillable(log, sinks, n) && Reaches(log, sinks, labels, n - 1)
    ensures Reaches(log, sinks, labels + [Turn(Polled(log[n - 1]), AllWilling(|sinks|))], n)
  {
    hide Fresh, React, Fillable, AllHaveGot, DeliversNext, AllGrown, TeeFits, HonestRun, RunOf, Failures;
    var w, c := RunOf(log, Down(sinks), labels), AllWilling(|sinks|);
    UpIsGood(log, sinks, labels);
    StaysFillable(log, sinks, w.tee.sinks, n);
    DeliversAt(log, n);
    TeeOfRun(log, w.tee, n - 1);
    TurnGets(log, w.tee, n, c);
    OneMoreStep(log, Down(sinks), labels, Turn(Polled(log[n - 1]), c));
    FailuresMore(log, Down(sinks), labels, Turn(Polled(log[n - 1]), c));
  }

  lemma {:induction false} TeeOfRun(log: seq<Record>, t: Tee, n: nat)
    requires n <= |log| && AllHaveGot(log, t, n)
    ensures IsTee(t)
  {
  }

  lemma {:induction false} UpIsGood(log: seq<Record>, sinks: seq<Sink>, labels: seq<Label>)
    requires Ascending(log) && sinks != [] && (forall k :: 0 <= k < |sinks| ==> Fresh(sinks[k]))
    requires HonestRun(log, Down(sinks), labels) && RunOf(log, Down(sinks), labels).Up?
    ensures var w := RunOf(log, Down(sinks), labels);
            TeeFits(log, w.tee, w.expected) && AllGrown(sinks, w.tee.sinks)
  {
    hide Fresh, Sound, HonestRun, RunOf, TeeFits, AllGrown;
    forall k | 0 <= k < |sinks|
      ensures Sound(log, sinks[k])
    {
      FreshIsSound(log, sinks[k]);
    }
    RunKeeps(log, Down(sinks), labels);
  }

  lemma {:induction false} FewerFillable(log: seq<Record>, sinks: seq<Sink>, n: nat)
    requires Fillable(log, sinks, n) && n > 0
    ensures Fillable(log, sinks, n - 1)
  {
  }

  /** A destination holds the first `n` records: a partition as they are, an append chain as its
      objects one after the other, a snapshot chain as the fold its last object reads back to. */
  ghost predicate HoldsFirst(log: seq<Record>, s: Sink, n: nat)
    requires Ascending(log) && n <= |log|
  {
    match s
    case Nowhere(_) => true
    case Kafka(partition) => partition == log[..n]
    case Blob(spec, dir, _) =>
      exists chain :: Holds(log, spec, dir, chain) && ChainHoldsFirst(log, spec, dir, chain, n)
  }

  ghost predicate ChainHoldsFirst(log: seq<Record>, spec: Spec, dir: Directory, chain: seq<ChainObject>, n: nat)
    requires n <= |log|
  {
    && (forall i :: 0 <= i < |chain| ==> chain[i].name in dir)
    && if !spec.snapshots then Concatenated(dir, chain) == log[..n]
       else if chain == [] then Fold(log[..n]) == map[]
       else ReadView(dir[chain[|chain| - 1].name]) == Some(Fold(log[..n]))
  }

  lemma {:induction false} EmptyHoldsFirst(log: seq<Record>, s: Sink, n: nat)
    requires Ascending(log) && n <= |log| && Live(log, s) && Empty(s) && HasGot(log, s, n)
    ensures HoldsFirst(log, s, n)
  {
    hide HoldsFold, HoldsRange, Concatenated, Fold, ReadView, AllWritten, Delivered, Contiguous, Names, Apart, TextKeys;
    if s.Blob? {
      var chain :| BlobSinks.Fits(log, s.spec, s.dir, chain, s.live);
      InDirectory(s.spec, s.dir, chain);
      if s.spec.snapshots {
        LastIsTheView(log, s.spec, s.dir, chain, s.live);
      } else {
        ConcatenatedIsRange(log, s.dir, chain);
        FirstAfter(log, n);
      }
      assert ChainHoldsFirst(log, s.spec, s.dir, chain, n);
    }
  }

  lemma {:induction false} LastIsTheView(
      log: seq<Record>, spec: Spec, dir: Directory, chain: seq<ChainObject>, s: State)
    requires Ascending(log) && BlobSinks.Fits(log, spec, dir, chain, s) && spec.snapshots && s.buffer == []
    ensures if chain == [] then s.view == map[]
            else chain[|chain| - 1].name in dir && ReadView(dir[chain[|chain| - 1].name]) == Some(s.view)
  {
    hide Fold, ReadView, AllWritten, Delivered, Names, TextKeys;
    assert Delivered(log, chain) + [] == Delivered(log, chain);
    if chain == [] {
      NothingDelivered(log);
    } else {
      assert HoldsFold(log, dir, chain, |chain| - 1);
      assert chain[..|chain| - 1 + 1] == chain;
    }
  }

  lemma {:induction false} FirstAfter(log: seq<Record>, n: nat)
    requires Ascending(log) && n <= |log|
    ensures Range(log, 0, PositionAfter(log, n)) == log[..n]
  {
    FirstIs(log, PositionAfter(log, n), n);
    FirstIs(log, 0, 0);
  }

  /** A shutdown that nothing disturbs stores what there is and keeps what was got. */
  lemma {:induction false} ShutdownStores(log: seq<Record>, t: Tee, n: nat, c: seq<Choice>)
    requires Ascending(log) && n <= |log| && TeeFits(log, t, PositionAfter(log, n)) && |c| == |t.sinks|
    requires AllHaveGot(log, t, n) && AllCalm(c)
    ensures var s := React(t, PositionAfter(log, n), ShutdownRequested, c);
            && s.failure == None && s.world.Down? && |s.world.sinks| == |t.sinks|
            && forall i :: 0 <= i < |t.sinks| ==> HoldsFirst(log, s.world.sinks[i], n)
  {
    hide Live, FlushSink, IsCalm, HasGot, HoldsFirst;
    var expected := PositionAfter(log, n);
    TurnComesTo(log, t, expected, ShutdownRequested, c);
    ShutdownLeavesNothingBuffered(log, t, expected, c);
    var sinks := React(t, expected, ShutdownRequested, c).world.sinks;
    forall i | 0 <= i < |t.sinks|
      ensures HoldsFirst(log, sinks[i], n)
    {
      assert sinks[i] == FlushSink(t.sinks[i], c[i]).sink;
      assert Flushed(t, c)[i].error.None?;
      FlushKeepsGot(log, t.sinks[i], n, c[i]);
      EmptyHoldsFirst(log, sinks[i], n);
    }
  }

  lemma {:induction false} FlushKeepsGot(log: seq<Record>, s: Sink, n: nat, c: Choice)
    requires Ascending(log) && n <= |log| && Live(log, s) && HasGot(log, s, n) && FlushSink(s, c).error.None?
    ensures HasGot(log, FlushSink(s, c).sink, n)
  {
    hide Live, Flush, Fold;
    FlushSinkKeeps(log, s, c);
    if s.Blob? && s.live.buffer != [] {
      FlushKeepsView(s.spec, s.live, s.dir, c.env.put);
    }
  }

  /** Of every source, every prefix that the destinations can take is reached: there is a run from
      fresh destinations, without a failure, after which each of them holds exactly the first `n`
      records. */
  lemma {:induction false} EveryPrefixIsReached(log: seq<Record>, sinks: seq<Sink>, n: nat)
    requires Ascending(log) && sinks != [] && (forall k :: 0 <= k < |sinks| ==> Fresh(sinks[k]))
    requires n <= |log| && Fillable(log, sinks, n)
    ensures exists labels ::
              && HonestRun(log, Down(sinks), labels) && Failures(log, Down(sinks), labels) == []
              && var w := RunOf(log, Down(sinks), labels);
              && w.Down? && |w.sinks| == |sinks| && forall i :: 0 <= i < |sinks| ==> HoldsFirst(log, w.sinks[i], n)
  {
    hide Fresh, React, Fillable, AllHaveGot, HoldsFirst, AllGrown, TeeFits, HonestRun, RunOf, Failures;
    PrefixIsReached(log, sinks, n);
    var labels :| Reaches(log, sinks, labels, n);
    var w := RunOf(log, Down(sinks), labels);
    UpIsGood(log, sinks, labels);
    TeeOfRun(log, w.tee, n);
    var c := AllWilling(|sinks|);
    var l := Turn(ShutdownRequested, c);
    ShutdownStores(log, w.tee, n, c);
    OneMoreStep(log, Down(sinks), labels, l);
    FailuresMore(log, Down(sinks), labels, l);
    assert HonestRun(log, Down(sinks), labels + [l]);
  }
}
