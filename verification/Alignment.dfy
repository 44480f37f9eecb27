/** Starting below the source's low watermark: two ways in which it goes wrong, and
    that nothing else has to go wrong for them. */
module Alignments {
  import opened Records
  import opened Naming
  import opened Chain
  import opened Views
  import opened BlobSinks
  import opened Sinks
  import opened Tees
  import opened Mirrors

  function AllWilling(n: nat): seq<Choice> {
    seq(n, i => Willing())
  }

  // ---------- nothing else goes wrong ----------

  lemma {:induction false} AsksWillingly(s: Sink)
    requires Empty(s)
    ensures Ask(s, Willing()) == Did(s, None)
  {
  }

  lemma {:induction false} AllAskWillingly(t: Tee, i: nat)
    requires IsTee(t) && i <= |t.sinks| && AllEmpty(t.sinks)
    requires forall k :: 0 <= k < i ==> t.heads[k] == Position(t.sinks[k])
    requires forall k :: i <= k < |t.sinks| ==> t.heads[k] <= Position(t.sinks[k])
    ensures AskFrom(t, AllWilling(|t.sinks|), i) == TeeDid(t.(heads := Positions(t.sinks)), None)
    decreases |t.sinks| - i
  {
    hide Ask, Empty;
    if i == |t.sinks| {
      assert t.heads == Positions(t.sinks);
    } else {
      AsksWillingly(t.sinks[i]);
      var heads := t.heads[i := Position(t.sinks[i])];
      assert t.sinks[i := t.sinks[i]] == t.sinks;
      AllAskWillingly(t.(heads := heads), i + 1);
    }
  }

  /** A start that nothing outside disturbs. */
  predicate IsWilling(w: World, l: Label) {
    w.Down? && l.Start? && l.opening == l.first == AllWilling(|w.sinks|)
  }

  lemma {:induction false} AllReopen(log: seq<Record>, w: World, l: Label)
    requires Ascending(log) && Good(log, w) && Enabled(w, l) && Honest(log, w, l) && l.Start?
    ensures ReopenedAll(w.sinks, l.names).Some?
    ensures var t := StartTee(w, l); Current(log, t, 0) && AllEmpty(t.sinks) && |t.sinks| == |w.sinks|
  {
    hide Live, Sound, Reopened, Empty, Grown;
    forall i | 0 <= i < |w.sinks|
      ensures Reopened(w.sinks[i], l.names[i]).Some?
      ensures var s := Reopened(w.sinks[i], l.names[i]).value; Live(log, s) && Empty(s)
    {
      ReopenedIsLive(log, w.sinks[i], l.names[i]);
    }
  }

  lemma {:induction false} StartsWillingly(log: seq<Record>, w: World, l: Label)
    requires Ascending(log) && Good(log, w) && Enabled(w, l) && Honest(log, w, l) && IsWilling(w, l)
    ensures ReopenedAll(w.sinks, l.names).Some?
    ensures IsTee(StartTee(w, l)) && |StartTee(w, l).sinks| == |l.first|
    ensures Step(w, l) == Begin(StartTee(w, l), l.low, l.high, l.first)
    ensures TeeAsk(StartTee(w, l), l.first) == TeeDid(StartTee(w, l), None)
  {
    hide Live, Sound, Reopened, Empty, AskFrom, Begin, Grown, Ask;
    AllReopen(log, w, l);
    var t := StartTee(w, l);
    AllAskWillingly(t.(heads := seq(|t.sinks|, i => 0)), 0);
    AllAskWillingly(t, 0);
  }

  // ---------- a destination past the low watermark ----------

  /** A start that nothing outside disturbs fails as inconsistent exactly when it has to align a
      destination that is past the low watermark: the run loop looks only at the slowest. */
  lemma {:induction false} AlignFailsIff(log: seq<Record>, w: World, l: Label)
    requires Ascending(log) && Good(log, w) && Enabled(w, l) && Honest(log, w, l) && IsWilling(w, l)
    ensures Step(w, l).failure == Some(OfSink(Inconsistent)) <==> AlignsPast(w, l)
  {
    hide Live, Sound, Reopened, Empty, AskFrom, Step, TeeAlign, Position, Reported, Furthest;
    StartsWillingly(log, w, l);
    AllReopen(log, w, l);
    var t := StartTee(w, l);
    if TeeAllowsCompactedSource(t) {
      AlignSucceedsIff(log, t, l.low);
    }
  }

  const EXT := "parquet"

  function Snapshots(): Spec {
    Spec(EXT, true, None, false, 1, 1)
  }

  /** A snapshot destination as a crash leaves it. */
  function Left(dir: Directory): Sink {
    Blob(Snapshots(), dir, State(0, [], 0, map[], []))
  }

  function EmptyDirectory(): Directory {
    map[]
  }

  function NameOfFirst(): string {
    BlobFilename(0, 8, None, EXT)
  }

  /** A directory with one object: the snapshot of one record at offset 8. */
  function OneSnapshot(r: Record): Directory
    requires HasTextKey(r)
  {
    map[NameOfFirst() := Snapshot(map[r.key.value := r])]
  }

  lemma {:induction false} OneObjectHolds(r: Record)
    requires r.offset == 8 && HasTextKey(r) && r.value.Some?
    ensures Ascending([r])
    ensures Holds([r], Snapshots(), OneSnapshot(r), [ChainObject(NameOfFirst(), 0, 8, None)])
  {
    hide IsUtf8, BlobFilename, Snapshot, Holds, ByteSize;
    var log, s := [r], State(0, [], 0, map[], []);
    EmptyFits(log, s);
    assert First(log, 0) == 0;
    AcceptKeeps(log, Snapshots(), map[], [], s, r);
    var accepted := Accept(Snapshots(), s, r);
    assert accepted.buffer == [r] && accepted.view == map[r.key.value := r];
    HoldsMore(log, Snapshots(), map[], [], accepted);
    assert [] + [NextObject(Snapshots(), accepted)] == [ChainObject(NameOfFirst(), 0, 8, None)];
  }

  lemma {:induction false} EmptyFits(log: seq<Record>, s: State)
    requires Ascending(log) && s == State(0, [], 0, map[], [])
    ensures Fits(log, Snapshots(), map[], [], s)
  {
    EmptyHolds(log);
    NothingDelivered(log);
    NothingInRange(log, 0);
    assert Delivered(log, []) + [] == [];
    assert Names([]) == [] && TailOf([]) == [];
  }

  lemma {:induction false} ReopensAtEnd(log: seq<Record>, dir: Directory, chain: seq<ChainObject>, names: seq<string>)
    requires Ascending(log) && Holds(log, Snapshots(), dir, chain) && multiset(names) == multiset(dir.Keys)
    ensures Sound(log, Left(dir))
    ensures Reopened(Left(dir), names).Some?
    ensures var s := Reopened(Left(dir), names).value;
            s.Blob? && s.spec == Snapshots() && Position(s) == End(chain, 0)
  {
    hide Open, Holds, FitsState;
    OpenFits(log, Snapshots(), dir, chain, names);
  }

  lemma {:induction false} EmptyHolds(log: seq<Record>)
    requires Ascending(log)
    ensures Holds(log, Snapshots(), map[], [])
  {
    assert Names([]) == [] && EmptyDirectory().Keys == {};
  }

  lemma {:induction false} Extremes(a: nat, b: nat)
    ensures Min([a, b]) == (if a < b then a else b) && Max([a, b]) == if a > b then a else b
  {
    assert [a, b][0] in [a, b] && [a, b][1] in [a, b];
  }

  /** Such a start: beside an empty destination, one with a single object up to offset 8, and a
      source that now begins at 5. Nothing else is wrong, and the mirror cannot start. */
  lemma {:induction false} AlignCanFail(r: Record)
    requires r.offset == 8 && HasTextKey(r) && r.value.Some?
    ensures var w := Down([Left(OneSnapshot(r)), Left(map[])]);
            var l := Start([[NameOfFirst()], []], None, 5, 9, AllWilling(2), AllWilling(2));
            && Ascending([r]) && Good([r], w) && Enabled(w, l) && Honest([r], w, l)
            && Step(w, l).failure == Some(OfSink(Inconsistent))
  {
    hide HasTextKey, NameOfFirst, Holds, Reopened, Step, Sound, Min, Max, Snapshot;
    var log := [r];
    var dir := OneSnapshot(r);
    var w := Down([Left(dir), Left(map[])]);
    var l := Start([[NameOfFirst()], []], None, 5, 9, AllWilling(2), AllWilling(2));
    OneObjectHolds(r);
    EmptyHolds(log);
    assert dir.Keys == {NameOfFirst()} && EmptyDirectory().Keys == {};
    ReopensAtEnd(log, dir, [ChainObject(NameOfFirst(), 0, 8, None)], [NameOfFirst()]);
    ReopensAtEnd(log, map[], [], []);
    StartsWillingly(log, w, l);
    var t := StartTee(w, l);
    assert t.heads == [9, 0];
    Extremes(9, 0);
    assert t.sinks[0].Blob? && t.heads[0] > 5;
    AlignFailsIff(log, w, l);
  }

  // ---------- a floor below the low watermark ----------

  /** A cursor left below the position the loop was moved to fails the first idle check. */
  lemma {:induction false} FloorBelowLowDrifts(log: seq<Record>, w: World, l: Label, c: seq<Choice>)
    requires Ascending(log) && Good(log, w) && Enabled(w, l) && Honest(log, w, l) && FloorBelowLow(l)
    requires var up := Step(w, l).world;
             && up.Up? && IsTee(up.tee) && |c| == |up.tee.sinks| && TeeAsk(up.tee, c).error.None?
    ensures var up := Step(w, l).world;
            var s := Step(up, Turn(PolledNothing, c));
            s.failure.Some? && s.failure.value.DestinationDrift?
  {
    hide Step, TeeAsk, Warranted, AllGrown;
    StepKeeps(log, w, l);
    var up := Step(w, l).world;
    IdleDriftsIff(log, up.tee, up.expected, c);
    TurnIsReact(up, PolledNothing, c);
  }

  lemma {:induction false} TurnIsReact(up: World, event: Event, c: seq<Choice>)
    requires up.Up? && IsTee(up.tee) && |c| == |up.tee.sinks|
    ensures Enabled(up, Turn(event, c)) && Step(up, Turn(event, c)) == React(up.tee, up.expected, event, c)
  {
  }

  /** It happens when the source is trimmed while a mirror starts: the floor was the low watermark,
      3, and the run loop finds it at 5. A fresh snapshot destination is moved up to 5, and the
      first idle turn reports drift that nobody caused. */
  lemma {:induction false} TrimmedWhileStarting(log: seq<Record>)
    requires Ascending(log)
    ensures var w := Down([Left(map[])]);
            var l := Start([[]], Some(3), 5, 5, AllWilling(1), AllWilling(1));
            && Good(log, w) && Enabled(w, l) && Honest(log, w, l) && Step(w, l).world.Up?
            && var up := Step(w, l).world;
            && Enabled(up, Turn(PolledNothing, AllWilling(1)))
            && var s := Step(up, Turn(PolledNothing, AllWilling(1)));
            s.failure.Some? && s.failure.value.DestinationDrift?
  {
    hide Holds, Reopened, Sound, Min, Max, Step, AskFrom, Live, Empty;
    var w := Down([Left(map[])]);
    var l := Start([[]], Some(3), 5, 5, AllWilling(1), AllWilling(1));
    EmptyHolds(log);
    assert EmptyDirectory().Keys == {};
    ReopensAtEnd(log, map[], [], []);
    StartsWillingly(log, w, l);
    AllReopen(log, w, l);
    var t := StartTee(w, l);
    assert t.heads == [0];
    assert Min([0]) == 0 && Max([0]) == 0 by {
      assert [0][0] in [0];
    }
    AlignSucceedsIff(log, t, 5);
    TeeAlignKeeps(log, t, 5);
    var aligned := TeeAlign(t, 5).tee;
    assert Step(w, l) == Stepped(Up(aligned, 5), None);
    AlignedIsEmpty(t, 5);
    AllAskWillingly(aligned, 0);
    FloorBelowLowDrifts(log, w, l, AllWilling(1));
    TurnIsReact(Up(aligned, 5), PolledNothing, AllWilling(1));
  }

  lemma {:induction false} AlignedIsEmpty(t: Tee, low: nat)
    requires IsTee(t) && AllEmpty(t.sinks) && TeeAlign(t, low).error.None? && TeeAllowsCompactedSource(t)
    ensures var t' := TeeAlign(t, low).tee;
            AllEmpty(t'.sinks) && forall i :: 0 <= i < |t'.sinks| ==> t'.heads[i] == Position(t'.sinks[i])
  {
    var t' := TeeAlign(t, low).tee;
    forall i | 0 <= i < |t'.sinks|
      ensures Empty(t'.sinks[i]) && t'.heads[i] == Position(t'.sinks[i])
    {
      assert Aligned(t, low)[i] == AlignSink(t.sinks[i], low);
    }
  }
}
