/** When every destination has flushed: one observer told of the least of them.

    A notification takes two locks in turn. Between them it carries the minimum
    it computed, and any number of other notifications may pass it. */
module FlushCoordinators {
  import opened Records
  import opened Tees

  datatype Fire = Fire(from: nat, to: nat)

  /** `pending` are the minima computed under the first lock and not yet compared under the
      second; `fired` is what was recorded under the second, in turn. */
  datatype Coordinator = Coordinator(flushed: seq<nat>, last: Option<nat>, pending: seq<nat>, fired: seq<Fire>)

  datatype Step = Note(sink: nat, to: nat) | Compare(i: nat)

  predicate CanStep(c: Coordinator, s: Step) {
    match s
    case Note(sink, _) => sink < |c.flushed|
    case Compare(i) => i < |c.pending|
  }

  function Raised(flushed: seq<nat>, sink: nat, to: nat): seq<nat>
    requires sink < |flushed|
  {
    if to > flushed[sink] then flushed[sink := to] else flushed
  }

  /** The fire a minimum causes: the first above 0, then each above the last. */
  function Due(last: Option<nat>, min: nat): Option<Fire> {
    match last
    case Some(previous) => if min > previous then Some(Fire(previous, min)) else None
    case None => if min > 0 then Some(Fire(0, min)) else None
  }

  function Go(c: Coordinator, s: Step): Coordinator
    requires CanStep(c, s)
  {
    match s
    case Note(sink, to) =>
      var flushed := Raised(c.flushed, sink, to);
      c.(flushed := flushed, pending := c.pending + [Min(flushed)])
    case Compare(i) =>
      var rest, due := c.pending[..i] + c.pending[i + 1..], Due(c.last, c.pending[i]);
      match due
      case None => c.(pending := rest)
      case Some(fire) => c.(pending := rest, last := Some(fire.to), fired := c.fired + [fire])
  }

  /** Fires follow each other: the first from 0, each from where the one before ended, upwards. */
  ghost predicate Chained(fired: seq<Fire>) {
    fired == []
    || (&& Chained(fired[..|fired| - 1])
        && fired[|fired| - 1].from == EndOf(fired[..|fired| - 1])
        && fired[|fired| - 1].from < fired[|fired| - 1].to)
  }

  function EndOf(fired: seq<Fire>): nat {
    if fired == [] then 0 else fired[|fired| - 1].to
  }

  ghost predicate Fits(c: Coordinator) {
    && c.flushed != []
    && Chained(c.fired)
    && c.last == (if c.fired == [] then None else Some(c.fired[|c.fired| - 1].to))
    && (c.last.Some? ==> 0 < c.last.value <= Min(c.flushed))
    && (forall i :: 0 <= i < |c.pending| ==> c.pending[i] <= Min(c.flushed))
    && (Min(c.flushed) == 0 || c.last == Some(Min(c.flushed)) || Min(c.flushed) in c.pending)
  }

  lemma {:induction false} NewFits(sinks: nat)
    requires sinks > 0
    ensures Fits(Coordinator(seq(sinks, i => 0), None, [], []))
  {
    var flushed := seq(sinks, i => 0);
    assert Min(flushed) in flushed;
  }

  lemma {:induction false} RaisedMin(flushed: seq<nat>, sink: nat, to: nat)
    requires sink < |flushed|
    ensures Min(flushed) <= Min(Raised(flushed, sink, to))
  {
    var raised := Raised(flushed, sink, to);
    var m :| 0 <= m < |raised| && raised[m] == Min(raised);
    assert flushed[m] in flushed && flushed[m] <= raised[m];
  }

  lemma {:induction false} FiresOn(fired: seq<Fire>, last: Option<nat>, min: nat)
    requires Chained(fired) && last == (if fired == [] then None else Some(fired[|fired| - 1].to))
    ensures Due(last, min).Some? ==> Chained(fired + [Due(last, min).value])
  {
    if Due(last, min).Some? {
      assert (fired + [Due(last, min).value])[..|fired|] == fired;
    }
  }

  lemma {:induction false} NoteKeeps(c: Coordinator, sink: nat, to: nat)
    requires Fits(c) && sink < |c.flushed|
    ensures Fits(Go(c, Note(sink, to)))
  {
    hide Min, Chained;
    RaisedMin(c.flushed, sink, to);
    var c' := Go(c, Note(sink, to));
    assert c'.pending[|c.pending|] == Min(c'.flushed);
  }

  lemma {:induction false} TakenOut(pending: seq<nat>, i: nat, min: nat)
    requires i < |pending| && forall j :: 0 <= j < |pending| ==> pending[j] <= min
    ensures var rest := pending[..i] + pending[i + 1..];
            && (forall j :: 0 <= j < |rest| ==> rest[j] <= min)
            && (min in pending ==> pending[i] == min || min in rest)
  {
    var rest := pending[..i] + pending[i + 1..];
    if min in pending {
      var k :| 0 <= k < |pending| && pending[k] == min;
      assert k < i ==> rest[k] == min;
      assert k > i ==> rest[k - 1] == min;
    }
  }

  lemma {:induction false} CompareKeeps(c: Coordinator, i: nat)
    requires Fits(c) && i < |c.pending|
    ensures Fits(Go(c, Compare(i)))
  {
    hide Min, Chained;
    TakenOut(c.pending, i, Min(c.flushed));
    FiresOn(c.fired, c.last, c.pending[i]);
  }

  lemma {:induction false} GoKeeps(c: Coordinator, s: Step)
    requires Fits(c) && CanStep(c, s)
    ensures Fits(Go(c, s))
  {
    hide Fits, Go;
    match s
    case Note(sink, to) => NoteKeeps(c, sink, to);
    case Compare(i) => CompareKeeps(c, i);
  }

  ghost predicate CanRun(c: Coordinator, steps: seq<Step>)
    decreases |steps|
  {
    steps == [] || (CanStep(c, steps[0]) && CanRun(Go(c, steps[0]), steps[1..]))
  }

  ghost function After(c: Coordinator, steps: seq<Step>): Coordinator
    requires CanRun(c, steps)
    decreases |steps|
  {
    if steps == [] then c else After(Go(c, steps[0]), steps[1..])
  }

  lemma {:induction false} RunKeeps(c: Coordinator, steps: seq<Step>)
    requires Fits(c) && CanRun(c, steps)
    ensures Fits(After(c, steps))
    decreases |steps|
  {
    hide Fits;
    if steps != [] {
      GoKeeps(c, steps[0]);
      RunKeeps(Go(c, steps[0]), steps[1..]);
    }
  }

  /** The furthest offset a destination has been noted at; 0 before it is noted. */
  ghost function FurthestNoted(steps: seq<Step>, sink: nat): nat {
    if steps == [] then 0
    else
      var before, step := FurthestNoted(steps[..|steps| - 1], sink), steps[|steps| - 1];
      if step.Note? && step.sink == sink && step.to > before then step.to else before
  }

  lemma {:induction false} FurthestIs(steps: seq<Step>, sink: nat)
    ensures forall k :: 0 <= k < |steps| && steps[k].Note? && steps[k].sink == sink ==>
              steps[k].to <= FurthestNoted(steps, sink)
    ensures FurthestNoted(steps, sink) == 0
            || exists k :: 0 <= k < |steps| && steps[k] == Note(sink, FurthestNoted(steps, sink))
  {
    if steps != [] {
      var n := |steps| - 1;
      FurthestIs(steps[..n], sink);
      if FurthestNoted(steps, sink) == FurthestNoted(steps[..n], sink) != 0 {
        var k :| 0 <= k < n && steps[..n][k] == Note(sink, FurthestNoted(steps, sink));
        assert steps[k] == Note(sink, FurthestNoted(steps, sink));
      }
    }
  }

  lemma {:induction false} AfterMore(c: Coordinator, steps: seq<Step>, s: Step)
    requires CanRun(c, steps + [s])
    ensures CanRun(c, steps) && CanStep(After(c, steps), s)
    ensures After(c, steps + [s]) == Go(After(c, steps), s)
    decreases |steps|
  {
    hide Go, CanStep;
    var all := steps + [s];
    if steps == [] {
      assert all == [s] && all[1..] == [];
    } else {
      assert all[1..] == steps[1..] + [s];
      AfterMore(Go(c, steps[0]), steps[1..], s);
    }
  }

  /** What is kept of a destination is the furthest it was noted at, whatever order notes come in. */
  lemma {:induction false} FlushedIsFurthestNoted(sinks: nat, steps: seq<Step>, sink: nat)
    requires sink < sinks && CanRun(Coordinator(seq(sinks, i => 0), None, [], []), steps)
    ensures var c := After(Coordinator(seq(sinks, i => 0), None, [], []), steps);
            |c.flushed| == sinks && c.flushed[sink] == FurthestNoted(steps, sink)
    decreases |steps|
  {
    hide Min, Due;
    if steps != [] {
      var n := |steps| - 1;
      assert steps == steps[..n] + [steps[n]];
      AfterMore(Coordinator(seq(sinks, i => 0), None, [], []), steps[..n], steps[n]);
      FlushedIsFurthestNoted(sinks, steps[..n], sink);
    }
  }

  /** Under every interleaving: what was fired strictly increases, each fire from the end of the
      one before, and never passes what any destination has flushed. Once no notification is
      between the locks, the last fire is the least flushed offset, exactly when that is not 0. */
  lemma {:induction false} FiresTheMinimum(sinks: nat, steps: seq<Step>)
    requires sinks > 0 && CanRun(Coordinator(seq(sinks, i => 0), None, [], []), steps)
    ensures var c := After(Coordinator(seq(sinks, i => 0), None, [], []), steps);
            && Chained(c.fired) && |c.flushed| == sinks
            && (forall i: nat :: i < sinks ==> c.flushed[i] == FurthestNoted(steps, i))
            && (c.fired != [] ==> forall i :: 0 <= i < |c.flushed| ==> c.fired[|c.fired| - 1].to <= c.flushed[i])
            && (c.pending == [] ==>
                  if Min(c.flushed) > 0 then c.fired != [] && c.fired[|c.fired| - 1].to == Min(c.flushed)
                    else c.fired == [])
  {
    hide Chained, After, CanRun, FurthestNoted;
    NewFits(sinks);
    forall i: nat | i < sinks
      ensures |After(Coordinator(seq(sinks, i => 0), None, [], []), steps).flushed| == sinks
      ensures After(Coordinator(seq(sinks, i => 0), None, [], []), steps).flushed[i] == FurthestNoted(steps, i)
    {
      FlushedIsFurthestNoted(sinks, steps, i);
    }
    FlushedIsFurthestNoted(sinks, steps, 0);
    RunKeeps(Coordinator(seq(sinks, i => 0), None, [], []), steps);
    var c := After(Coordinator(seq(sinks, i => 0), None, [], []), steps);
    assert forall i :: 0 <= i < |c.flushed| ==> c.flushed[i] in c.flushed;
  }

  lemma {:induction false} ZeroStaysZero(c: Coordinator, sink: nat)
    requires c.flushed == [0, 0] && c.last == None && c.fired == [] && sink < 2
    ensures Go(c, Note(sink, 0)) == Coordinator([0, 0], None, c.pending + [0], [])
  {
    assert Min([0, 0]) == 0;
  }

  /** Two destinations that have both flushed up to offset 0 fire nothing: 0 is also where a
      destination starts that never flushed. */
  lemma {:induction false} FlushedToZeroIsSilent()
    ensures var noted := Go(Go(Coordinator([0, 0], None, [], []), Note(0, 0)), Note(1, 0));
            && noted.pending == [0, 0]
            && Go(Go(noted, Compare(0)), Compare(0)).fired == []
  {
    hide Min;
    var c := Coordinator([0, 0], None, [], []);
    ZeroStaysZero(c, 0);
    ZeroStaysZero(Go(c, Note(0, 0)), 1);
    var noted := Coordinator([0, 0], None, [0, 0], []);
    assert Go(noted, Compare(0)).pending == [0];
  }

  class MinFlushCoordinator {
    var flushed: seq<nat>
    var last: Option<nat>

    constructor (sinks: nat)
      ensures flushed == seq(sinks, i => 0) && last == None
    {
      flushed, last := seq(sinks, i => 0), None;
    }

    /** One notification that nothing passes: both locks in turn. */
    method NoteFlush(sink: nat, to: nat) returns (fire: Option<Fire>)
      requires sink < |flushed|
      modifies this
      ensures flushed == Raised(old(flushed), sink, to)
      ensures var c := Coordinator(old(flushed), old(last), [], []);
              var c' := Go(Go(c, Note(sink, to)), Compare(0));
              && flushed == c'.flushed && last == c'.last
              && c'.fired == match fire case None => [] case Some(f) => [f]
    {
      if to > flushed[sink] {
        flushed := flushed[sink := to];
      }
      var min := Min(flushed);
      fire := None;
      if last.Some? {
        if min > last.value {
          fire := Some(Fire(last.value, min));
        }
      } else if min > 0 {
        fire := Some(Fire(0, min));
      }
      if fire.Some? {
        last := Some(min);
      }
    }
  }
}
