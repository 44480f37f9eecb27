/** The tee: one source fanned out to every destination of a mirror.

    Each inner sink has a head, the offset it takes next. A record goes to the
    inner sinks whose head is at or below it; the others have it already. The
    tee reports the least head, or a resume cursor below it, so that a replay
    for a notifier passes the destinations by. */
module Tees {
  import opened Records
  import opened BlobSinks
  import opened Sinks

  datatype Tee = Tee(sinks: seq<Sink>, heads: seq<nat>, cursor: Option<nat>)

  datatype TeeDid = TeeDid(tee: Tee, error: Option<SinkError>)

  /** A tee of at least one inner sink, each with a head. */
  predicate IsTee(t: Tee) {
    |t.heads| == |t.sinks| > 0
  }

  function Min(s: seq<nat>): (m: nat)
    requires s != []
    ensures m in s && forall x :: x in s ==> m <= x
  {
    if |s| == 1 then s[0]
    else
      var rest := Min(s[1..]);
      assert forall x :: x in s ==> x == s[0] || x in s[1..];
      if s[0] < rest then s[0] else rest
  }

  function Max(s: seq<nat>): (m: nat)
    requires s != []
    ensures m in s && forall x :: x in s ==> x <= m
  {
    if |s| == 1 then s[0]
    else
      var rest := Max(s[1..]);
      assert forall x :: x in s ==> x == s[0] || x in s[1..];
      if s[0] > rest then s[0] else rest
  }

  /** Where the tee resumes: the slowest inner sink, or a cursor below it. */
  function Reported(t: Tee): nat
    requires IsTee(t)
  {
    var least := Min(t.heads);
    if t.cursor.Some? && t.cursor.value < least then t.cursor.value else least
  }

  function Furthest(t: Tee): nat
    requires IsTee(t)
  {
    Max(t.heads)
  }

  /** An inner sink's error as the tee reports it. */
  function InContext(e: SinkError): SinkError {
    if e.UnexpectedPosition? then Inconsistent else e
  }

  function FirstError(dids: seq<Did>): (e: Option<SinkError>)
    ensures e.None? <==> forall i :: 0 <= i < |dids| ==> dids[i].error.None?
    ensures e.Some? ==>
              exists i :: 0 <= i < |dids| && dids[i].error == e && forall k :: 0 <= k < i ==> dids[k].error.None?
  {
    if dids == [] then None
    else if dids[0].error.Some? then dids[0].error
    else FirstError(dids[1..])
  }

  function SinksOf(dids: seq<Did>): seq<Sink> {
    seq(|dids|, i requires 0 <= i < |dids| => dids[i].sink)
  }

  // ---------- writing ----------

  predicate Takes(t: Tee, i: nat, r: Record)
    requires IsTee(t) && i < |t.sinks|
  {
    t.heads[i] <= r.offset
  }

  /** What each inner sink does with a record; one that has it already does nothing. */
  function Fan(t: Tee, r: Record, c: seq<Choice>): seq<Did>
    requires IsTee(t) && |c| == |t.sinks|
  {
    seq(|t.sinks|, i requires 0 <= i < |t.sinks| =>
          if Takes(t, i, r) then WriteTo(t.sinks[i], r, c[i]) else Did(t.sinks[i], None))
  }

  function HeadsAfter(t: Tee, r: Record, dids: seq<Did>): seq<nat>
    requires IsTee(t) && |dids| == |t.sinks|
  {
    seq(|t.sinks|, i requires 0 <= i < |t.sinks| =>
          if Takes(t, i, r) && dids[i].error.None? then r.offset + 1 else t.heads[i])
  }

  function Advanced(cursor: Option<nat>, offset: nat): Option<nat> {
    match cursor
    case None => None
    case Some(at) => Some(if at < offset + 1 then offset + 1 else at)
  }

  /** Every inner sink that takes the record is run, whatever another one answers; the cursor
      moves only when all of them took it. */
  function TeeWrite(t: Tee, r: Record, c: seq<Choice>): (did: TeeDid)
    requires IsTee(t) && |c| == |t.sinks|
    ensures IsTee(did.tee) && |did.tee.sinks| == |t.sinks|
  {
    var dids := Fan(t, r, c);
    var fanned := t.(sinks := SinksOf(dids), heads := HeadsAfter(t, r, dids));
    match FirstError(dids)
    case Some(e) => TeeDid(fanned, Some(InContext(e)))
    case None => TeeDid(fanned.(cursor := Advanced(t.cursor, r.offset)), None)
  }

  /** The error of a write is that of the first inner sink that failed it; a record out of its place
      is not the source's doing, so the tee calls it inconsistent. */
  lemma {:induction false} FirstFailureIsReported(t: Tee, r: Record, c: seq<Choice>)
    requires IsTee(t) && |c| == |t.sinks| && TeeWrite(t, r, c).error.Some?
    ensures exists i :: 0 <= i < |t.sinks| && Takes(t, i, r) && FailsFirst(t, r, c, i)
  {
    hide WriteTo;
    var dids := Fan(t, r, c);
    var i :| 0 <= i < |dids| && dids[i].error == FirstError(dids) && forall k :: 0 <= k < i ==> dids[k].error.None?;
    forall k: nat | k < i && Takes(t, k, r)
      ensures WriteTo(t.sinks[k], r, c[k]).error.None?
    {
      assert dids[k].error.None?;
    }
    assert FailsFirst(t, r, c, i);
  }

  ghost predicate FailsFirst(t: Tee, r: Record, c: seq<Choice>, i: nat)
    requires IsTee(t) && |c| == |t.sinks| && i < |t.sinks|
  {
    && (forall k: nat :: k < i && Takes(t, k, r) ==> WriteTo(t.sinks[k], r, c[k]).error.None?)
    && var e := WriteTo(t.sinks[i], r, c[i]).error;
    && e.Some?
    && TeeWrite(t, r, c).error == if e.value.UnexpectedPosition? then Some(Inconsistent) else e
  }

  // ---------- asking ----------

  /** The inner sinks are asked in turn, up to the first that fails or has gone back. */
  function AskFrom(t: Tee, c: seq<Choice>, i: nat): (did: TeeDid)
    requires IsTee(t) && |c| == |t.sinks| && i <= |t.sinks|
    ensures IsTee(did.tee) && |did.tee.sinks| == |t.sinks|
    decreases |t.sinks| - i
  {
    if i == |t.sinks| then TeeDid(t, None)
    else
      var did := Ask(t.sinks[i], c[i]);
      var asked := t.(sinks := t.sinks[i := did.sink]);
      if did.error.Some? then TeeDid(asked, did.error)
      else if Position(did.sink) < t.heads[i] then TeeDid(asked, Some(Inconsistent))
      else AskFrom(asked.(heads := t.heads[i := Position(did.sink)]), c, i + 1)
  }

  function TeeAsk(t: Tee, c: seq<Choice>): (did: TeeDid)
    requires IsTee(t) && |c| == |t.sinks|
    ensures IsTee(did.tee) && |did.tee.sinks| == |t.sinks|
  {
    AskFrom(t, c, 0)
  }

  /** A tee over sinks just opened; the floor is where a notifier wants records again from. */
  function TeeOpen(sinks: seq<Sink>, floor: Option<nat>, c: seq<Choice>): (did: TeeDid)
    requires sinks != [] && |c| == |sinks|
    ensures IsTee(did.tee) && |did.tee.sinks| == |sinks|
  {
    AskFrom(Tee(sinks, seq(|sinks|, i => 0), floor), c, 0)
  }

  // ---------- flushing and aligning ----------

  function Flushed(t: Tee, c: seq<Choice>): seq<Did>
    requires IsTee(t) && |c| == |t.sinks|
  {
    seq(|t.sinks|, i requires 0 <= i < |t.sinks| => FlushSink(t.sinks[i], c[i]))
  }

  function TeeFlush(t: Tee, c: seq<Choice>): (did: TeeDid)
    requires IsTee(t) && |c| == |t.sinks|
    ensures IsTee(did.tee) && |did.tee.sinks| == |t.sinks|
  {
    var dids := Flushed(t, c);
    TeeDid(t.(sinks := SinksOf(dids)), FirstError(dids))
  }

  function Aligned(t: Tee, low: nat): seq<Did>
    requires IsTee(t)
  {
    seq(|t.sinks|, i requires 0 <= i < |t.sinks| => AlignSink(t.sinks[i], low))
  }

  /** Every inner sink is aligned, and every head moved if none refused; the cursor stays. */
  function TeeAlign(t: Tee, low: nat): (did: TeeDid)
    requires IsTee(t)
    ensures IsTee(did.tee) && |did.tee.sinks| == |t.sinks|
  {
    var dids := Aligned(t, low);
    var error := FirstError(dids);
    var aligned := t.(sinks := SinksOf(dids));
    TeeDid(if error.Some? then aligned else aligned.(heads := seq(|t.sinks|, i => low)), error)
  }

  predicate TeeAllowsCompactedSource(t: Tee) {
    forall i :: 0 <= i < |t.sinks| ==> AllowsCompactedSource(t.sinks[i])
  }

  predicate TeeAllowsHoles(t: Tee) {
    forall i :: 0 <= i < |t.sinks| ==> AllowsHoles(t.sinks[i])
  }

  // ---------- what holds while the run loop expects an offset ----------

  ghost predicate AllSound(log: seq<Record>, sinks: seq<Sink>)
    requires Ascending(log)
  {
    forall i :: 0 <= i < |sinks| ==> Sound(log, sinks[i])
  }

  ghost predicate AllGrown(sinks: seq<Sink>, sinks': seq<Sink>) {
    |sinks| == |sinks'| && forall i :: 0 <= i < |sinks| ==> Grown(sinks[i], sinks'[i])
  }

  predicate AllEmpty(sinks: seq<Sink>) {
    forall i :: 0 <= i < |sinks| ==> Empty(sinks[i])
  }

  lemma {:induction false} AllGrownFurther(a: seq<Sink>, b: seq<Sink>, c: seq<Sink>)
    requires AllGrown(a, b) && AllGrown(b, c)
    ensures AllGrown(a, c)
  {
    hide Grown;
    forall i | 0 <= i < |a|
      ensures Grown(a[i], c[i])
    {
      GrownFurther(a[i], b[i], c[i]);
    }
  }

  /** A cursor left behind the position the loop reads from. */
  predicate Lagging(t: Tee, expected: nat) {
    t.cursor.Some? && t.cursor.value < expected
  }

  /** Every inner sink is live, at its head, and not behind the loop. */
  ghost predicate Current(log: seq<Record>, t: Tee, expected: nat)
    requires Ascending(log)
  {
    && IsTee(t)
    && forall i :: 0 <= i < |t.sinks| ==>
         Live(log, t.sinks[i]) && Position(t.sinks[i]) == t.heads[i] && expected <= t.heads[i]
  }

  /** And the tee reports where the loop is. */
  ghost predicate TeeFits(log: seq<Record>, t: Tee, expected: nat)
    requires Ascending(log)
  {
    Current(log, t, expected) && (Lagging(t, expected) || Reported(t) == expected)
  }

  lemma {:induction false} ReportedIs(t: Tee, expected: nat)
    requires IsTee(t) && !Lagging(t, expected)
    requires forall i :: 0 <= i < |t.heads| ==> expected <= t.heads[i]
    ensures Reported(t) == expected <==> t.cursor == Some(expected) || expected in t.heads
  {
    assert forall x :: x in t.heads ==> expected <= x;
  }

  lemma {:induction false} CurrentIsSound(log: seq<Record>, t: Tee, expected: nat)
    requires Ascending(log) && Current(log, t, expected)
    ensures AllSound(log, t.sinks)
  {
    hide Live, Sound;
    forall i | 0 <= i < |t.sinks|
      ensures Sound(log, t.sinks[i])
    {
      LiveIsSound(log, t.sinks[i]);
    }
  }

  lemma {:induction false} FannedKeeps(log: seq<Record>, t: Tee, expected: nat, r: Record, c: seq<Choice>, i: nat)
    requires Ascending(log) && Current(log, t, expected) && |c| == |t.sinks| && i < |t.sinks|
    requires DeliversNext(log, expected, r) && (r.offset == expected || TeeAllowsHoles(t))
    ensures var did := Fan(t, r, c)[i];
            && Sound(log, did.sink) && Grown(t.sinks[i], did.sink) && IsOutside(did.error)
            && (did.error.None? ==>
                  && Live(log, did.sink) && Position(did.sink) == HeadsAfter(t, r, Fan(t, r, c))[i]
                  && r.offset + 1 <= Position(did.sink))
  {
    hide Live, Sound, Grown, WriteTo, DeliversNext;
    RangeOfDelivered(log, expected, r);
    if Takes(t, i, r) {
      DeliveredFromFurtherOn(log, expected, t.heads[i], r);
      WriteToKeeps(log, t.sinks[i], r, c[i]);
    } else {
      LiveIsSound(log, t.sinks[i]);
    }
  }

  /** Writing what the source delivers next: every inner sink takes it or has it. */
  lemma {:induction false} TeeWriteKeeps(log: seq<Record>, t: Tee, expected: nat, r: Record, c: seq<Choice>)
    requires Ascending(log) && TeeFits(log, t, expected) && |c| == |t.sinks|
    requires DeliversNext(log, expected, r) && (r.offset == expected || TeeAllowsHoles(t))
    ensures var did := TeeWrite(t, r, c);
            && AllSound(log, did.tee.sinks) && AllGrown(t.sinks, did.tee.sinks) && IsOutside(did.error)
            && (did.error.None? ==> TeeFits(log, did.tee, r.offset + 1) && !Lagging(did.tee, r.offset + 1))
  {
    hide Live, Sound, Grown, WriteTo, DeliversNext, Reported;
    var dids := Fan(t, r, c);
    forall i | 0 <= i < |t.sinks|
      ensures var did := dids[i];
              && Sound(log, did.sink) && Grown(t.sinks[i], did.sink) && IsOutside(did.error)
              && (did.error.None? ==>
                    && Live(log, did.sink) && Position(did.sink) == HeadsAfter(t, r, dids)[i]
                    && r.offset + 1 <= Position(did.sink))
    {
      FannedKeeps(log, t, expected, r, c, i);
    }
    var t' := TeeWrite(t, r, c).tee;
    if FirstError(dids).None? {
      assert Current(log, t', r.offset + 1);
      RangeOfDelivered(log, expected, r);
      WriteReports(t, expected, r, c);
    }
  }

  lemma {:induction false} WriteReports(t: Tee, expected: nat, r: Record, c: seq<Choice>)
    requires IsTee(t) && |c| == |t.sinks| && expected <= r.offset
    requires forall i :: 0 <= i < |t.heads| ==> expected <= t.heads[i]
    requires Lagging(t, expected) || Reported(t) == expected
    requires TeeWrite(t, r, c).error.None?
    requires forall i :: 0 <= i < |t.heads| ==> r.offset + 1 <= TeeWrite(t, r, c).tee.heads[i]
    ensures var t' := TeeWrite(t, r, c).tee;
            !Lagging(t', r.offset + 1) && Reported(t') == r.offset + 1
  {
    hide WriteTo, Reported;
    var t' := TeeWrite(t, r, c).tee;
    ReportedIs(t', r.offset + 1);
    if !Lagging(t, expected) {
      ReportedIs(t, expected);
      if expected in t.heads {
        var i :| 0 <= i < |t.heads| && t.heads[i] == expected;
        assert t'.heads[i] == r.offset + 1;
      }
    }
  }

  /** Asking finds every inner sink where it was. */
  lemma {:induction false} AskFromKeeps(log: seq<Record>, t: Tee, expected: nat, c: seq<Choice>, i: nat)
    requires Ascending(log) && Current(log, t, expected) && |c| == |t.sinks| && i <= |t.sinks|
    ensures var did := AskFrom(t, c, i);
            && AllSound(log, did.tee.sinks) && AllGrown(t.sinks, did.tee.sinks) && IsOutside(did.error)
            && did.tee.heads == t.heads && did.tee.cursor == t.cursor
            && (did.error.None? ==> Current(log, did.tee, expected))
            && (AllEmpty(t.sinks) ==> AllEmpty(did.tee.sinks))
    decreases |t.sinks| - i
  {
    hide Live, Sound, Ask, Empty;
    CurrentIsSound(log, t, expected);
    if i < |t.sinks| {
      AskKeeps(log, t.sinks[i], c[i]);
      if AllEmpty(t.sinks) {
        AskEmpty(t.sinks[i], c[i]);
      }
      var did := Ask(t.sinks[i], c[i]);
      if did.error.None? {
        var asked := t.(sinks := t.sinks[i := did.sink], heads := t.heads[i := Position(did.sink)]);
        assert asked.heads == t.heads;
        AskFromKeeps(log, asked, expected, c, i + 1);
      }
    }
  }

  /** Opening finds each inner sink's position. */
  lemma {:induction false} OpenFrom(log: seq<Record>, t: Tee, c: seq<Choice>, i: nat)
    requires Ascending(log) && IsTee(t) && |c| == |t.sinks| && i <= |t.sinks|
    requires forall k :: 0 <= k < |t.sinks| ==> Live(log, t.sinks[k]) && Empty(t.sinks[k])
    requires forall k :: 0 <= k < i ==> Position(t.sinks[k]) == t.heads[k]
    requires forall k :: i <= k < |t.sinks| ==> t.heads[k] == 0
    ensures var did := AskFrom(t, c, i);
            && AllSound(log, did.tee.sinks) && AllGrown(t.sinks, did.tee.sinks) && IsOutside(did.error)
            && did.tee.cursor == t.cursor
            && (did.error.None? ==>
                  && Current(log, did.tee, 0) && AllEmpty(did.tee.sinks)
                  && forall k :: 0 <= k < |t.sinks| ==> did.tee.heads[k] == Position(t.sinks[k]))
    decreases |t.sinks| - i
  {
    hide Live, Sound, Grown, Ask, Empty;
    forall k | 0 <= k < |t.sinks|
      ensures Sound(log, t.sinks[k]) && Grown(t.sinks[k], t.sinks[k])
    {
      LiveIsSound(log, t.sinks[k]);
    }
    if i < |t.sinks| {
      AskKeeps(log, t.sinks[i], c[i]);
      AskEmpty(t.sinks[i], c[i]);
      var did := Ask(t.sinks[i], c[i]);
      if did.error.None? {
        var asked := t.(sinks := t.sinks[i := did.sink], heads := t.heads[i := Position(did.sink)]);
        OpenFrom(log, asked, c, i + 1);
        GrownFurther(t.sinks[i], asked.sinks[i], AskFrom(t, c, i).tee.sinks[i]);
      }
    }
  }

  lemma {:induction false} TeeOpenKeeps(log: seq<Record>, sinks: seq<Sink>, floor: Option<nat>, c: seq<Choice>)
    requires Ascending(log) && sinks != [] && |c| == |sinks|
    requires forall k :: 0 <= k < |sinks| ==> Live(log, sinks[k]) && Empty(sinks[k])
    ensures var did := TeeOpen(sinks, floor, c);
            && AllSound(log, did.tee.sinks) && AllGrown(sinks, did.tee.sinks) && IsOutside(did.error)
            && did.tee.cursor == floor
            && (did.error.None? ==>
                  && TeeFits(log, did.tee, Reported(did.tee)) && AllEmpty(did.tee.sinks)
                  && forall k :: 0 <= k < |sinks| ==> did.tee.heads[k] == Position(sinks[k]))
  {
    hide Live, Sound, Grown, AskFrom, Empty;
    OpenFrom(log, Tee(sinks, seq(|sinks|, i => 0), floor), c, 0);
    var did := TeeOpen(sinks, floor, c);
    if did.error.None? {
      assert forall i :: 0 <= i < |did.tee.heads| ==> did.tee.heads[i] in did.tee.heads;
    }
  }

  lemma {:induction false} TeeFlushKeeps(log: seq<Record>, t: Tee, expected: nat, c: seq<Choice>)
    requires Ascending(log) && Current(log, t, expected) && |c| == |t.sinks|
    ensures AllSound(log, TeeFlush(t, c).tee.sinks) && AllGrown(t.sinks, TeeFlush(t, c).tee.sinks)
            && IsOutside(TeeFlush(t, c).error)
    ensures TeeFlush(t, c).error.None?
            ==> forall i :: 0 <= i < |t.sinks| ==>
                  var s := TeeFlush(t, c).tee.sinks[i];
                  Live(log, s) && Empty(s) && expected <= t.heads[i] == Position(s)
  {
    hide Live, Sound, Grown, FlushSink;
    var dids := Flushed(t, c);
    forall i | 0 <= i < |t.sinks|
      ensures Sound(log, dids[i].sink) && Grown(t.sinks[i], dids[i].sink) && IsOutside(dids[i].error)
      ensures dids[i].error.None?
              ==> Live(log, dids[i].sink) && Position(dids[i].sink) == t.heads[i] && Empty(dids[i].sink)
    {
      FlushSinkKeeps(log, t.sinks[i], c[i]);
    }
  }

  // ---------- aligning to the source's low watermark ----------

  /** Aligning succeeds exactly when no inner sink is past the low watermark: the run loop
      checks only the least of them. */
  lemma {:induction false} AlignSucceedsIff(log: seq<Record>, t: Tee, low: nat)
    requires Ascending(log) && Current(log, t, 0) && TeeAllowsCompactedSource(t)
    requires AllEmpty(t.sinks)
    ensures TeeAlign(t, low).error.None?
            <==> forall i :: 0 <= i < |t.sinks| && t.sinks[i].Blob? ==> t.heads[i] <= low
    ensures TeeAlign(t, low).error.Some? ==> TeeAlign(t, low).error == Some(Inconsistent)
  {
    hide Live, AlignSink;
    forall i | 0 <= i < |t.sinks|
      ensures AlignSink(t.sinks[i], low).error.None? <==> (t.sinks[i].Blob? ==> t.heads[i] <= low)
      ensures var did := AlignSink(t.sinks[i], low); did.error.Some? ==> did.error == Some(Inconsistent)
    {
      AlignSinkKeeps(log, t.sinks[i], low);
    }
    assert forall i :: 0 <= i < |t.sinks| ==> Aligned(t, low)[i] == AlignSink(t.sinks[i], low);
  }

  lemma {:induction false} TeeAlignKeeps(log: seq<Record>, t: Tee, low: nat)
    requires Ascending(log) && Current(log, t, 0) && TeeAllowsCompactedSource(t)
    ensures var did := TeeAlign(t, low);
            && AllSound(log, did.tee.sinks) && AllGrown(t.sinks, did.tee.sinks) && did.tee.cursor == t.cursor
            && (did.error.None? ==> TeeFits(log, did.tee, low))
            && (did.error.Some? ==> did.tee.heads == t.heads)
  {
    hide Live, Sound, Grown, AlignSink;
    var dids := Aligned(t, low);
    forall i | 0 <= i < |t.sinks|
      ensures var did := dids[i];
              && Sound(log, did.sink) && Grown(t.sinks[i], did.sink)
              && (did.error.None? ==> Live(log, did.sink) && Position(did.sink) == low)
    {
      AlignSinkKeeps(log, t.sinks[i], low);
    }
    var did := TeeAlign(t, low);
    if did.error.None? {
      assert did.tee.heads[0] == low;
    }
  }

  /** After an alignment the idle check passes exactly when no cursor is below the low
      watermark: aligning moves the heads and leaves the cursor. */
  lemma {:induction false} IdleAfterAlignIff(t: Tee, low: nat)
    requires IsTee(t) && TeeAlign(t, low).error.None?
    ensures Reported(TeeAlign(t, low).tee) == low <==> t.cursor.None? || t.cursor.value >= low
  {
    hide AlignSink;
    var t' := TeeAlign(t, low).tee;
    assert t'.heads[0] == low;
    assert forall x :: x in t'.heads ==> x == low;
  }

  // ---------- each inner sink as if it ran alone ----------

  datatype Fed = Fed(record: Record, choices: seq<Choice>)

  /** Writing records in turn, up to and including the first that fails. */
  function TeeRun(t: Tee, feed: seq<Fed>): (r: (Tee, nat))
    requires IsTee(t) && forall k :: 0 <= k < |feed| ==> |feed[k].choices| == |t.sinks|
    ensures r.1 <= |feed|
    decreases |feed|
  {
    if feed == [] then (t, 0)
    else
      var did := TeeWrite(t, feed[0].record, feed[0].choices);
      if did.error.Some? then (did.tee, 1)
      else
        var rest := TeeRun(did.tee, feed[1..]);
        (rest.0, rest.1 + 1)
  }

  /** One sink given the records at or above `from`, and no tee. */
  function Alone(s: Sink, from: nat, i: nat, feed: seq<Fed>): Sink
    requires forall k :: 0 <= k < |feed| ==> i < |feed[k].choices|
  {
    if feed == [] then s
    else
      var before := Alone(s, from, i, feed[..|feed| - 1]);
      var last := feed[|feed| - 1];
      if from <= last.record.offset then WriteTo(before, last.record, last.choices[i]).sink else before
  }

  ghost predicate InOrder(feed: seq<Fed>) {
    forall j, k :: 0 <= j < k < |feed| ==> feed[j].record.offset < feed[k].record.offset
  }

  lemma {:induction false} AloneFromFirst(s: Sink, from: nat, i: nat, feed: seq<Fed>)
    requires feed != [] && forall k :: 0 <= k < |feed| ==> i < |feed[k].choices|
    ensures var first := feed[0];
            Alone(s, from, i, feed)
            == Alone(if from <= first.record.offset then WriteTo(s, first.record, first.choices[i]).sink else s,
                     from, i, feed[1..])
  {
    hide WriteTo;
    if |feed| > 1 {
      AloneFromFirst(s, from, i, feed[..|feed| - 1]);
      assert feed[..|feed| - 1][1..] == feed[1..][..|feed| - 2];
    } else {
      assert feed[..0] == [];
    }
  }

  /** Raising `from` no higher than the records to come changes nothing. */
  lemma {:induction false} AloneFromAbove(s: Sink, from: nat, raised: nat, i: nat, feed: seq<Fed>)
    requires forall k :: 0 <= k < |feed| ==> i < |feed[k].choices|
    requires forall k :: 0 <= k < |feed| ==> (from <= feed[k].record.offset <==> raised <= feed[k].record.offset)
    ensures Alone(s, from, i, feed) == Alone(s, raised, i, feed)
  {
    hide WriteTo;
    if feed != [] {
      AloneFromAbove(s, from, raised, i, feed[..|feed| - 1]);
    }
  }

  /** Whatever the heads and the cursor at the start, and whichever inner sinks fail, each inner
      sink ends as if it had been given, alone and in order, exactly the records at or above
      its own head, up to the record at which the first of them failed. */
  lemma {:induction false} EachSinkRunsAlone(t: Tee, feed: seq<Fed>, i: nat)
    requires IsTee(t) && InOrder(feed) && i < |t.sinks|
    requires forall k :: 0 <= k < |feed| ==> |feed[k].choices| == |t.sinks|
    ensures var (t', written) := TeeRun(t, feed);
            && |t'.sinks| == |t.sinks| && written <= |feed|
            && t'.sinks[i] == Alone(t.sinks[i], t.heads[i], i, feed[..written])
    decreases |feed|
  {
    hide WriteTo;
    if feed == [] {
      assert feed[..0] == [];
    } else {
      var r := feed[0].record;
      var did := TeeWrite(t, r, feed[0].choices);
      var written := TeeRun(t, feed).1;
      var taken, rest := feed[..written], feed[1..];
      AloneFromFirst(t.sinks[i], t.heads[i], i, taken);
      if did.error.Some? {
        assert taken[1..] == [];
      } else {
        EachSinkRunsAlone(did.tee, rest, i);
        assert taken[1..] == rest[..written - 1];
        AloneFromAbove(did.tee.sinks[i], t.heads[i], did.tee.heads[i], i, taken[1..]);
      }
    }
  }

  // ---------- the sink ----------

  class TeeSink {
    var sinks: seq<Sink>
    var heads: seq<nat>
    var cursor: Option<nat>

    function Value(): Tee
      reads this
    {
      Tee(sinks, heads, cursor)
    }

    constructor (t: Tee)
      ensures Value() == t
    {
      sinks, heads, cursor := t.sinks, t.heads, t.cursor;
    }

    /** Read again from `floor`, below where the inner sinks are. */
    method SetResumeFloor(floor: nat)
      modifies this
      ensures Value() == old(Value()).(cursor := Some(floor))
    {
      cursor := Some(floor);
    }

    method WriteRecord(r: Record, c: seq<Choice>) returns (error: Option<SinkError>)
      requires IsTee(Value()) && |c| == |sinks|
      modifies this
      ensures TeeDid(Value(), error) == TeeWrite(old(Value()), r, c)
    {
      hide WriteTo;
      var n := |sinks|;
      ghost var t := Value();
      var dids: seq<Did> := [];
      for i := 0 to n
        invariant Value() == t && |dids| == i
        invariant dids == Fan(t, r, c)[..i]
      {
        dids := dids + [if heads[i] <= r.offset then WriteTo(sinks[i], r, c[i]) else Did(sinks[i], None)];
      }
      assert dids == Fan(t, r, c);
      for i := 0 to n
        invariant |sinks| == |heads| == n && cursor == t.cursor
        invariant forall k :: 0 <= k < n ==> sinks[k] == if k < i then dids[k].sink else t.sinks[k]
        invariant forall k :: 0 <= k < n ==> heads[k] == if k < i then HeadsAfter(t, r, dids)[k] else t.heads[k]
      {
        var did := dids[i];
        if heads[i] <= r.offset && did.error.None? {
          heads := heads[i := r.offset + 1];
        }
        sinks := sinks[i := did.sink];
      }
      assert sinks == SinksOf(dids) && heads == HeadsAfter(t, r, dids);
      error := FirstError(dids);
      if error.Some? {
        error := Some(InContext(error.value));
      } else if cursor.Some? && cursor.value < r.offset + 1 {
        cursor := Some(r.offset + 1);
      }
    }

    method NextExpectedOffset(c: seq<Choice>) returns (r: Result<nat, SinkError>)
      requires IsTee(Value()) && |c| == |sinks|
      modifies this
      ensures TeeDid(Value(), if r.Err? then Some(r.error) else None) == TeeAsk(old(Value()), c)
      ensures r.Ok? ==> IsTee(Value()) && r.value == Reported(Value())
    {
      hide Ask;
      ghost var t := Value();
      for i := 0 to |sinks|
        invariant IsTee(Value()) && |sinks| == |t.sinks|
        invariant AskFrom(Value(), c, i) == TeeAsk(t, c)
      {
        var did := Ask(sinks[i], c[i]);
        sinks := sinks[i := did.sink];
        if did.error.Some? {
          return Err(did.error.value);
        }
        if Position(did.sink) < heads[i] {
          return Err(Inconsistent);
        }
        heads := heads[i := Position(did.sink)];
      }
      var least := Min(heads);
      return Ok(if cursor.Some? && cursor.value < least then cursor.value else least);
    }

    method AlignToSourceLowWatermark(low: nat) returns (error: Option<SinkError>)
      requires IsTee(Value())
      modifies this
      ensures TeeDid(Value(), error) == TeeAlign(old(Value()), low)
    {
      hide AlignSink;
      var n := |sinks|;
      ghost var t := Value();
      var dids: seq<Did> := [];
      for i := 0 to n
        invariant Value() == t && |dids| == i
        invariant dids == Aligned(t, low)[..i]
      {
        dids := dids + [AlignSink(sinks[i], low)];
      }
      assert dids == Aligned(t, low);
      sinks := SinksOf(dids);
      error := FirstError(dids);
      if error.None? {
        heads := seq(n, i => low);
      }
    }

    method FlushAll(c: seq<Choice>) returns (error: Option<SinkError>)
      requires IsTee(Value()) && |c| == |sinks|
      modifies this
      ensures TeeDid(Value(), error) == TeeFlush(old(Value()), c)
    {
      hide FlushSink;
      var n := |sinks|;
      ghost var t := Value();
      var dids: seq<Did> := [];
      for i := 0 to n
        invariant Value() == t && |dids| == i
        invariant dids == Flushed(t, c)[..i]
      {
        dids := dids + [FlushSink(sinks[i], c[i])];
      }
      assert dids == Flushed(t, c);
      sinks := SinksOf(dids);
      error := FirstError(dids);
    }
  }
  /** Each inner sink is asked for its position as it is put under the tee; no floor is set yet. */
  method OpenTee(sinks: seq<Sink>, c: seq<Choice>) returns (tee: TeeSink, error: Option<SinkError>)
    requires sinks != [] && |c| == |sinks|
    ensures fresh(tee) && TeeDid(tee.Value(), error) == TeeOpen(sinks, None, c)
  {
    hide Ask;
    tee := new TeeSink(Tee(sinks, seq(|sinks|, i => 0), None));
    for i := 0 to |sinks|
      invariant fresh(tee) && IsTee(tee.Value()) && |tee.sinks| == |sinks|
      invariant forall k :: i <= k < |sinks| ==> tee.heads[k] == 0
      invariant AskFrom(tee.Value(), c, i) == TeeOpen(sinks, None, c)
    {
      var did := Ask(tee.sinks[i], c[i]);
      tee.sinks := tee.sinks[i := did.sink];
      if did.error.Some? {
        return tee, did.error;
      }
      tee.heads := tee.heads[i := Position(did.sink)];
    }
    return tee, None;
  }

  /** Whether the floor is set before or after the inner sinks are asked. */
  lemma {:induction false} FloorAfterOpening(sinks: seq<Sink>, floor: Option<nat>, c: seq<Choice>)
    requires sinks != [] && |c| == |sinks|
    ensures var did := TeeOpen(sinks, None, c);
            TeeOpen(sinks, floor, c) == TeeDid(did.tee.(cursor := floor), did.error)
  {
    CursorIsKept(Tee(sinks, seq(|sinks|, i => 0), None), floor, c, 0);
  }

  lemma {:induction false} CursorIsKept(t: Tee, cursor: Option<nat>, c: seq<Choice>, i: nat)
    requires IsTee(t) && |c| == |t.sinks| && i <= |t.sinks|
    ensures var did := AskFrom(t, c, i);
            AskFrom(t.(cursor := cursor), c, i) == TeeDid(did.tee.(cursor := cursor), did.error)
    decreases |t.sinks| - i
  {
    hide Ask;
    if i < |t.sinks| {
      var did := Ask(t.sinks[i], c[i]);
      var asked := t.(sinks := t.sinks[i := did.sink]);
      CursorIsKept(asked.(heads := t.heads[i := Position(did.sink)]), cursor, c, i + 1);
    }
  }
}
