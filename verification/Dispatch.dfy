/** What a notification run does, beside what it promises: how far its acknowledgement
    follows, how large its batches are, what stops it, and that its buffer empties. */
module Dispatches {
  import opened Records
  import opened Notify

  // ---------- the acknowledged offset follows ----------

  /** What is acknowledged is one past the last record delivered, except between a dispatch and its
      acknowledgement, when it is not yet that far. */
  ghost predicate CaughtUp(run: Run) {
    && (run.done == [] ==> run.ack == 0)
    && (run.done != [] ==> run.ack <= High(run.done) + 1)
    && (run.done != [] && !run.consumer.Acking? && !run.timer.TimerAcking? ==> run.ack == High(run.done) + 1)
  }

  lemma {:induction false} AckedIsLast(run: Run, batch: seq<Record>)
    requires CaughtUp(run) && LastDone(run.done, batch)
    ensures run.done != [] && Acked(run.ack, batch) == High(run.done) + 1
  {
    assert run.done[|run.done| - |batch|..][|batch| - 1] == run.done[|run.done| - 1];
  }

  lemma {:induction false} SentIsAhead(log: seq<Record>, start: nat, threshold: nat, run: Run, batch: seq<Record>)
    requires HistoryFits(log, start, threshold, run) && CaughtUp(run) && batch != []
    requires run.appended == run.done + batch + run.buffer
    ensures run.ack <= High(run.done + batch) + 1
  {
    hide HasTextKey, Covers;
    var done := run.done + batch;
    if run.done != [] {
      var d := |run.done|;
      assert run.appended[d - 1] == run.done[d - 1] && run.appended[|done| - 1] == done[|done| - 1];
      assert run.appended[d - 1].offset < run.appended[|done| - 1].offset;
    }
  }

  /** Every step of either task keeps it, also the one that ends the run. */
  lemma {:induction false} GoCatchesUp(
      log: seq<Record>, start: nat, threshold: nat, maxRecords: nat, run: Run, step: Step)
    requires RunFits(log, start, threshold, run) && CanGo(run, step) && CaughtUp(run)
    ensures CaughtUp(Go(run, threshold, maxRecords, step).run)
  {
    hide HasTextKey, HistoryFits, DeliversNext, LastDone, Acked;
    match step
    case Sent(ok) => SentIsAhead(log, start, threshold, run, run.consumer.batch);
    case TimerSent(ok) => SentIsAhead(log, start, threshold, run, run.timer.batch);
    case Ack => AckedIsLast(run, run.consumer.batch);
    case TimerAck => AckedIsLast(run, run.timer.batch);
    case _ =>
  }

  ghost predicate ProcessCaughtUp(log: seq<Record>, w: World) {
    w.process.NoProcess?
    || (CaughtUp(w.process.run)
        && (w.process.Running? ==> RunFits(log, w.process.start, w.process.threshold, w.process.run)))
  }

  lemma {:induction false} NextCatchesUp(log: seq<Record>, w: World, l: Label)
    requires Ascending(log) && ProcessCaughtUp(log, w) && CanStep(w, l) && Honest(log, w, l)
    ensures ProcessCaughtUp(log, Next(w, l))
  {
    hide RunFits, CaughtUp, Go, CanGo, FromSource, Threshold, Floor;
    match l
    case Start(_, _, _, _, _, _) =>
      var p := Next(w, l).process;
      BegunFits(log, p.start, p.threshold);
      BegunIsCaughtUp(p.start);
    case Do(step, maxRecords) =>
      var p := w.process;
      GoKeeps(log, p.start, p.threshold, maxRecords, p.run, step);
      GoCatchesUp(log, p.start, p.threshold, maxRecords, p.run, step);
    case _ =>
  }

  lemma {:induction false} BegunIsCaughtUp(start: nat)
    ensures CaughtUp(Begun(start))
  {
  }

  lemma {:induction false} HistoryCatchesUp(log: seq<Record>, w: World, labels: seq<Label>)
    requires Ascending(log) && ProcessCaughtUp(log, w) && HonestRun(log, w, labels)
    ensures ProcessCaughtUp(log, WorldAfter(log, w, labels))
    decreases |labels|
  {
    hide ProcessCaughtUp, Next, CanStep, Honest;
    if labels != [] {
      NextCatchesUp(log, w, labels[0]);
      HistoryCatchesUp(log, Next(w, labels[0]), labels[1..]);
    }
  }

  /** Over every history of runs: a commit made while no dispatch waits for its acknowledgement is
      one past the last record its run has delivered. */
  lemma {:induction false} CommitIsCaughtUp(log: seq<Record>, first: nat, low: nat, labels: seq<Label>)
    requires Ascending(log) && HonestRun(log, Returning(first, low), labels)
    requires var w := WorldAfter(log, Returning(first, low), labels);
             && CanStep(w, Commit) && w.process.run.done != []
             && !w.process.run.consumer.Acking? && !w.process.run.timer.TimerAcking?
    ensures var w := WorldAfter(log, Returning(first, low), labels);
            Next(w, Commit).committed == Some(High(w.process.run.done) + 1)
  {
    hide HonestRun, WorldAfter, RunFits;
    HistoryCatchesUp(log, Returning(first, low), labels);
  }

  // ---------- the commit never goes back ----------

  /** What is committed is below what the run notifies, or was acknowledged by it. */
  ghost predicate IsForward(log: seq<Record>, w: World) {
    w.process.NoProcess?
    || (&& HistoryFits(log, w.process.start, w.process.threshold, w.process.run)
        && (w.process.Running? ==> RunFits(log, w.process.start, w.process.threshold, w.process.run))
        && (w.committed.Some? ==>
              w.committed.value <= w.process.threshold || w.committed.value <= w.process.run.ack))
  }

  /** A start whose threshold is not below the commit: one that serves a cache, or whose source is
      not behind what it was notified of. */
  predicate StartsForward(w: World, l: Label) {
    l.Start? && w.committed.Some? ==> l.servesCache || w.committed.value <= l.high
  }

  predicate NotBelow(before: Option<nat>, after: Option<nat>) {
    before.Some? ==> after.Some? && before.value <= after.value
  }

  lemma {:induction false} AckOnlyRises(run: Run, threshold: nat, maxRecords: nat, step: Step)
    requires CanGo(run, step)
    ensures run.ack <= Go(run, threshold, maxRecords, step).run.ack
  {
    hide HasTextKey;
  }

  lemma {:induction false} NextIsForward(log: seq<Record>, w: World, l: Label)
    requires Ascending(log) && IsForward(log, w) && CanStep(w, l) && Honest(log, w, l) && StartsForward(w, l)
    ensures IsForward(log, Next(w, l)) && NotBelow(w.committed, Next(w, l).committed)
  {
    hide RunFits, Go, CanGo, FromSource, Floor, Covers, Ascends, AreNotified;
    match l
    case Start(_, _, _, _, _, _) =>
      var p := Next(w, l).process;
      BegunFits(log, p.start, p.threshold);
      RunKnows(log, p.start, p.threshold, p.run);
    case Do(step, maxRecords) =>
      var p := w.process;
      GoKeeps(log, p.start, p.threshold, maxRecords, p.run, step);
      AckOnlyRises(p.run, p.threshold, maxRecords, step);
    case _ =>
  }

  ghost predicate AllForward(log: seq<Record>, w: World, labels: seq<Label>)
    requires HonestRun(log, w, labels)
    decreases |labels|
  {
    labels == []
    || (StartsForward(w, labels[0]) && AllForward(log, Next(w, labels[0]), labels[1..]))
  }

  /** Over every history of runs the committed offset never goes back, also where a run has nothing
      to acknowledge yet. */
  lemma {:induction false} CommitNeverGoesBack(log: seq<Record>, w: World, labels: seq<Label>)
    requires Ascending(log) && IsForward(log, w) && HonestRun(log, w, labels) && AllForward(log, w, labels)
    ensures NotBelow(w.committed, WorldAfter(log, w, labels).committed)
    decreases |labels|
  {
    hide IsForward, Next, CanStep, Honest, StartsForward;
    if labels != [] {
      NextIsForward(log, w, labels[0]);
      CommitNeverGoesBack(log, Next(w, labels[0]), labels[1..]);
    }
  }

  // ---------- the size of a batch ----------

  /** The limit is on records, not on keys; it is reached by one record at a time. While the run is
      not stopping, what the consumer takes out is a full batch, unless the timer came first. */
  ghost predicate Debounced(run: Run, maxRecords: nat) {
    && |run.buffer| <= maxRecords
    && (run.stopping ==> !run.consumer.Between? && !run.consumer.Accepting?)
    && (run.consumer.Between? || run.consumer.Accepting? ==> |run.buffer| < maxRecords)
    && (run.consumer.Wanting? || run.consumer.Holding? || run.consumer.Taking? ==>
          run.stopping || run.buffer == [] || |run.buffer| == maxRecords)
    && (run.consumer.Sending? || run.consumer.Acking? ==>
          run.buffer == [] && (run.stopping || |run.consumer.batch| == maxRecords))
  }

  /** From a run that begins, every step keeps the buffer and the consumer's batches within the
      limit, and the batches at it. */
  lemma {:induction false} GoDebounces(run: Run, threshold: nat, maxRecords: nat, step: Step)
    requires maxRecords > 0 && Debounced(run, maxRecords) && CanGo(run, step)
    requires LockFits(run)
    ensures var went := Go(run, threshold, maxRecords, step); went.On? ==> Debounced(went.run, maxRecords)
  {
    hide HasTextKey, Acked;
  }

  lemma {:induction false} BegunIsDebounced(start: nat, maxRecords: nat)
    requires maxRecords > 0
    ensures Debounced(Begun(start), maxRecords)
  {
  }

  // ---------- steps of a run, in turn ----------

  ghost predicate CanGoAll(run: Run, threshold: nat, maxRecords: nat, steps: seq<Step>)
    decreases |steps|
  {
    steps == []
    || (&& CanGo(run, steps[0])
        && var went := Go(run, threshold, maxRecords, steps[0]);
        if went.On? then CanGoAll(went.run, threshold, maxRecords, steps[1..]) else |steps| == 1)
  }

  ghost function AfterAll(run: Run, threshold: nat, maxRecords: nat, steps: seq<Step>): Run
    requires CanGoAll(run, threshold, maxRecords, steps)
    decreases |steps|
  {
    if steps == [] then run
    else
      var went := Go(run, threshold, maxRecords, steps[0]);
      if went.On? then AfterAll(went.run, threshold, maxRecords, steps[1..]) else went.run
  }

  // ---------- a lost batch ----------

  /** Once a batch is known to be lost, nothing more is taken into the buffer, save a record the
      consumer has already let in, and nothing more is delivered or acknowledged. */
  lemma {:induction false} NothingAfterALostBatch(run: Run, threshold: nat, maxRecords: nat, steps: seq<Step>)
    requires LockFits(run) && run.error && CanGoAll(run, threshold, maxRecords, steps)
    ensures var after := AfterAll(run, threshold, maxRecords, steps);
            && after.done == run.done && after.ack == run.ack
            && (!run.consumer.Accepting? ==> after.appended == run.appended)
    decreases |steps|
  {
    hide HasTextKey, Acked, LockFits, Go, CanGo;
    if steps != [] {
      LostBatchStep(run, threshold, maxRecords, steps[0]);
      LockKeeps(run, threshold, maxRecords, steps[0]);
      var went := Go(run, threshold, maxRecords, steps[0]);
      if went.On? {
        NothingAfterALostBatch(went.run, threshold, maxRecords, steps[1..]);
      }
    }
  }

  lemma {:induction false} LostBatchStep(run: Run, threshold: nat, maxRecords: nat, step: Step)
    requires LockFits(run) && run.error && CanGo(run, step)
    ensures var went := Go(run, threshold, maxRecords, step);
            && went.run.done == run.done && went.run.ack == run.ack
            && (!run.consumer.Accepting? ==> went.run.appended == run.appended)
            && (went.On? ==> went.run.error && (!run.consumer.Accepting? ==> !went.run.consumer.Accepting?))
  {
    hide HasTextKey, Acked;
  }

  // ---------- every run can settle ----------

  /** Everything taken in is delivered and acknowledged. */
  ghost predicate IsSettled(run: Run) {
    && run.done == run.appended && run.buffer == []
    && (run.done != [] ==> run.ack == High(run.done) + 1)
  }

  /** The task that can go on goes on, and no dispatch fails. */
  function Onward(run: Run): Option<Step> {
    match run.lock
    case ByConsumer =>
      (match run.consumer
       case Holding => Some(CheckError)
       case Taking => Some(Take)
       case Sending(_) => Some(Sent(true))
       case _ => Some(Ack))
    case ByTimer =>
      (match run.timer
       case TimerTaking => Some(TimerTake)
       case TimerSending(_) => Some(TimerSent(true))
       case _ => Some(TimerAck))
    case Free =>
      match run.consumer
      case Accepting(_) => Some(Append)
      case Wanting => Some(Lock)
      case _ => if run.buffer != [] then Some(TimerLock) else None
  }

  /** No batch is lost, or about to be. */
  ghost predicate IsSound(run: Run) {
    !run.error && !run.timer.Failing?
  }

  function Rank(run: Run): nat {
    (if run.buffer == [] then 0 else 20)
    + (match run.consumer
       case Between => 0
       case Accepting(_) => 60
       case Wanting => 9
       case Holding => 8
       case Taking => 7
       case Sending(_) => 6
       case Acking(_) => 5)
    + match run.timer
      case TimerTaking => if run.buffer == [] then 7 else 5
      case TimerSending(_) => 12
      case TimerAcking(_) => 11
      case _ => 6
  }

  lemma {:induction false} OnwardGoes(log: seq<Record>, start: nat, threshold: nat, maxRecords: nat, run: Run)
    requires RunFits(log, start, threshold, run) && IsSound(run) && Onward(run).Some?
    ensures var step := Onward(run).value;
            && CanGo(run, step) && !step.Present?
            && var went := Go(run, threshold, maxRecords, step);
            went.On? ==> IsSound(went.run) && Rank(went.run) < Rank(run)
  {
    hide HasTextKey, Acked, HistoryFits, DeliversNext;
  }

  lemma {:induction false} OverIsSettled(log: seq<Record>, start: nat, threshold: nat, maxRecords: nat, run: Run)
    requires RunFits(log, start, threshold, run) && IsSound(run) && CaughtUp(run) && Debounced(run, maxRecords)
    requires Onward(run).Some? && CanGo(run, Onward(run).value)
    requires Go(run, threshold, maxRecords, Onward(run).value).Over?
    requires CaughtUp(Go(run, threshold, maxRecords, Onward(run).value).run)
    ensures IsSettled(Go(run, threshold, maxRecords, Onward(run).value).run)
  {
    hide HasTextKey, Acked, HistoryFits, DeliversNext, LastDone;
  }

  lemma {:induction false} StoppedIsSettled(log: seq<Record>, start: nat, threshold: nat, run: Run)
    requires RunFits(log, start, threshold, run) && IsSound(run) && CaughtUp(run) && Onward(run).None?
    ensures IsSettled(run)
  {
    hide HistoryFits;
  }

  predicate NoPresent(steps: seq<Step>) {
    forall i :: 0 <= i < |steps| ==> !steps[i].Present?
  }

  lemma {:induction false} OneStepFirst(run: Run, threshold: nat, maxRecords: nat, step: Step, steps: seq<Step>)
    requires CanGo(run, step)
    requires var went := Go(run, threshold, maxRecords, step);
             if went.On? then CanGoAll(went.run, threshold, maxRecords, steps) else steps == []
    ensures CanGoAll(run, threshold, maxRecords, [step] + steps)
    ensures var went := Go(run, threshold, maxRecords, step);
            AfterAll(run, threshold, maxRecords, [step] + steps)
            == if went.On? then AfterAll(went.run, threshold, maxRecords, steps) else went.run
  {
    hide Go, CanGo;
    assert ([step] + steps)[1..] == steps;
  }

  /** No run is stuck: from wherever its two tasks are, while no batch is lost, there are steps that
      take in nothing new and after which everything taken in is delivered and acknowledged. */
  lemma {:induction false} EveryRunSettles(log: seq<Record>, start: nat, threshold: nat, maxRecords: nat, run: Run)
    requires Ascending(log) && RunFits(log, start, threshold, run) && IsSound(run)
    requires maxRecords > 0 && CaughtUp(run) && Debounced(run, maxRecords)
    ensures exists steps ::
              && NoPresent(steps) && CanGoAll(run, threshold, maxRecords, steps)
              && IsSettled(AfterAll(run, threshold, maxRecords, steps))
    decreases Rank(run)
  {
    hide RunFits, IsSound, CaughtUp, Debounced, Go, CanGo, IsSettled, LockFits, Rank, Onward;
    if Onward(run).None? {
      StoppedIsSettled(log, start, threshold, run);
      assert NoPresent([]) && CanGoAll(run, threshold, maxRecords, []);
    } else {
      var step := Onward(run).value;
      OnwardGoes(log, start, threshold, maxRecords, run);
      GoKeeps(log, start, threshold, maxRecords, run, step);
      GoCatchesUp(log, start, threshold, maxRecords, run, step);
      LockOfFits(log, start, threshold, run);
      GoDebounces(run, threshold, maxRecords, step);
      var went := Go(run, threshold, maxRecords, step);
      var steps: seq<Step> := [];
      if went.On? {
        EveryRunSettles(log, start, threshold, maxRecords, went.run);
        steps :| NoPresent(steps) && CanGoAll(went.run, threshold, maxRecords, steps)
                 && IsSettled(AfterAll(went.run, threshold, maxRecords, steps));
      } else {
        OverIsSettled(log, start, threshold, maxRecords, run);
      }
      OneStepFirst(run, threshold, maxRecords, step, steps);
      assert NoPresent([step] + steps);
    }
  }

  lemma {:induction false} LockOfFits(log: seq<Record>, start: nat, threshold: nat, run: Run)
    requires RunFits(log, start, threshold, run)
    ensures LockFits(run)
  {
  }
}
