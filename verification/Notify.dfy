/** Webhook notification: what the acknowledged offset promises.

    Two tasks share a buffer, an error slot and a dispatch lock: the consumer
    (the run loop calling `on_record`) and the timer. A run is their
    interleaving, one lock operation or one dispatch at a time; it can end at
    any of them. A history of runs goes on from the offset the last one
    committed. */
module Notify {
  import opened Records

  // ---------- one run ----------

  datatype Holder = Free | ByConsumer | ByTimer

  /** Where the consumer is in `on_record`, or in the drain a shutdown asks for. */
  datatype Consumer =
    | Between
    | Accepting(record: Record)
    | Wanting
    | Holding
    | Taking
    | Sending(batch: seq<Record>)
    | Acking(batch: seq<Record>)

  /** Where the timer task is. From `Failing` on, its batch is known to be undelivered. */
  datatype Timer =
    | Waiting
    | TimerTaking
    | TimerSending(batch: seq<Record>)
    | TimerAcking(batch: seq<Record>)
    | Failing(batch: seq<Record>)
    | Leaving(batch: seq<Record>)
    | Gone(batch: seq<Record>)

  /** `appended` and `done` are history: every record put into the buffer, and those of batches
      whose dispatch returned Ok. */
  datatype Run = Run(
    next: nat,
    buffer: seq<Record>,
    error: bool,
    lock: Holder,
    consumer: Consumer,
    timer: Timer,
    stopping: bool,
    ack: nat,
    appended: seq<Record>,
    done: seq<Record>)

  /** One step of a run: a record from the loop, a lock taken, a dispatch that returns. */
  datatype Step =
    | Present(record: Record)
    | Append
    | Lock
    | CheckError
    | Take
    | Sent(ok: bool)
    | Ack
    | TimerLock
    | TimerTake
    | TimerSent(ok: bool)
    | TimerAck
    | Stash
    | Leave
    | Watch
    | Shutdown

  datatype Went = On(run: Run) | Over(run: Run)

  function Begun(start: nat): Run {
    Run(start, [], false, Free, Between, Waiting, false, 0, [], [])
  }

  function High(batch: seq<Record>): nat
    requires batch != []
  {
    batch[|batch| - 1].offset
  }

  function Acked(ack: nat, batch: seq<Record>): nat
    requires batch != []
  {
    if ack < High(batch) + 1 then High(batch) + 1 else ack
  }

  predicate IsFed(batch: seq<Record>) {
    batch != []
  }

  /** Not suppressed, and its key can be sent. */
  predicate IsNotified(r: Record, threshold: nat) {
    threshold <= r.offset && HasTextKey(r)
  }

  predicate CanGo(run: Run, step: Step) {
    match step
    case Present(_) => run.consumer.Between?
    case Append => run.consumer.Accepting?
    case Lock => run.consumer.Wanting? && run.lock.Free?
    case CheckError => run.consumer.Holding?
    case Take => run.consumer.Taking?
    case Sent(_) => run.consumer.Sending?
    case Ack => run.consumer.Acking? && IsFed(run.consumer.batch)
    case TimerLock => run.timer.Waiting? && run.lock.Free?
    case TimerTake => run.timer.TimerTaking?
    case TimerSent(_) => run.timer.TimerSending?
    case TimerAck => run.timer.TimerAcking? && IsFed(run.timer.batch)
    case Stash => run.timer.Failing?
    case Leave => run.timer.Leaving?
    case Watch => run.error
    case Shutdown => run.consumer.Between? && !run.stopping
  }

  /** After a drain the consumer goes on with the next record, or the run is over. */
  function Drained(run: Run): Went {
    var r := run.(lock := Free, consumer := Between);
    if run.stopping then Over(r) else On(r)
  }

  function Go(run: Run, threshold: nat, maxRecords: nat, step: Step): Went
    requires CanGo(run, step)
  {
    match step
    // on_record: the stashed error first, then suppression, the key, the buffer
    case Present(r) => if run.error then Over(run.(error := false)) else On(run.(consumer := Accepting(r)))
    case Append =>
      var r := run.consumer.record;
      var seen := run.(next := r.offset + 1, consumer := Between);
      if !IsNotified(r, threshold) then On(seen)
      else
        var buffer := run.buffer + [r];
        On(seen.(buffer := buffer, appended := run.appended + [r],
                 consumer := if |buffer| >= maxRecords then Wanting else Between))
    // drain_now: the lock before the error check, the error check before the take
    case Lock => On(run.(lock := ByConsumer, consumer := Holding))
    case CheckError => if run.error then Over(run.(error := false, lock := Free)) else On(run.(consumer := Taking))
    case Take =>
      if run.buffer == [] then Drained(run) else On(run.(buffer := [], consumer := Sending(run.buffer)))
    case Sent(ok) =>
      if ok then On(run.(consumer := Acking(run.consumer.batch), done := run.done + run.consumer.batch))
      else Over(run.(lock := Free))
    case Ack => Drained(run.(ack := Acked(run.ack, run.consumer.batch)))
    // timer_loop
    case TimerLock => On(run.(lock := ByTimer, timer := TimerTaking))
    case TimerTake =>
      if run.buffer == [] then On(run.(lock := Free, timer := Waiting))
      else On(run.(buffer := [], timer := TimerSending(run.buffer)))
    case TimerSent(ok) =>
      if ok then On(run.(timer := TimerAcking(run.timer.batch), done := run.done + run.timer.batch))
      else On(run.(timer := Failing(run.timer.batch)))
    case TimerAck => On(run.(ack := Acked(run.ack, run.timer.batch), lock := Free, timer := Waiting))
    case Stash => On(run.(error := true, timer := Leaving(run.timer.batch)))
    case Leave => On(run.(lock := Free, timer := Gone(run.timer.batch)))
    // the supervisor's watch takes the error and ends the run
    case Watch => Over(run.(error := false))
    case Shutdown => On(run.(stopping := true, consumer := Wanting))
  }

  // ---------- what a run keeps ----------

  /** The records taken out of the buffer whose dispatch has not returned Ok. */
  function InFlight(run: Run): seq<Record> {
    if run.consumer.Sending? then run.consumer.batch
    else if run.timer.TimerSending? || run.timer.Failing? || run.timer.Leaving? || run.timer.Gone? then run.timer.batch
    else []
  }

  predicate ConsumerHolds(c: Consumer) {
    c.Holding? || c.Taking? || c.Sending? || c.Acking?
  }

  predicate TimerHolds(t: Timer) {
    t.TimerTaking? || t.TimerSending? || t.TimerAcking? || t.Failing? || t.Leaving?
  }

  ghost predicate Ascends(records: seq<Record>, next: nat) {
    && (forall i, j :: 0 <= i < j < |records| ==> records[i].offset < records[j].offset)
    && (forall i :: 0 <= i < |records| ==> records[i].offset < next)
  }

  /** The lock has one holder; once the timer's batch is lost, its error is on the way to the
      consumer before the lock is. */
  ghost predicate LockFits(run: Run) {
    && (run.lock.ByConsumer? <==> ConsumerHolds(run.consumer))
    && (run.lock.ByTimer? <==> TimerHolds(run.timer))
    && (run.timer.Leaving? || run.timer.Gone? <==> run.error)
    && (run.consumer.Taking? || run.consumer.Sending? || run.consumer.Acking? ==> !run.timer.Gone?)
  }

  /** A delivered batch not acknowledged yet is the last one delivered. */
  ghost predicate LastDone(done: seq<Record>, batch: seq<Record>) {
    batch != [] && |batch| <= |done| && done[|done| - |batch|..] == batch
  }

  /** Batches leave in the order their records came: what was appended is what was delivered, what
      is in flight or lost, and what is buffered. */
  ghost predicate BatchesFit(run: Run) {
    && run.appended == run.done + InFlight(run) + run.buffer
    && (run.consumer.Acking? ==> LastDone(run.done, run.consumer.batch))
    && (run.timer.TimerAcking? ==> LastDone(run.done, run.timer.batch))
    && (run.consumer.Sending? ==> run.consumer.batch != [])
    && (run.timer.TimerSending? ==> run.timer.batch != [])
  }

  /** Every record to notify that came from `start` on is among `records`. */
  ghost predicate Covers(log: seq<Record>, start: nat, next: nat, threshold: nat, records: seq<Record>) {
    forall k :: 0 <= k < |log| && start <= log[k].offset < next && threshold <= log[k].offset && HasTextKey(log[k])
                ==> log[k] in records
  }

  /** Records of the source that are to be notified, and no others. */
  ghost predicate AreNotified(log: seq<Record>, threshold: nat, records: seq<Record>) {
    forall i :: 0 <= i < |records| ==> IsNotified(records[i], threshold) && records[i] in log
  }

  ghost predicate HistoryOf(
      log: seq<Record>, start: nat, threshold: nat, next: nat, ack: nat, appended: seq<Record>, done: seq<Record>)
  {
    && Ascends(appended, next)
    && AreNotified(log, threshold, appended)
    && Covers(log, start, next, threshold, appended)
    && done <= appended
    && (ack > 0 ==> done != [] && threshold < ack <= High(done) + 1)
  }

  /** What the history of a run says, also once it is over. */
  ghost predicate HistoryFits(log: seq<Record>, start: nat, threshold: nat, run: Run) {
    HistoryOf(log, start, threshold, run.next, run.ack, run.appended, run.done)
  }

  ghost predicate RunFits(log: seq<Record>, start: nat, threshold: nat, run: Run) {
    && HistoryFits(log, start, threshold, run)
    && LockFits(run) && BatchesFit(run)
    && (run.consumer.Accepting? ==> DeliversNext(log, run.next, run.consumer.record))
  }

  lemma {:induction false} BegunFits(log: seq<Record>, start: nat, threshold: nat)
    ensures RunFits(log, start, threshold, Begun(start))
  {
  }

  /** The source hands the run loop its records in turn. */
  ghost predicate FromSource(log: seq<Record>, run: Run, step: Step) {
    step.Present? ==> DeliversNext(log, run.next, step.record)
  }

  lemma {:induction false} CoversMore(
      log: seq<Record>, start: nat, next: nat, threshold: nat, records: seq<Record>, r: Record)
    requires Ascending(log) && Covers(log, start, next, threshold, records) && DeliversNext(log, next, r)
    ensures Covers(log, start, r.offset + 1, threshold, if IsNotified(r, threshold) then records + [r] else records)
  {
    hide HasTextKey;
    var i := First(log, next);
    var more := if IsNotified(r, threshold) then records + [r] else records;
    assert forall k :: i < k < |log| ==> r.offset < log[k].offset;
    forall k | 0 <= k < |log| && start <= log[k].offset < r.offset + 1 && threshold <= log[k].offset
      && HasTextKey(log[k])
      ensures log[k] in more
    {
      if k == i {
        assert more[|more| - 1] == log[k];
      } else {
        assert log[k] in records;
      }
    }
  }

  lemma {:induction false} AppendKeepsHistory(log: seq<Record>, start: nat, threshold: nat, run: Run, r: Record)
    requires Ascending(log) && HistoryFits(log, start, threshold, run) && DeliversNext(log, run.next, r)
    ensures var appended := if IsNotified(r, threshold) then run.appended + [r] else run.appended;
            HistoryFits(log, start, threshold, run.(next := r.offset + 1, appended := appended))
  {
    hide IsNotified, Covers, DeliversNext, Ascends, AreNotified;
    RangeOfDelivered(log, run.next, r);
    CoversMore(log, start, run.next, threshold, run.appended, r);
    AscendsMore(run.appended, run.next, r);
    NotifiedMore(log, threshold, run.appended, run.next, r);
  }

  lemma {:induction false} AscendsMore(records: seq<Record>, next: nat, r: Record)
    requires Ascends(records, next) && next <= r.offset
    ensures Ascends(records, r.offset + 1) && Ascends(records + [r], r.offset + 1)
  {
  }

  lemma {:induction false} NotifiedMore(log: seq<Record>, threshold: nat, records: seq<Record>, next: nat, r: Record)
    requires AreNotified(log, threshold, records) && DeliversNext(log, next, r)
    ensures IsNotified(r, threshold) ==> AreNotified(log, threshold, records + [r])
  {
    hide IsNotified;
  }

  lemma {:induction false} AckKeepsHistory(log: seq<Record>, start: nat, threshold: nat, run: Run, batch: seq<Record>)
    requires HistoryFits(log, start, threshold, run) && LastDone(run.done, batch)
    ensures HistoryFits(log, start, threshold, run.(ack := Acked(run.ack, batch)))
  {
    var n, d := |batch|, |run.done|;
    assert run.done[d - n..][n - 1] == run.done[d - 1];
    assert run.done[d - 1] == run.appended[d - 1];
  }

  lemma {:induction false} SentKeepsHistory(log: seq<Record>, start: nat, threshold: nat, run: Run, batch: seq<Record>)
    requires HistoryFits(log, start, threshold, run) && run.appended == run.done + batch + run.buffer && batch != []
    ensures HistoryFits(log, start, threshold, run.(done := run.done + batch))
    ensures LastDone(run.done + batch, batch)
  {
    var done := run.done + batch;
    assert done[|done| - |batch|..] == batch;
    if run.ack > 0 {
      var d := |run.done|;
      assert run.appended[d - 1] == run.done[d - 1] && run.appended[|done| - 1] == done[|done| - 1];
      assert d < |done| ==> run.appended[d - 1].offset < run.appended[|done| - 1].offset;
    }
  }

  ghost predicate ConsumerSteps(step: Step) {
    step.Present? || step.Append? || step.Lock? || step.CheckError? || step.Take? || step.Sent? || step.Ack?
      || step.Shutdown?
  }

  ghost predicate Keeps(log: seq<Record>, start: nat, threshold: nat, run: Run, went: Went) {
    && HistoryFits(log, start, threshold, went.run)
    && (went.On? ==> RunFits(log, start, threshold, went.run))
    && run.done <= went.run.done
  }

  lemma {:induction false} LockKeeps(run: Run, threshold: nat, maxRecords: nat, step: Step)
    requires LockFits(run) && CanGo(run, step)
    ensures var went := Go(run, threshold, maxRecords, step); went.On? ==> LockFits(went.run)
  {
    hide HasTextKey, Acked;
  }

  lemma {:induction false} ConsumerBatches(run: Run, threshold: nat, maxRecords: nat, step: Step)
    requires LockFits(run) && BatchesFit(run) && CanGo(run, step) && ConsumerSteps(step)
    ensures var went := Go(run, threshold, maxRecords, step); went.On? ==> BatchesFit(went.run)
  {
    hide HasTextKey, Acked, LastDone;
    match step
    case Append =>
      assert run.appended + [run.consumer.record] == run.done + InFlight(run) + (run.buffer + [run.consumer.record]);
    case Take =>
      assert run.appended == run.done + run.buffer + [];
    case Sent(ok) =>
      if ok {
        SentIsLast(run, run.consumer.batch);
        assert run.appended == (run.done + run.consumer.batch) + [] + run.buffer;
      }
    case _ =>
  }

  lemma {:induction false} TimerBatches(run: Run, threshold: nat, maxRecords: nat, step: Step)
    requires LockFits(run) && BatchesFit(run) && CanGo(run, step) && !ConsumerSteps(step)
    ensures var went := Go(run, threshold, maxRecords, step); went.On? ==> BatchesFit(went.run)
  {
    hide HasTextKey, Acked, LastDone;
    match step
    case TimerTake =>
      assert run.appended == run.done + run.buffer + [];
    case TimerSent(ok) =>
      if ok {
        SentIsLast(run, run.timer.batch);
        assert run.appended == (run.done + run.timer.batch) + [] + run.buffer;
      }
    case _ =>
  }

  lemma {:induction false} SentIsLast(run: Run, batch: seq<Record>)
    requires batch != []
    ensures LastDone(run.done + batch, batch)
  {
    var done := run.done + batch;
    assert done[|done| - |batch|..] == batch;
  }

  lemma {:induction false} StepKeepsHistory(
      log: seq<Record>, start: nat, threshold: nat, maxRecords: nat, run: Run, step: Step)
    requires Ascending(log) && RunFits(log, start, threshold, run) && CanGo(run, step) && FromSource(log, run, step)
    ensures HistoryFits(log, start, threshold, Go(run, threshold, maxRecords, step).run)
    ensures run.done <= Go(run, threshold, maxRecords, step).run.done
  {
    hide HasTextKey, DeliversNext, HistoryOf, Acked, LastDone;
    match step
    case Append => AppendKeepsHistory(log, start, threshold, run, run.consumer.record);
    case Sent(ok) =>
      if ok {
        SentKeepsHistory(log, start, threshold, run, run.consumer.batch);
      }
    case TimerSent(ok) =>
      if ok {
        SentKeepsHistory(log, start, threshold, run, run.timer.batch);
      }
    case Ack => AckKeepsHistory(log, start, threshold, run, run.consumer.batch);
    case TimerAck => AckKeepsHistory(log, start, threshold, run, run.timer.batch);
    case _ =>
  }

  lemma {:induction false} AcceptsNext(log: seq<Record>, run: Run, threshold: nat, maxRecords: nat, step: Step)
    requires CanGo(run, step) && FromSource(log, run, step)
    requires run.consumer.Accepting? ==> DeliversNext(log, run.next, run.consumer.record)
    ensures var went := Go(run, threshold, maxRecords, step).run;
            went.consumer.Accepting? ==> DeliversNext(log, went.next, went.consumer.record)
  {
    hide HasTextKey, DeliversNext, Acked;
  }

  /** Every step of either task keeps a run's promise, and so does the step that ends it. */
  lemma {:induction false} GoKeeps(log: seq<Record>, start: nat, threshold: nat, maxRecords: nat, run: Run, step: Step)
    requires Ascending(log) && RunFits(log, start, threshold, run) && CanGo(run, step) && FromSource(log, run, step)
    ensures Keeps(log, start, threshold, run, Go(run, threshold, maxRecords, step))
  {
    hide HistoryFits, LockFits, BatchesFit, DeliversNext, Go, FromSource, CanGo;
    StepKeepsHistory(log, start, threshold, maxRecords, run, step);
    LockKeeps(run, threshold, maxRecords, step);
    if ConsumerSteps(step) {
      ConsumerBatches(run, threshold, maxRecords, step);
    } else {
      TimerBatches(run, threshold, maxRecords, step);
    }
    AcceptsNext(log, run, threshold, maxRecords, step);
  }

  /** The acknowledged offset never passes a record whose batch was not delivered. */
  lemma {:induction false} AckPassesOnlyDelivered(log: seq<Record>, start: nat, threshold: nat, run: Run, k: nat)
    requires HistoryFits(log, start, threshold, run) && k < |log|
    requires start <= log[k].offset < run.ack && threshold <= log[k].offset && HasTextKey(log[k])
    ensures log[k] in run.done
  {
    hide HasTextKey;
    var d := |run.done|;
    assert run.done[d - 1] == run.appended[d - 1];
    assert run.appended[d - 1].offset < run.next;
    assert forall j :: d <= j < |run.appended| ==> run.appended[d - 1].offset < run.appended[j].offset;
    var i :| 0 <= i < |run.appended| && run.appended[i] == log[k];
    assert run.done[i] == run.appended[i];
  }

  lemma {:induction false} InConcat(a: seq<Record>, b: seq<Record>, r: Record) returns (i: nat)
    requires r in b
    ensures |a| <= i < |a + b| && (a + b)[i] == r
  {
    var j :| 0 <= j < |b| && b[j] == r;
    i := |a| + j;
  }

  lemma {:induction false} SplitsInOrder(a: seq<Record>, b: seq<Record>, next: nat, r: Record, later: Record)
    requires Ascends(a + b, next) && r in a && later in b
    ensures r.offset < later.offset
  {
    var i :| 0 <= i < |a| && a[i] == r;
    var j := InConcat(a, b, later);
    assert (a + b)[i] == r;
  }

  /** Batches are dispatched in the order of their offsets: whatever is delivered comes before what
      is in flight or lost, and both before what is still buffered. */
  lemma {:induction false} BatchesInOrder(
      log: seq<Record>, start: nat, threshold: nat, run: Run, r: Record, later: Record)
    requires RunFits(log, start, threshold, run)
    requires (r in run.done && later in InFlight(run) + run.buffer)
             || (r in run.done + InFlight(run) && later in run.buffer)
    ensures r.offset < later.offset
  {
    hide Covers, Ascends, InFlight, LockFits;
    var a, b, c := run.done, InFlight(run), run.buffer;
    assert a + (b + c) == a + b + c;
    if r in a && later in b + c {
      SplitsInOrder(a, b + c, run.next, r, later);
    } else {
      SplitsInOrder(a + b, c, run.next, r, later);
    }
  }

  // ---------- a history of runs ----------

  datatype Process =
    | NoProcess
    | Running(start: nat, threshold: nat, run: Run)
    | Ended(start: nat, threshold: nat, run: Run)

  /** What the broker has committed, what was ever delivered, the source's low watermark, and the
      process. */
  datatype World = World(committed: Option<nat>, delivered: set<Record>, low: nat, process: Process)

  /** A start carries what the mirror is (whether it serves a cache, whether it has destinations,
      and where they are), and the source's watermarks: the low one also as the run loop reads it
      later, the high one as the mirror is registered. */
  datatype Label =
    | Start(servesCache: bool, destinations: bool, minHead: nat, low: nat, laterLow: nat, high: nat)
    | Do(step: Step, maxRecords: nat)
    | Commit
    | Exit

  /** The floor given to the tee: the low watermark for a mirror that serves a cache beside its
      destinations, else what was not acknowledged, where the source still has it. */
  function Floor(l: Label, committed: Option<nat>): Option<nat>
    requires l.Start?
  {
    if l.servesCache && l.destinations then Some(l.low)
    else if committed.Some? && committed.value < l.minHead then
      Some(if committed.value < l.low then l.low else committed.value)
    else None
  }

  /** The offset below which records are not notified. Only a mirror that serves a cache is
      registered with the committed offset; any other has the high watermark of its start. */
  function Threshold(l: Label, committed: Option<nat>): nat
    requires l.Start?
  {
    if l.servesCache && committed.Some? then committed.value else l.high
  }

  /** Where the run loop starts: the tee's position, moved up to the low watermark it reads. */
  function StartOf(floor: Option<nat>, minHead: nat, laterLow: nat): nat {
    var reported := if floor.Some? && floor.value < minHead then floor.value else minHead;
    if reported < laterLow then laterLow else reported
  }

  predicate CanStep(w: World, l: Label) {
    match l
    case Start(_, destinations, minHead, low, laterLow, _) =>
      w.process.NoProcess? && w.low <= low <= laterLow && (!destinations ==> minHead == 0)
    case Do(step, _) => w.process.Running? && CanGo(w.process.run, step)
    case Commit => w.process.Running? || w.process.Ended?
    case Exit => !w.process.NoProcess?
  }

  function Next(w: World, l: Label): World
    requires CanStep(w, l)
  {
    match l
    case Start(_, _, minHead, _, laterLow, _) =>
      var start := StartOf(Floor(l, w.committed), minHead, laterLow);
      w.(low := laterLow, process := Running(start, Threshold(l, w.committed), Begun(start)))
    case Do(step, maxRecords) =>
      var p := w.process;
      var went := Go(p.run, p.threshold, maxRecords, step);
      w.(delivered := w.delivered + (set r | r in went.run.done),
         process := if went.On? then Running(p.start, p.threshold, went.run) else Ended(p.start, p.threshold, went.run))
    case Commit => if w.process.run.ack == 0 then w else w.(committed := Some(w.process.run.ack))
    case Exit => w.(process := NoProcess)
  }

  /** The records to notify from the first commit on, below the committed offset and still in the
      source, have all been delivered. */
  ghost predicate AllDelivered(log: seq<Record>, first: nat, committed: nat, low: nat, delivered: set<Record>) {
    forall k :: 0 <= k < |log| && first <= log[k].offset < committed && low <= log[k].offset && HasTextKey(log[k])
                ==> log[k] in delivered
  }

  /** What a process does not present or suppresses has been delivered; what it has delivered is
      recorded; and its run fits. */
  ghost predicate ProcessFits(log: seq<Record>, first: nat, w: World) {
    w.process.NoProcess? ||
    (&& var p := w.process;
     && AllDelivered(log, first, p.start, w.low, w.delivered)
     && AllDelivered(log, first, p.threshold, w.low, w.delivered)
     && (forall r :: r in p.run.done ==> r in w.delivered)
     && HistoryFits(log, p.start, p.threshold, p.run)
     && (p.Running? ==> RunFits(log, p.start, p.threshold, p.run)))
  }

  ghost predicate Sane(log: seq<Record>, first: nat, w: World) {
    && w.committed.Some?
    && AllDelivered(log, first, w.committed.value, w.low, w.delivered)
    && ProcessFits(log, first, w)
  }

  /** A start re-presents everything not acknowledged that the source still has. */
  lemma {:induction false} StartReachesTheGap(l: Label, committed: nat)
    requires l.Start? && l.low <= l.laterLow
    ensures var start := StartOf(Floor(l, Some(committed)), l.minHead, l.laterLow);
            start <= committed || start <= l.laterLow
  {
  }

  function Further(a: nat, b: nat): nat {
    if a < b then b else a
  }

  /** Where a start reads from, exactly: a mirror that serves a cache beside its destinations from the
      low watermark; any other from its slowest destination or its commit, whichever is lower, as
      far as the source still has it. */
  lemma {:induction false} StartIs(l: Label, committed: Option<nat>)
    requires l.Start? && l.low <= l.laterLow
    ensures StartOf(Floor(l, committed), l.minHead, l.laterLow)
            == if l.servesCache && l.destinations then l.laterLow
               else if committed.Some? && committed.value < l.minHead then Further(l.laterLow, committed.value)
               else Further(l.laterLow, l.minHead)
  {
  }

  /** What a mirror can know before it starts: it will not suppress a record that is not
      committed yet. */
  predicate KeepsPromise(l: Label, committed: nat) {
    l.Start? ==> l.servesCache || l.high <= committed
  }

  lemma {:induction false} CommitKeeps(log: seq<Record>, first: nat, w: World)
    requires Ascending(log) && Sane(log, first, w) && CanStep(w, Commit)
    ensures Sane(log, first, Next(w, Commit))
  {
    hide HistoryFits, RunFits, HasTextKey;
    var p := w.process;
    if p.run.ack > 0 {
      forall k | 0 <= k < |log| && first <= log[k].offset < p.run.ack && w.low <= log[k].offset && HasTextKey(log[k])
        ensures log[k] in w.delivered
      {
        if log[k].offset >= p.start && log[k].offset >= p.threshold {
          AckPassesOnlyDelivered(log, p.start, p.threshold, p.run, k);
        }
      }
    }
  }

  ghost predicate Honest(log: seq<Record>, w: World, l: Label)
    requires CanStep(w, l)
  {
    l.Do? ==> FromSource(log, w.process.run, l.step)
  }

  /** A start of a mirror that keeps the promise. */
  ghost predicate Promises(w: World, l: Label) {
    l.Start? ==> w.committed.Some? && KeepsPromise(l, w.committed.value)
  }

  lemma {:induction false} StartKeeps(log: seq<Record>, first: nat, w: World, l: Label)
    requires Sane(log, first, w) && CanStep(w, l) && l.Start? && Promises(w, l)
    ensures Sane(log, first, Next(w, l))
  {
    hide HistoryFits, RunFits, HasTextKey;
    StartReachesTheGap(l, w.committed.value);
    var p := Next(w, l).process;
    BegunFits(log, p.start, p.threshold);
    RunKnows(log, p.start, p.threshold, p.run);
  }

  lemma {:induction false} NextKeeps(log: seq<Record>, first: nat, w: World, l: Label)
    requires Ascending(log) && Sane(log, first, w) && CanStep(w, l) && Honest(log, w, l) && Promises(w, l)
    ensures Sane(log, first, Next(w, l)) && w.delivered <= Next(w, l).delivered
  {
    hide HistoryFits, RunFits, HasTextKey, FromSource, Go, KeepsPromise;
    match l
    case Start(_, _, _, _, _, _) => StartKeeps(log, first, w, l);
    case Do(step, maxRecords) =>
      var p := w.process;
      GoKeeps(log, p.start, p.threshold, maxRecords, p.run, step);
    case Commit => CommitKeeps(log, first, w);
    case Exit =>
  }

  lemma {:induction false} RunKnows(log: seq<Record>, start: nat, threshold: nat, run: Run)
    requires RunFits(log, start, threshold, run)
    ensures HistoryFits(log, start, threshold, run)
  {
  }

  ghost predicate HonestRun(log: seq<Record>, w: World, labels: seq<Label>)
    decreases |labels|
  {
    labels == []
      || (CanStep(w, labels[0]) && Honest(log, w, labels[0]) && HonestRun(log, Next(w, labels[0]), labels[1..]))
  }

  ghost function WorldAfter(log: seq<Record>, w: World, labels: seq<Label>): World
    requires HonestRun(log, w, labels)
    decreases |labels|
  {
    if labels == [] then w else WorldAfter(log, Next(w, labels[0]), labels[1..])
  }

  /** Every start of a history is of a mirror that keeps the promise. */
  ghost predicate PromisesThroughout(log: seq<Record>, w: World, labels: seq<Label>)
    requires HonestRun(log, w, labels)
    decreases |labels|
  {
    labels == []
    || (Promises(w, labels[0]) && PromisesThroughout(log, Next(w, labels[0]), labels[1..]))
  }

  lemma {:induction false} HistoryKeeps(log: seq<Record>, first: nat, w: World, labels: seq<Label>)
    requires Ascending(log) && Sane(log, first, w) && HonestRun(log, w, labels) && PromisesThroughout(log, w, labels)
    ensures Sane(log, first, WorldAfter(log, w, labels))
    decreases |labels|
  {
    hide Sane, Next, Honest, Promises;
    if labels != [] {
      NextKeeps(log, first, w, labels[0]);
      HistoryKeeps(log, first, Next(w, labels[0]), labels[1..]);
    }
  }

  /** The broker has a commit, and no process has run yet that is spoken about. */
  function Returning(first: nat, low: nat): World {
    World(Some(first), {}, low, NoProcess)
  }

  /** At least once, across restarts. From the first commit on, whatever runs there are, however
      their two tasks interleave and wherever they fail, are killed or commit: a record with a
      text key that the committed offset has passed, and that the source has kept, was in a
      batch whose dispatch returned Ok, provided every start is of a mirror that serves a cache
      or has a high watermark not above the commit. `PromiseKeptIff` shows the proviso is needed. */
  lemma {:induction false} EveryRecordIsNotified(log: seq<Record>, first: nat, low: nat, labels: seq<Label>, k: nat)
    requires Ascending(log) && HonestRun(log, Returning(first, low), labels)
    requires PromisesThroughout(log, Returning(first, low), labels) && k < |log|
    requires var w := WorldAfter(log, Returning(first, low), labels);
             && w.committed.Some?
             && first <= log[k].offset < w.committed.value && w.low <= log[k].offset && HasTextKey(log[k])
    ensures log[k] in WorldAfter(log, Returning(first, low), labels).delivered
  {
    hide HasTextKey, HonestRun, WorldAfter, PromisesThroughout;
    HistoryKeeps(log, first, Returning(first, low), labels);
  }

  // ---------- a mirror that does not keep the promise ----------

  /** Some history leads from one world to the other without another start. */
  ghost predicate Leads(log: seq<Record>, w: World, w': World) {
    exists labels :: HonestRun(log, w, labels) && NoStart(labels) && WorldAfter(log, w, labels) == w'
  }

  predicate NoStart(labels: seq<Label>) {
    forall i :: 0 <= i < |labels| ==> !labels[i].Start?
  }

  lemma {:induction false} LeadsNowhere(log: seq<Record>, w: World)
    ensures Leads(log, w, w)
  {
    assert HonestRun(log, w, []) && WorldAfter(log, w, []) == w;
  }

  lemma {:induction false} LeadsBy(log: seq<Record>, w: World, l: Label, w': World)
    requires CanStep(w, l) && Honest(log, w, l) && !l.Start? && Leads(log, Next(w, l), w')
    ensures Leads(log, w, w')
  {
    hide CanStep, Honest, Next;
    var labels :| HonestRun(log, Next(w, l), labels) && NoStart(labels) && WorldAfter(log, Next(w, l), labels) == w';
    var more := [l] + labels;
    assert more[0] == l && more[1..] == labels;
    assert HonestRun(log, w, more);
    assert WorldAfter(log, w, more) == w';
  }

  /** A run that has taken in nothing to notify yet. */
  function Quiet(w: World, start: nat, threshold: nat, next: nat): World {
    w.(process := Running(start, threshold, Begun(start).(next := next)))
  }

  /** A record that is not notified passes without a trace. */
  lemma {:induction false} Passes(
      log: seq<Record>, w: World, start: nat, threshold: nat, next: nat, r: Record, w': World)
    requires DeliversNext(log, next, r) && !IsNotified(r, threshold)
    requires Leads(log, Quiet(w, start, threshold, r.offset + 1), w')
    ensures Leads(log, Quiet(w, start, threshold, next), w')
  {
    hide DeliversNext, IsNotified, Leads;
    var w0 := Quiet(w, start, threshold, next);
    var l1, l2 := Do(Present(r), 1), Do(Append, 1);
    var w1 := Next(w0, l1);
    assert w1.delivered == w.delivered;
    assert Next(w1, l2) == Quiet(w, start, threshold, r.offset + 1);
    LeadsBy(log, w1, l2, w');
    LeadsBy(log, w0, l1, w');
  }

  /** A run whose only record to notify so far is `r`. */
  function Only(r: Record, consumer: Consumer, lock: Holder, done: seq<Record>, ack: nat): Run {
    var buffer := if consumer.Wanting? || consumer.Holding? || consumer.Taking? then [r] else [];
    Run(r.offset + 1, buffer, false, lock, consumer, Waiting, false, ack, [r], done)
  }

  /** One step of the run, from one world to the next. */
  lemma {:induction false} LeadsByGoing(
      log: seq<Record>, w: World, start: nat, threshold: nat, run: Run, step: Step, next: Run, delivered: set<Record>,
      w': World)
    requires CanGo(run, step) && FromSource(log, run, step)
    requires Go(run, threshold, 1, step) == On(next)
    requires delivered == w.delivered + (set r | r in next.done)
    requires Leads(log, w.(delivered := delivered, process := Running(start, threshold, next)), w')
    ensures Leads(log, w.(process := Running(start, threshold, run)), w')
  {
    hide Leads, Go, CanGo, FromSource;
    LeadsBy(log, w.(process := Running(start, threshold, run)), Do(step, 1), w');
  }

  lemma {:induction false} SendsAlone(log: seq<Record>, w: World, start: nat, threshold: nat, r: Record, w': World)
    requires Leads(log, w.(process := Running(start, threshold, Only(r, Sending([r]), ByConsumer, [], 0))), w')
    ensures Leads(log, w.(process := Running(start, threshold, Only(r, Wanting, Free, [], 0))), w')
  {
    hide Leads, HasTextKey;
    var run2, run3 := Only(r, Wanting, Free, [], 0), Only(r, Holding, ByConsumer, [], 0);
    var run4, run5 := Only(r, Taking, ByConsumer, [], 0), Only(r, Sending([r]), ByConsumer, [], 0);
    assert w.delivered + (set d | d in []) == w.delivered;
    LeadsByGoing(log, w, start, threshold, run4, Take, run5, w.delivered, w');
    LeadsByGoing(log, w, start, threshold, run3, CheckError, run4, w.delivered, w');
    LeadsByGoing(log, w, start, threshold, run2, Lock, run3, w.delivered, w');
  }

  lemma {:induction false} CommitsAlone(log: seq<Record>, w: World, start: nat, threshold: nat, r: Record)
    ensures exists w' ::
              && Leads(log, w.(process := Running(start, threshold, Only(r, Sending([r]), ByConsumer, [], 0))), w')
              && w'.committed == Some(r.offset + 1) && w'.delivered == w.delivered + {r} && w'.low == w.low
  {
    hide Leads, HasTextKey;
    var run5, run6 := Only(r, Sending([r]), ByConsumer, [], 0), Only(r, Acking([r]), ByConsumer, [r], 0);
    var run7 := Only(r, Between, Free, [r], r.offset + 1);
    var sent := w.(delivered := w.delivered + {r});
    var w7 := sent.(process := Running(start, threshold, run7));
    var w' := w7.(committed := Some(r.offset + 1));
    assert (set d | d in [r]) == {r};
    assert sent.delivered + {r} == sent.delivered;
    LeadsNowhere(log, w');
    LeadsBy(log, w7, Commit, w');
    LeadsByGoing(log, sent, start, threshold, run6, Ack, run7, sent.delivered, w');
    LeadsByGoing(log, w, start, threshold, run5, Sent(true), run6, sent.delivered, w');
  }

  /** A first record to notify is delivered alone and committed. */
  lemma {:induction false} DeliversAlone(log: seq<Record>, w: World, start: nat, threshold: nat, next: nat, r: Record)
    requires DeliversNext(log, next, r) && IsNotified(r, threshold)
    ensures exists w' ::
              && Leads(log, Quiet(w, start, threshold, next), w')
              && w'.committed == Some(r.offset + 1) && w'.delivered == w.delivered + {r} && w'.low == w.low
  {
    hide DeliversNext, IsNotified, Leads;
    var run0 := Begun(start).(next := next);
    var run1 := run0.(consumer := Accepting(r));
    CommitsAlone(log, w, start, threshold, r);
    var w' :|
      && Leads(log, w.(process := Running(start, threshold, Only(r, Sending([r]), ByConsumer, [], 0))), w')
      && w'.committed == Some(r.offset + 1) && w'.delivered == w.delivered + {r} && w'.low == w.low;
    SendsAlone(log, w, start, threshold, r, w');
    assert w.delivered + (set d | d in []) == w.delivered;
    assert [] + [r] == [r];
    LeadsByGoing(log, w, start, threshold, run1, Append, Only(r, Wanting, Free, [], 0), w.delivered, w');
    LeadsByGoing(log, w, start, threshold, run0, Present(r), run1, w.delivered, w');
  }

  /** From a quiet run the first record to notify, whatever passes before it, gets delivered and
      committed, and nothing else. */
  lemma {:induction false} FirstNotifiedCommits(
      log: seq<Record>, w: World, start: nat, threshold: nat, next: nat, m: nat)
    requires Ascending(log) && First(log, next) <= m < |log| && IsNotified(log[m], threshold)
    ensures exists n, w' ::
              && First(log, next) <= n <= m && IsNotified(log[n], threshold)
              && Leads(log, Quiet(w, start, threshold, next), w')
              && w'.committed == Some(log[n].offset + 1) && w'.delivered == w.delivered + {log[n]} && w'.low == w.low
    decreases m - First(log, next)
  {
    hide IsNotified, Leads, Quiet;
    var i := First(log, next);
    var r := log[i];
    if IsNotified(r, threshold) {
      DeliversAlone(log, w, start, threshold, next, r);
    } else {
      FirstIs(log, r.offset + 1, i + 1);
      FirstNotifiedCommits(log, w, start, threshold, r.offset + 1, m);
      var n, w' :|
        && First(log, r.offset + 1) <= n <= m && IsNotified(log[n], threshold)
        && Leads(log, Quiet(w, start, threshold, r.offset + 1), w')
        && w'.committed == Some(log[n].offset + 1) && w'.delivered == w.delivered + {log[n]} && w'.low == w.low;
      Passes(log, w, start, threshold, next, r, w');
    }
  }

  /** The promise, one process on: everything to notify below the commit is delivered in whatever
      world can come of it. */
  ghost predicate KeptFrom(log: seq<Record>, first: nat, w: World) {
    forall w' :: Leads(log, w, w') && w'.committed.Some?
                 ==> AllDelivered(log, first, w'.committed.value, w'.low, w'.delivered)
  }

  /** The losing history: a start that suppresses a record to notify, which the source still has,
      followed by a record it does notify. */
  lemma {:induction false} SuppressedIsLost(log: seq<Record>, first: nat, low: nat, l: Label, k: nat, m: nat)
    requires Ascending(log) && l.Start? && CanStep(Returning(first, low), l) && !KeepsPromise(l, first)
    requires k < |log| && first <= log[k].offset < l.high && l.laterLow <= log[k].offset && HasTextKey(log[k])
    requires m < |log| && l.high <= log[m].offset && HasTextKey(log[m])
    ensures exists w' ::
              && Leads(log, Next(Returning(first, low), l), w')
              && w'.committed.Some? && log[k].offset < w'.committed.value && w'.low <= log[k].offset
              && log[k] !in w'.delivered
  {
    hide HasTextKey, Leads;
    StartReachesTheGap(l, first);
    var w := Next(Returning(first, low), l);
    var start := w.process.start;
    assert w == Quiet(w, start, l.high, start);
    assert start <= log[m].offset;
    assert First(log, start) <= m;
    FirstNotifiedCommits(log, w, start, l.high, start, m);
    var n, w' :|
      && First(log, start) <= n <= m && IsNotified(log[n], l.high)
      && Leads(log, Quiet(w, start, l.high, start), w')
      && w'.committed == Some(log[n].offset + 1) && w'.delivered == w.delivered + {log[n]} && w'.low == w.low;
    assert log[n].offset >= l.high;
  }

  /** When the promise holds, exactly. For a mirror that returns at a commit, where the source
      still has a record to notify at or above that commit and below the high watermark, and one
      at or above it: the promise is kept in everything that can come of the start if and only if
      the mirror serves a cache, or its high watermark is not above the commit. */
  lemma {:induction false} PromiseKeptIff(log: seq<Record>, first: nat, low: nat, l: Label, k: nat, m: nat)
    requires Ascending(log) && l.Start? && CanStep(Returning(first, low), l)
    requires k < |log| && m < |log| && HasTextKey(log[k]) && HasTextKey(log[m]) && l.high <= log[m].offset
    requires l.high > first ==> first <= log[k].offset < l.high && l.laterLow <= log[k].offset
    ensures KeptFrom(log, first, Next(Returning(first, low), l)) <==> l.servesCache || l.high <= first
  {
    hide HasTextKey, Leads, AllDelivered;
    var w := Next(Returning(first, low), l);
    if KeepsPromise(l, first) {
      NothingToDeliver(log, first, low);
      StartKeeps(log, first, Returning(first, low), l);
      forall w' | Leads(log, w, w') && w'.committed.Some?
        ensures AllDelivered(log, first, w'.committed.value, w'.low, w'.delivered)
      {
        LeadsKeeps(log, first, w, w');
      }
    } else {
      SuppressedIsLost(log, first, low, l, k, m);
      var w' :|
        && Leads(log, w, w')
        && w'.committed.Some? && log[k].offset < w'.committed.value && w'.low <= log[k].offset
        && log[k] !in w'.delivered;
      NotAllDelivered(log, first, w', k);
    }
  }

  lemma {:induction false} NothingToDeliver(log: seq<Record>, first: nat, low: nat)
    ensures Sane(log, first, Returning(first, low))
  {
  }

  lemma {:induction false} NotAllDelivered(log: seq<Record>, first: nat, w: World, k: nat)
    requires w.committed.Some? && k < |log| && first <= log[k].offset < w.committed.value && w.low <= log[k].offset
    requires HasTextKey(log[k]) && log[k] !in w.delivered
    ensures !AllDelivered(log, first, w.committed.value, w.low, w.delivered)
  {
    hide HasTextKey;
  }

  lemma {:induction false} NoStartPromises(log: seq<Record>, w: World, labels: seq<Label>)
    requires HonestRun(log, w, labels) && NoStart(labels)
    ensures PromisesThroughout(log, w, labels)
    decreases |labels|
  {
    hide Next, CanStep, Honest;
    if labels != [] {
      assert forall i :: 0 <= i < |labels| - 1 ==> labels[1..][i] == labels[i + 1];
      NoStartPromises(log, Next(w, labels[0]), labels[1..]);
    }
  }

  lemma {:induction false} LeadsKeeps(log: seq<Record>, first: nat, w: World, w': World)
    requires Ascending(log) && Sane(log, first, w) && Leads(log, w, w') && w'.committed.Some?
    ensures AllDelivered(log, first, w'.committed.value, w'.low, w'.delivered)
  {
    hide HonestRun, WorldAfter, AllDelivered, ProcessFits, PromisesThroughout;
    var labels :| HonestRun(log, w, labels) && NoStart(labels) && WorldAfter(log, w, labels) == w';
    NoStartPromises(log, w, labels);
    HistoryKeeps(log, first, w, labels);
  }

  /** A notification feed without destinations and without a cache, as the repository's example
      configures one: it returns at commit 0 of a partition with one record, a second one comes,
      and the commit passes the first, which no batch ever held. */
  lemma {:induction false} NotifyOnlyFeedLosesARecord(one: Record, two: Record)
    requires one.offset == 0 && two.offset == 1 && HasTextKey(one) && HasTextKey(two)
    ensures var l := Start(false, false, 0, 0, 0, 1);
            && CanStep(Returning(0, 0), l)
            && exists w' ::
                 && Leads([one, two], Next(Returning(0, 0), l), w')
                 && w'.committed == Some(2) && one !in w'.delivered
  {
    hide HasTextKey, Leads;
    var log, l := [one, two], Start(false, false, 0, 0, 0, 1);
    var w := Next(Returning(0, 0), l);
    assert w == Quiet(w, 0, 1, 0) && First(log, 0) == 0;
    FirstNotifiedCommits(log, w, 0, 1, 0, 1);
    var n, w' :|
      && First(log, 0) <= n <= 1 && IsNotified(log[n], 1)
      && Leads(log, Quiet(w, 0, 1, 0), w')
      && w'.committed == Some(log[n].offset + 1) && w'.delivered == w.delivered + {log[n]} && w'.low == w.low;
    assert n == 1;
  }
}
