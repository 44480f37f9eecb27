/** What each call of a blob sink comes to, exactly: when it fails and with what, when
    it writes an object and when it does not, and what its drift check finds.

    `BlobSinks` shows what no failure can break. Here nothing fails unless
    something it was given makes it fail. */
module Outcomes {
  import opened Records
  import opened Naming
  import opened Chain
  import opened Views
  import opened BlobSinks

  /** What a put of an object not yet held answers. */
  function Answer(put: Put): Option<SinkError> {
    match put
    case Stored => None
    case StoredButFailed => Some(Transport)
    case NotStored => Some(Transport)
    case NotEncodable => Some(Rejected)
  }

  predicate Lands(put: Put) {
    put.Stored? || put.StoredButFailed?
  }

  /** The daily boundary has something to flush. */
  predicate IsDaily(s: State, env: Env) {
    env.dailyDue && s.buffer != []
  }

  /** What is buffered after the daily flush, if that was due. */
  function Remaining(s: State, env: Env): seq<Record> {
    if IsDaily(s, env) then [] else s.buffer
  }

  /** The size that is counted for them. */
  function RemainingBytes(s: State, env: Env): nat {
    if IsDaily(s, env) then 0 else s.bufferBytes
  }

  predicate IsFull(spec: Spec, records: nat, bytes: nat) {
    records >= spec.maxOffsets || bytes >= spec.maxBytes
  }

  function Count(b: bool): nat {
    if b then 1 else 0
  }

  function Payload(b: Option<Bytes>): Bytes {
    match b case None => [] case Some(v) => v
  }

  function HeaderPayload(headers: seq<Header>): Bytes {
    if headers == [] then [] else headers[0].key + Payload(headers[0].value) + HeaderPayload(headers[1..])
  }

  /** The size a record counts for is the number of the bytes of its key, value and headers. */
  lemma {:induction false} SizeIsOfPayload(r: Record)
    ensures ByteSize(r) == |Payload(r.key) + Payload(r.value) + HeaderPayload(r.headers)|
  {
    HeadersSizeIsOfPayload(r.headers);
  }

  lemma {:induction false} HeadersSizeIsOfPayload(headers: seq<Header>)
    ensures HeadersSize(headers) == |HeaderPayload(headers)|
  {
    if headers != [] {
      HeadersSizeIsOfPayload(headers[1..]);
    }
  }

  // ---------- when a call fails, and what it writes ----------

  lemma {:induction false} OneObjectMore(dir: Directory, name: string, contents: seq<Record>)
    requires name !in dir
    ensures |dir[name := contents]| == |dir| + 1
  {
    assert dir[name := contents].Keys == dir.Keys + {name};
    assert |dir.Keys| == |dir| && |dir[name := contents].Keys| == |dir[name := contents]|;
  }

  /** A flush fails exactly as its put does, and moves on exactly if the put is answered; the
      directory gains one object exactly if the put lands. */
  lemma {:induction false} FlushComesTo(
      log: seq<Record>, spec: Spec, dir: Directory, chain: seq<ChainObject>, s: State, put: Put)
    requires Ascending(log) && Fits(log, spec, dir, chain, s) && s.buffer != []
    ensures var a := Flush(spec, s, dir, put);
            && a.error == Answer(put)
            && (a.error.None? ==>
                  a.state.buffer == [] && a.state.bufferBytes == 0 && a.state.durable == Head(a.state) == Head(s))
            && |a.dir| == |dir| + Count(Lands(put))
  {
    hide Holds, FitsState, Contents, BlobFilename, Delivered, PushTail;
    HoldsMore(log, spec, dir, chain, s);
    OneObjectMore(dir, NextObject(spec, s).name, Contents(spec, s));
  }

  lemma {:induction false} TickComesTo(
      log: seq<Record>, spec: Spec, dir: Directory, chain: seq<ChainObject>, s: State, env: Env)
    returns (chain': seq<ChainObject>)
    requires Ascending(log) && Fits(log, spec, dir, chain, s)
    ensures var a := TickDaily(spec, s, dir, env);
            && a.error == (if IsDaily(s, env) then Answer(env.dailyPut) else None)
            && (a.error.None? ==>
                  && Fits(log, spec, a.dir, chain', a.state) && Head(a.state) == Head(s)
                  && a.state.buffer == Remaining(s, env) && a.state.bufferBytes == RemainingBytes(s, env))
            && |a.dir| == |dir| + Count(IsDaily(s, env) && Lands(env.dailyPut))
  {
    hide Holds, FitsState, Flush;
    chain' := TickKeeps(log, spec, dir, chain, s, env);
    if IsDaily(s, env) {
      FlushComesTo(log, spec, dir, chain, s, env.dailyPut);
    }
  }

  /** A write of the record the source delivers next fails only for the daily put, for a key that
      cannot name an entry of a snapshot, or for the put of a flush that it makes due; and it
      makes one due exactly when it fills the buffer or the time is up. */
  lemma {:induction false} WriteComesTo(
      log: seq<Record>, spec: Spec, dir: Directory, chain: seq<ChainObject>, s: State, r: Record, env: Env)
    requires Ascending(log) && Fits(log, spec, dir, chain, s) && DeliversNext(log, Head(s), r)
    ensures var a, taken := Write(spec, s, dir, r, env), Remaining(s, env) + [r];
            var due := IsFull(spec, |taken|, RemainingBytes(s, env) + ByteSize(r)) || env.timeUp;
            && a.error == (if IsDaily(s, env) && Answer(env.dailyPut).Some? then Answer(env.dailyPut)
                           else if spec.snapshots && !HasTextKey(r) then Some(Rejected)
                           else if due then Answer(env.put)
                           else None)
            && (a.error.None? ==>
                  && a.state.buffer == (if due then [] else taken)
                  && |a.dir| == |dir| + Count(IsDaily(s, env)) + Count(due))
  {
    hide Holds, FitsState, Flush, TickDaily, ByteSize, HasTextKey, DeliversNext;
    var chain' := TickComesTo(log, spec, dir, chain, s, env);
    var daily := TickDaily(spec, s, dir, env);
    RangeOfDelivered(log, Head(s), r);
    if daily.error.None? && (spec.snapshots ==> HasTextKey(r)) {
      AcceptKeeps(log, spec, daily.dir, chain', daily.state, r);
      FlushComesTo(log, spec, daily.dir, chain', Accept(spec, daily.state, r), env.put);
    }
  }

  /** A record below the position is refused, and not taken in. */
  lemma {:induction false} BelowIsRefused(
      log: seq<Record>, spec: Spec, dir: Directory, chain: seq<ChainObject>, s: State, r: Record, env: Env)
    requires Ascending(log) && Fits(log, spec, dir, chain, s) && r.offset < Head(s)
    ensures var a := Write(spec, s, dir, r, env);
            && a.error == (if IsDaily(s, env) && Answer(env.dailyPut).Some? then Answer(env.dailyPut)
                           else Some(UnexpectedPosition(Head(s), r.offset)))
            && |a.dir| == |dir| + Count(IsDaily(s, env) && Lands(env.dailyPut))
  {
    hide Holds, FitsState, Flush, TickDaily, ByteSize, HasTextKey;
    var _ := TickComesTo(log, spec, dir, chain, s, env);
  }

  /** The idle call fails only for the puts its timers make due, never for its drift check, and
      flushes on time what no limit has made due. */
  lemma {:induction false} IdleComesTo(
      log: seq<Record>, spec: Spec, dir: Directory, chain: seq<ChainObject>, s: State, env: Env)
    requires Ascending(log) && Fits(log, spec, dir, chain, s)
    ensures var a, left := Idle(spec, s, dir, env), Remaining(s, env);
            var due := left != [] && !IsFull(spec, |left|, RemainingBytes(s, env)) && env.timeUp;
            && a.error == (if IsDaily(s, env) && Answer(env.dailyPut).Some? then Answer(env.dailyPut)
                           else if due then Answer(env.put)
                           else None)
            && (a.error.None? ==>
                  && a.state.buffer == (if due then [] else left)
                  && |a.dir| == |dir| + Count(IsDaily(s, env)) + Count(due))
  {
    hide Holds, FitsState, Flush, TickDaily, NoDrift;
    var chain' := TickComesTo(log, spec, dir, chain, s, env);
    var daily := TickDaily(spec, s, dir, env);
    if daily.error.None? {
      var timed := daily;
      if DueTrigger(spec, daily.state, env.timeUp) == Some(MaxTime) {
        FlushComesTo(log, spec, daily.dir, chain', daily.state, env.put);
        timed := Flush(spec, daily.state, daily.dir, env.put);
        chain' := FlushKeeps(log, spec, daily.dir, chain', daily.state, env.put);
      }
      if timed.error.None? {
        NoDriftWhileAlone(log, spec, timed.dir, chain');
        TailFits(log, spec, chain', timed.state);
      }
    }
  }

  /** The size stays counted, as it does through writes. */
  lemma {:induction false} IdleKeepsTheCount(spec: Spec, s: State, dir: Directory, env: Env)
    requires s.bufferBytes == TotalBytes(s.buffer) && Idle(spec, s, dir, env).error.None?
    ensures var s' := Idle(spec, s, dir, env).state; s'.bufferBytes == TotalBytes(s'.buffer)
  {
    hide Flush, TotalBytes, NoDrift;
    NoBytes();
    if env.dailyDue && s.buffer != [] {
      FlushEmpties(spec, s, dir, env.dailyPut);
    }
    var daily := TickDaily(spec, s, dir, env);
    if daily.state.buffer != [] {
      FlushEmpties(spec, daily.state, daily.dir, env.put);
    }
  }

  lemma {:induction false} FlushNowComesTo(
      log: seq<Record>, spec: Spec, dir: Directory, chain: seq<ChainObject>, s: State, env: Env)
    requires Ascending(log) && Fits(log, spec, dir, chain, s)
    ensures var a := FlushNow(spec, s, dir, env);
            && a.error == (if s.buffer == [] then None else Answer(env.put))
            && (a.error.None? ==> a.state.buffer == [] && |a.dir| == |dir| + Count(s.buffer != []))
  {
    hide Holds, FitsState, Flush;
    if s.buffer != [] {
      FlushComesTo(log, spec, dir, chain, s, env.put);
    }
  }

  /** Whatever a directory holds, a store that can tell keeps it: a flush whose name is taken changes
      nothing there and fails as inconsistent, if its object can be written at all. */
  lemma {:induction false} FlushReplacesNothing(spec: Spec, s: State, dir: Directory, put: Put)
    requires s.buffer != [] && spec.conditional
    ensures Extends(dir, Flush(spec, s, dir, put).dir)
    ensures NextObject(spec, s).name in dir ==>
              && Flush(spec, s, dir, put).dir == dir
              && Flush(spec, s, dir, put).error == Some(if put.NotEncodable? then Rejected else Inconsistent)
  {
    hide BlobFilename, Contents, PushTail;
  }

  // ---------- what the drift check finds ----------

  /** Another writer's object is found exactly if it sorts after the second-to-last object of the
      chain, or there is none. */
  lemma {:induction false} ForeignObjectIsFound(
      log: seq<Record>, spec: Spec, dir: Directory, chain: seq<ChainObject>, name: string, contents: seq<Record>)
    requires Ascending(log) && Holds(log, spec, dir, chain) && name !in dir
    ensures NoDrift(TailOf(chain), dir[name := contents])
            <==> |chain| >= 2 && !Before(chain[|chain| - 2].name, name)
  {
    hide Before, Holds;
    NoDriftWhileAlone(log, spec, dir, chain);
    TailNames(chain);
    var tail := TailOf(chain);
    var listed, listed' := SortingAfter(tail, dir), SortingAfter(tail, dir[name := contents]);
    if |tail| < 2 || Before(tail[|tail| - 2], name) {
      IsSeen(tail, dir, name);
      IsSeen(tail, dir[name := contents], name);
      assert name in listed' && name !in listed;
      assert tail != [] ==> tail[|tail| - 1] in listed;
    } else {
      forall n
        ensures n in listed' <==> n in listed
      {
        IsSeen(tail, dir, n);
        IsSeen(tail, dir[name := contents], n);
      }
    }
  }

  lemma {:induction false} IsSeen(tail: seq<string>, dir: Directory, n: string)
    ensures n in SortingAfter(tail, dir) <==> n in dir && (|tail| < 2 || Before(tail[|tail| - 2], n))
  {
  }

  lemma {:induction false} TailNames(chain: seq<ChainObject>)
    ensures |TailOf(chain)| == if |chain| > 2 then 2 else |chain|
    ensures |chain| >= 2 ==> TailOf(chain)[0] == chain[|chain| - 2].name
    ensures chain != [] ==> TailOf(chain)[|TailOf(chain)| - 1] == chain[|chain| - 1].name
  {
  }

  /** A lost object is found exactly if it is the last one. */
  lemma {:induction false} LostObjectIsFound(
      log: seq<Record>, spec: Spec, dir: Directory, chain: seq<ChainObject>, name: string)
    requires Ascending(log) && Holds(log, spec, dir, chain) && name in dir
    ensures chain != []
    ensures NoDrift(TailOf(chain), dir - {name}) <==> name != chain[|chain| - 1].name
  {
    hide Before, Holds, TailOf;
    NoDriftWhileAlone(log, spec, dir, chain);
    TailNames(chain);
    NotEmpty(log, spec, dir, chain, name);
    var tail := TailOf(chain);
    var listed, listed' := SortingAfter(tail, dir), SortingAfter(tail, dir - {name});
    forall n
      ensures n in listed' <==> n in listed && n != name
    {
      IsSeen(tail, dir, n);
      IsSeen(tail, dir - {name}, n);
    }
    assert listed' == listed - {name};
    assert tail[|tail| - 1] in listed;
  }

  lemma {:induction false} NotEmpty(
      log: seq<Record>, spec: Spec, dir: Directory, chain: seq<ChainObject>, name: string)
    requires Ascending(log) && Holds(log, spec, dir, chain) && name in dir
    ensures chain != []
  {
    hide AllWritten, Contiguous, Apart, HoldsRange, HoldsFold;
    InDirectory(spec, dir, chain);
  }

  /** So the idle call of a sink that has nothing else to do, its drift check due, reports another
      writer's object exactly where the check looks. */
  lemma {:induction false} IdleReportsForeign(
      log: seq<Record>, spec: Spec, dir: Directory, chain: seq<ChainObject>, s: State, name: string,
      contents: seq<Record>)
    requires Ascending(log) && Fits(log, spec, dir, chain, s) && name !in dir
    ensures Idle(spec, s, dir[name := contents], Env(false, Stored, false, Stored, true)).error
            == if |chain| >= 2 && !Before(chain[|chain| - 2].name, name) then None else Some(Inconsistent)
  {
    hide Holds, NoDrift, Before;
    ForeignObjectIsFound(log, spec, dir, chain, name, contents);
    TailFits(log, spec, chain, s);
  }

  lemma {:induction false} IdleReportsLost(
      log: seq<Record>, spec: Spec, dir: Directory, chain: seq<ChainObject>, s: State, name: string)
    requires Ascending(log) && Fits(log, spec, dir, chain, s) && name in dir
    ensures chain != []
    ensures Idle(spec, s, dir - {name}, Env(false, Stored, false, Stored, true)).error
            == if name != chain[|chain| - 1].name then None else Some(Inconsistent)
  {
    hide Holds, NoDrift;
    LostObjectIsFound(log, spec, dir, chain, name);
    TailFits(log, spec, chain, s);
  }
}
