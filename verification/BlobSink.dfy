/** The blob destination: buffer, flush, compaction view, drift check, reopening.

    The directory is a map from object names to the records each object's
    bytes decode to.  What the environment decides is an argument: whether a
    timer is due, whether a put is stored, and whether its answer arrives.
    A sink that returned an error is dead until it is opened again, which is
    what its users do; `AFailedFlushForgetsTheBuffer` says why they must. */
module BlobSinks {
  import opened Records
  import opened Naming
  import opened Chain
  import opened Views

  type Directory = map<string, seq<Record>>

  /** `snapshots` is compaction mode; `conditional` a store that can tell that a name exists. */
  datatype Spec = Spec(
    ext: string,
    snapshots: bool,
    keyId: Option<string>,
    conditional: bool,
    maxOffsets: nat,
    maxBytes: nat)

  datatype SinkError =
    | UnexpectedPosition(expected: nat, actual: nat)
    | Transport
    | Inconsistent
    | Rejected

  /** What comes of one put: stored or not, and told so or not. */
  datatype Put = Stored | StoredButFailed | NotStored | NotEncodable

  /** What the environment does during one call: the daily boundary has passed, the
      oldest buffered record is older than the limit, the drift check is due. */
  datatype Env = Env(dailyDue: bool, dailyPut: Put, timeUp: bool, put: Put, driftDue: bool)

  datatype State = State(durable: nat, buffer: seq<Record>, bufferBytes: nat, view: View, tail: seq<string>)

  datatype After = After(state: State, dir: Directory, error: Option<SinkError>)

  function FieldSize(b: Option<Bytes>): nat {
    match b case None => 0 case Some(v) => |v|
  }

  function HeadersSize(headers: seq<Header>): nat {
    if headers == [] then 0 else |headers[0].key| + FieldSize(headers[0].value) + HeadersSize(headers[1..])
  }

  function ByteSize(r: Record): nat {
    FieldSize(r.key) + FieldSize(r.value) + HeadersSize(r.headers)
  }

  /** The lowest source offset the next write accepts. */
  function Head(s: State): nat {
    if s.buffer == [] then s.durable else s.buffer[|s.buffer| - 1].offset + 1
  }

  datatype Trigger = MaxOffsets | MaxBytes | MaxTime

  function DueTrigger(spec: Spec, s: State, timeUp: bool): Option<Trigger> {
    if s.buffer == [] then None
    else if |s.buffer| >= spec.maxOffsets then Some(MaxOffsets)
    else if s.bufferBytes >= spec.maxBytes then Some(MaxBytes)
    else if timeUp then Some(MaxTime)
    else None
  }

  /** The last two names of the chain. */
  function PushTail(tail: seq<string>, name: string): seq<string> {
    var pushed := tail + [name];
    if |pushed| > 2 then pushed[1..] else pushed
  }

  /** Append mode writes the buffer, compaction mode the view. */
  function Contents(spec: Spec, s: State): seq<Record> {
    if spec.snapshots then Snapshot(s.view) else s.buffer
  }

  /** One object of everything buffered: positions from the end of the previous
      object through the last record. In append mode the buffer is taken before the put. */
  function Flush(spec: Spec, s: State, dir: Directory, put: Put): After
    requires s.buffer != []
  {
    var to := s.buffer[|s.buffer| - 1].offset;
    var name := BlobFilename(s.durable, to, spec.keyId, spec.ext);
    var taken := if spec.snapshots then s else s.(buffer := []);
    if put.NotEncodable? then After(taken, dir, Some(Rejected))
    else if spec.conditional && name in dir then After(taken, dir, Some(Inconsistent))
    else if put.NotStored? then After(taken, dir, Some(Transport))
    else
      var dir' := dir[name := Contents(spec, s)];
      if put.StoredButFailed? then After(taken, dir', Some(Transport))
      else After(State(to + 1, [], 0, s.view, PushTail(s.tail, name)), dir', None)
  }

  function TickDaily(spec: Spec, s: State, dir: Directory, env: Env): After {
    if env.dailyDue && s.buffer != [] then Flush(spec, s, dir, env.dailyPut) else After(s, dir, None)
  }

  function Accept(spec: Spec, s: State, r: Record): State {
    s.(view := if spec.snapshots then Apply(s.view, r) else s.view,
       bufferBytes := s.bufferBytes + ByteSize(r),
       buffer := s.buffer + [r])
  }

  function Write(spec: Spec, s: State, dir: Directory, r: Record, env: Env): After {
    var daily := TickDaily(spec, s, dir, env);
    if daily.error.Some? then daily
    else if r.offset < Head(daily.state) then
      daily.(error := Some(UnexpectedPosition(Head(daily.state), r.offset)))
    else if spec.snapshots && !HasTextKey(r) then daily.(error := Some(Rejected))
    else
      var accepted := Accept(spec, daily.state, r);
      if DueTrigger(spec, accepted, env.timeUp).Some? then Flush(spec, accepted, daily.dir, env.put)
      else After(accepted, daily.dir, None)
  }

  /** What sorts after the second-to-last object of the chain is the last object and nothing else. */
  predicate NoDrift(tail: seq<string>, dir: Directory) {
    SortingAfter(tail, dir) == if tail == [] then {} else {tail[|tail| - 1]}
  }

  function SortingAfter(tail: seq<string>, dir: Directory): set<string> {
    set name | name in dir && (|tail| < 2 || Before(tail[|tail| - 2], name)) :: name
  }

  /** The idle call: timers, then the drift check; `Head` of the state is its answer. */
  function Idle(spec: Spec, s: State, dir: Directory, env: Env): After {
    var daily := TickDaily(spec, s, dir, env);
    if daily.error.Some? then daily
    else
      var timed :=
        if DueTrigger(spec, daily.state, env.timeUp) == Some(MaxTime) then Flush(spec, daily.state, daily.dir, env.put)
        else daily;
      if timed.error.Some? then timed
      else if env.driftDue && !NoDrift(timed.state.tail, timed.dir) then timed.(error := Some(Inconsistent))
      else timed
  }

  function FlushNow(spec: Spec, s: State, dir: Directory, env: Env): After {
    if s.buffer == [] then After(s, dir, None) else Flush(spec, s, dir, env.put)
  }

  function Align(spec: Spec, s: State, dir: Directory, low: nat): After {
    if !spec.snapshots || s.buffer != [] || low < s.durable then After(s, dir, Some(Inconsistent))
    else After(s.(durable := low), dir, None)
  }

  /** Opening: list, validate, and read the newest snapshot. */
  function Open(spec: Spec, dir: Directory, names: seq<string>): Option<State> {
    match Validate(names, spec.ext, spec.snapshots)
    case Err(_) => None
    case Ok(listing) =>
      if listing.latest == None then Some(State(listing.durable, [], 0, map[], listing.tail))
      else if listing.latest.value !in dir then None
      else
        match ReadView(dir[listing.latest.value])
        case None => None
        case Some(view) => Some(State(listing.durable, [], 0, view, listing.tail))
  }

  // ---------- what a directory holds ----------

  /** The records delivered into the objects of `chain`: the log's records of each range. */
  ghost function Delivered(log: seq<Record>, chain: seq<ChainObject>): seq<Record>
    requires Ascending(log) && NonEmptyRanges(chain)
  {
    if chain == [] then []
    else
      var last := chain[|chain| - 1];
      Delivered(log, chain[..|chain| - 1]) + Range(log, last.from, last.to + 1)
  }

  /** An append object holds the log's records of its range, the last one at its end. */
  ghost predicate HoldsRange(log: seq<Record>, dir: Directory, o: ChainObject)
    requires Ascending(log) && o.from <= o.to
  {
    && o.name in dir
    && dir[o.name] == Range(log, o.from, o.to + 1)
    && dir[o.name] != []
    && dir[o.name][|dir[o.name]| - 1].offset == o.to
  }

  /** A snapshot reads back as the fold of everything delivered up to it. */
  ghost predicate HoldsFold(log: seq<Record>, dir: Directory, chain: seq<ChainObject>, i: nat)
    requires Ascending(log) && NonEmptyRanges(chain) && i < |chain|
  {
    && chain[i].name in dir
    && TextKeys(Delivered(log, chain[..i + 1]))
    && ReadView(dir[chain[i].name]) == Some(Fold(Delivered(log, chain[..i + 1])))
  }

  /** The directory holds exactly the objects of `chain`, and they hold what was delivered. */
  ghost predicate Holds(log: seq<Record>, spec: Spec, dir: Directory, chain: seq<ChainObject>): (holds: bool)
    requires Ascending(log)
    ensures holds ==> NonEmptyRanges(chain)
  {
    && IsExtension(spec.ext)
    && (spec.keyId.Some? ==> IsKeyId(spec.keyId.value))
    && AllWritten(chain, spec.ext)
    && multiset(Names(chain)) == multiset(dir.Keys)
    && NonEmptyRanges(chain)
    && End(chain, 0) < TWO_64
    && if spec.snapshots then Apart(chain) && forall i :: 0 <= i < |chain| ==> HoldsFold(log, dir, chain, i)
       else Contiguous(chain, 0) && forall i :: 0 <= i < |chain| ==> HoldsRange(log, dir, chain[i])
  }

  ghost predicate FitsState(log: seq<Record>, spec: Spec, chain: seq<ChainObject>, s: State)
    requires Ascending(log) && NonEmptyRanges(chain)
  {
    && (if spec.snapshots then End(chain, 0) <= s.durable else End(chain, 0) == s.durable)
    && s.durable <= Head(s)
    && s.buffer == Range(log, s.durable, Head(s))
    && s.tail == TailOf(chain)
    && (spec.snapshots ==>
          && TextKeys(Delivered(log, chain) + s.buffer)
          && s.view == Fold(Delivered(log, chain) + s.buffer))
  }

  /** A live sink over that directory. */
  ghost predicate Fits(log: seq<Record>, spec: Spec, dir: Directory, chain: seq<ChainObject>, s: State)
    requires Ascending(log)
  {
    Holds(log, spec, dir, chain) && FitsState(log, spec, chain, s)
  }

  // ---------- adding one object ----------

  function NextObject(spec: Spec, s: State): ChainObject
    requires s.buffer != []
  {
    var to := s.buffer[|s.buffer| - 1].offset;
    ChainObject(BlobFilename(s.durable, to, spec.keyId, spec.ext), s.durable, to, spec.keyId)
  }

  lemma {:induction false} BufferBounds(log: seq<Record>, spec: Spec, dir: Directory, chain: seq<ChainObject>, s: State)
    requires Ascending(log) && Fits(log, spec, dir, chain, s) && s.buffer != []
    ensures s.durable <= NextObject(spec, s).to && Head(s) == NextObject(spec, s).to + 1 < TWO_64
    ensures Written(NextObject(spec, s), spec.ext)
  {
    RangeBounds(log, s.durable, Head(s));
  }

  /** A range past the end of the chain has a name the directory does not hold. */
  lemma {:induction false} FreshName(
      log: seq<Record>, spec: Spec, dir: Directory, chain: seq<ChainObject>, o: ChainObject)
    requires Ascending(log) && Holds(log, spec, dir, chain)
    requires Written(o, spec.ext) && End(chain, 0) <= o.from
    ensures o.name !in dir
  {
    hide BlobFilename, ParseBlobName, HoldsFold, HoldsRange, Contiguous, Apart;
    if o.name in dir {
      InDirectory(spec, dir, chain);
      var i :| 0 <= i < |chain| && chain[i].name == o.name;
      NameRoundTrip(o.from, o.to, o.keyId, spec.ext);
      NameRoundTrip(chain[i].from, chain[i].to, chain[i].keyId, spec.ext);
      EndIsPast(spec, chain, i);
      assert false;
    }
  }

  lemma {:induction false} EndIsPast(spec: Spec, chain: seq<ChainObject>, i: nat)
    requires if spec.snapshots then Apart(chain) else Contiguous(chain, 0)
    requires i < |chain|
    ensures chain[i].from <= chain[i].to < End(chain, 0)
  {
    if !spec.snapshots {
      ContiguousAt(chain, 0, i);
    } else if i < |chain| - 1 {
      ApartAscends(chain, i, |chain| - 1);
    }
  }

  lemma {:induction false} DeliveredSnoc(log: seq<Record>, chain: seq<ChainObject>, o: ChainObject)
    requires Ascending(log) && NonEmptyRanges(chain + [o]) && o.from <= o.to
    ensures NonEmptyRanges(chain)
    ensures Delivered(log, chain + [o]) == Delivered(log, chain) + Range(log, o.from, o.to + 1)
  {
    hide Range;
    assert forall i :: 0 <= i < |chain| ==> chain[i] == (chain + [o])[i];
    assert (chain + [o])[..|chain|] == chain;
  }

  lemma {:induction false} TailSnoc(chain: seq<ChainObject>, o: ChainObject)
    ensures TailOf(chain + [o]) == PushTail(TailOf(chain), o.name)
  {
    var n := |chain|;
    if n >= 2 {
      assert (chain + [o])[n - 1..] == [chain[n - 1], o];
      assert chain[n - 2..] == [chain[n - 2], chain[n - 1]];
      assert PushTail(TailOf(chain), o.name) == [chain[n - 1].name, o.name];
    } else if n == 1 {
      assert chain[0..] == [chain[0]] && (chain + [o])[0..] == [chain[0], o];
    } else {
      assert chain[0..] == [] && (chain + [o])[0..] == [o];
    }
  }

  ghost predicate ChainTakes(spec: Spec, chain: seq<ChainObject>, o: ChainObject) {
    if spec.snapshots then End(chain, 0) <= o.from else End(chain, 0) == o.from
  }

  lemma {:induction false} ChainSnoc(spec: Spec, chain: seq<ChainObject>, o: ChainObject)
    requires if spec.snapshots then Apart(chain) else Contiguous(chain, 0)
    requires AllWritten(chain, spec.ext) && NonEmptyRanges(chain)
    requires Written(o, spec.ext) && ChainTakes(spec, chain, o)
    ensures if spec.snapshots then Apart(chain + [o]) else Contiguous(chain + [o], 0)
    ensures AllWritten(chain + [o], spec.ext) && NonEmptyRanges(chain + [o]) && End(chain + [o], 0) == o.to + 1
  {
    if !spec.snapshots {
      ContiguousConcat(chain, [o], 0);
    }
  }

  lemma {:induction false} NamesSnoc(dir: Directory, chain: seq<ChainObject>, o: ChainObject, contents: seq<Record>)
    requires multiset(Names(chain)) == multiset(dir.Keys) && o.name !in dir
    ensures multiset(Names(chain + [o])) == multiset(dir[o.name := contents].Keys)
  {
    NamesOfConcat(chain, [o]);
    assert Names([o]) == [o.name];
    assert dir[o.name := contents].Keys == dir.Keys + {o.name};
  }

  ghost predicate HoldsAll(log: seq<Record>, spec: Spec, dir: Directory, chain: seq<ChainObject>)
    requires Ascending(log) && NonEmptyRanges(chain)
  {
    if spec.snapshots then forall i :: 0 <= i < |chain| ==> HoldsFold(log, dir, chain, i)
    else forall i :: 0 <= i < |chain| ==> HoldsRange(log, dir, chain[i])
  }

  lemma {:induction false} HoldsSnoc(
      log: seq<Record>, spec: Spec, dir: Directory, chain: seq<ChainObject>, o: ChainObject, contents: seq<Record>)
    requires Ascending(log) && NonEmptyRanges(chain + [o]) && NonEmptyRanges(chain) && o.from <= o.to
             && HoldsAll(log, spec, dir, chain)
    requires o.name !in dir
    requires var dir', chain' := dir[o.name := contents], chain + [o];
             if spec.snapshots then HoldsFold(log, dir', chain', |chain|) else HoldsRange(log, dir', o)
    ensures HoldsAll(log, spec, dir[o.name := contents], chain + [o])
  {
    hide Delivered, Fold, ReadView, Range, TextKeys;
    var dir', chain' := dir[o.name := contents], chain + [o];
    forall i | 0 <= i < |chain|
      ensures if spec.snapshots then HoldsFold(log, dir', chain', i) else HoldsRange(log, dir', chain'[i])
    {
      assert chain'[i] == chain[i] && chain'[..i + 1] == chain[..i + 1];
      if spec.snapshots {
        assert HoldsFold(log, dir, chain, i);
      } else {
        assert HoldsRange(log, dir, chain[i]);
      }
    }
  }

  /** The contents a flush writes are what the object must hold. */
  lemma {:induction false} ContentsAreDelivered(
      log: seq<Record>, spec: Spec, dir: Directory, chain: seq<ChainObject>, s: State)
    requires Ascending(log) && NonEmptyRanges(chain) && FitsState(log, spec, chain, s) && s.buffer != []
    requires s.durable <= NextObject(spec, s).to
    ensures var o := NextObject(spec, s);
            && NonEmptyRanges(chain + [o])
            && Delivered(log, chain + [o]) == Delivered(log, chain) + s.buffer
            && (if spec.snapshots then HoldsFold(log, dir[o.name := Contents(spec, s)], chain + [o], |chain|)
                else HoldsRange(log, dir[o.name := Contents(spec, s)], o))
  {
    hide Snapshot, Fold, BlobFilename, ReadView, Delivered, TailOf, WellKeyed, TextKeys, Range;
    var o := NextObject(spec, s);
    DeliveredSnoc(log, chain, o);
    if spec.snapshots {
      assert (chain + [o])[..|chain| + 1] == chain + [o];
      FoldIsWellKeyed(Delivered(log, chain) + s.buffer);
      SnapshotRoundTrip(s.view);
    }
  }

  lemma {:induction false} HoldsMore(log: seq<Record>, spec: Spec, dir: Directory, chain: seq<ChainObject>, s: State)
    requires Ascending(log) && Fits(log, spec, dir, chain, s) && s.buffer != []
    ensures var o := NextObject(spec, s);
            && o.name !in dir
            && Holds(log, spec, dir[o.name := Contents(spec, s)], chain + [o])
            && Delivered(log, chain + [o]) == Delivered(log, chain) + s.buffer
  {
    hide Contents, BlobFilename, HoldsRange, HoldsFold, Delivered, Contiguous, Names;
    var o, contents := NextObject(spec, s), Contents(spec, s);
    BufferBounds(log, spec, dir, chain, s);
    FreshName(log, spec, dir, chain, o);
    ChainSnoc(spec, chain, o);
    NamesSnoc(dir, chain, o, contents);
    ContentsAreDelivered(log, spec, dir, chain, s);
    HoldsSnoc(log, spec, dir, chain, o, contents);
  }

  // ---------- what every call keeps ----------

  /** No object is changed or removed. */
  ghost predicate Extends(dir: Directory, dir': Directory) {
    forall name :: name in dir ==> name in dir' && dir'[name] == dir[name]
  }

  /** After a call: a live sink still fits; a dead one leaves a directory that holds what was
      delivered. Either way the objects it found are still there. */
  ghost predicate Kept(log: seq<Record>, spec: Spec, dir: Directory, a: After, chain: seq<ChainObject>)
    requires Ascending(log)
  {
    && Holds(log, spec, a.dir, chain)
    && Extends(dir, a.dir)
    && (a.error.None? ==> FitsState(log, spec, chain, a.state))
  }

  /** A failure the environment can cause; never a contradiction with what this process wrote. */
  predicate IsOutside(e: Option<SinkError>) {
    e.Some? ==> e.value == Transport || e.value == Rejected
  }

  lemma {:induction false} FlushKeeps(
      log: seq<Record>, spec: Spec, dir: Directory, chain: seq<ChainObject>, s: State, put: Put)
    returns (chain': seq<ChainObject>)
    requires Ascending(log) && Fits(log, spec, dir, chain, s) && s.buffer != []
    ensures var a := Flush(spec, s, dir, put);
            && Kept(log, spec, dir, a, chain') && IsOutside(a.error)
            && (chain' == chain || chain' == chain + [NextObject(spec, s)])
            && (a.error.None? ==> Head(a.state) == Head(s) && a.state.buffer == [])
  {
    hide Holds, Contents, BlobFilename, Delivered, Range, Fold, TextKeys, TailOf, PushTail;
    var o := NextObject(spec, s);
    HoldsMore(log, spec, dir, chain, s);
    TailSnoc(chain, o);
    BufferBounds(log, spec, dir, chain, s);
    NothingInRange(log, o.to + 1);
    assert Delivered(log, chain + [o]) + [] == Delivered(log, chain) + s.buffer;
    chain' := if put.NotStored? || put.NotEncodable? then chain else chain + [o];
  }

  lemma {:induction false} TickKeeps(
      log: seq<Record>, spec: Spec, dir: Directory, chain: seq<ChainObject>, s: State, env: Env)
    returns (chain': seq<ChainObject>)
    requires Ascending(log) && Fits(log, spec, dir, chain, s)
    ensures var a := TickDaily(spec, s, dir, env);
            && Kept(log, spec, dir, a, chain') && IsOutside(a.error) && chain <= chain'
            && (a.error.None? ==> Head(a.state) == Head(s))
  {
    chain' := chain;
    if env.dailyDue && s.buffer != [] {
      chain' := FlushKeeps(log, spec, dir, chain, s, env.dailyPut);
    }
  }

  lemma {:induction false} BufferTakes(log: seq<Record>, durable: nat, buffer: seq<Record>, head: nat, r: Record)
    requires Ascending(log) && durable <= head && buffer == Range(log, durable, head) && DeliversNext(log, head, r)
    ensures head <= r.offset && buffer + [r] == Range(log, durable, r.offset + 1)
  {
    RangeOfDelivered(log, head, r);
    RangeSplit(log, durable, head, r.offset + 1);
  }

  lemma {:induction false} FoldTakes(delivered: seq<Record>, buffer: seq<Record>, r: Record)
    requires TextKeys(delivered + buffer) && HasTextKey(r)
    ensures TextKeys(delivered + (buffer + [r]))
    ensures Fold(delivered + (buffer + [r])) == Apply(Fold(delivered + buffer), r)
  {
    hide Fold, HasTextKey;
    FoldOfConcat(delivered + buffer, r);
    assert delivered + buffer + [r] == delivered + (buffer + [r]);
  }

  lemma {:induction false} AcceptKeeps(
      log: seq<Record>, spec: Spec, dir: Directory, chain: seq<ChainObject>, s: State, r: Record)
    requires Ascending(log) && Fits(log, spec, dir, chain, s) && DeliversNext(log, Head(s), r)
    requires spec.snapshots ==> HasTextKey(r)
    ensures Fits(log, spec, dir, chain, Accept(spec, s, r)) && Head(Accept(spec, s, r)) == r.offset + 1
  {
    hide Holds, ByteSize, Fold, Delivered, DeliversNext, TailOf, Range, TextKeys, HasTextKey, Apply;
    BufferTakes(log, s.durable, s.buffer, Head(s), r);
    if spec.snapshots {
      FoldTakes(Delivered(log, chain), s.buffer, r);
    }
  }

  /** Writing the source's next record keeps the sink, or leaves a sound directory behind. */
  lemma {:induction false} WriteKeeps(
      log: seq<Record>, spec: Spec, dir: Directory, chain: seq<ChainObject>, s: State, r: Record, env: Env)
    returns (chain': seq<ChainObject>)
    requires Ascending(log) && Fits(log, spec, dir, chain, s) && DeliversNext(log, Head(s), r)
    ensures var a := Write(spec, s, dir, r, env);
            && Kept(log, spec, dir, a, chain') && IsOutside(a.error) && chain <= chain'
            && (a.error.None? ==> Head(a.state) == r.offset + 1)
  {
    hide Flush, FitsState, Holds;
    chain' := TickKeeps(log, spec, dir, chain, s, env);
    var daily := TickDaily(spec, s, dir, env);
    RangeOfDelivered(log, Head(s), r);
    if daily.error.None? && (spec.snapshots ==> HasTextKey(r)) {
      AcceptKeeps(log, spec, daily.dir, chain', daily.state, r);
      var accepted := Accept(spec, daily.state, r);
      if DueTrigger(spec, accepted, env.timeUp).Some? {
        chain' := FlushKeeps(log, spec, daily.dir, chain', accepted, env.put);
      }
    }
  }

  /** The drift check finds nothing that this process did not write, and nothing missing. */
  lemma {:induction false} NoDriftWhileAlone(log: seq<Record>, spec: Spec, dir: Directory, chain: seq<ChainObject>)
    requires Ascending(log) && Holds(log, spec, dir, chain)
    ensures NoDrift(TailOf(chain), dir)
  {
    hide Before, BlobFilename, Contiguous, Apart, HoldsFold, HoldsRange;
    var n := |chain|;
    InDirectory(spec, dir, chain);
    if n >= 2 {
      forall i | 0 <= i < n
        ensures Before(chain[n - 2].name, chain[i].name) <==> i == n - 1
      {
        if i == n - 2 {
          NotBeforeItself(chain[i].name);
        } else {
          AscendsFrom(spec, chain, i);
          LaterSortsAfter(chain[n - 2], chain[i], spec.ext);
        }
      }
    }
    assert n > 0 ==> chain[n - 1].name in dir;
  }

  lemma {:induction false} InDirectory(spec: Spec, dir: Directory, chain: seq<ChainObject>)
    requires multiset(Names(chain)) == multiset(dir.Keys)
    ensures forall name :: name in dir <==> exists i :: 0 <= i < |chain| && chain[i].name == name
  {
    forall name
      ensures name in dir <==> exists i :: 0 <= i < |chain| && chain[i].name == name
    {
      assert name in dir <==> name in multiset(Names(chain));
      if i :| 0 <= i < |chain| && chain[i].name == name {
        assert Names(chain)[i] == name;
      }
    }
  }

  lemma {:induction false} TailFits(log: seq<Record>, spec: Spec, chain: seq<ChainObject>, s: State)
    requires Ascending(log) && NonEmptyRanges(chain) && FitsState(log, spec, chain, s)
    ensures s.tail == TailOf(chain)
  {
  }

  lemma {:induction false} AscendsFrom(spec: Spec, chain: seq<ChainObject>, i: nat)
    requires if spec.snapshots then Apart(chain) else Contiguous(chain, 0)
    requires 2 <= |chain| && i < |chain| && i != |chain| - 2
    ensures chain[i].from != chain[|chain| - 2].from
    ensures chain[|chain| - 2].from < chain[i].from <==> i == |chain| - 1
  {
    var n := |chain|;
    if spec.snapshots {
      if i < n - 2 {
        ApartAscends(chain, i, n - 2);
      }
    } else {
      ContiguousIsStrictlyOrdered(chain, 0);
    }
  }

  /** The idle call keeps the sink and its position, and is never inconsistent. */
  lemma {:induction false} IdleKeeps(
      log: seq<Record>, spec: Spec, dir: Directory, chain: seq<ChainObject>, s: State, env: Env)
    returns (chain': seq<ChainObject>)
    requires Ascending(log) && Fits(log, spec, dir, chain, s)
    ensures var a := Idle(spec, s, dir, env);
            && Kept(log, spec, dir, a, chain') && IsOutside(a.error) && chain <= chain'
            && (a.error.None? ==> Head(a.state) == Head(s))
  {
    hide Flush, FitsState, Holds, NoDrift;
    chain' := TickKeeps(log, spec, dir, chain, s, env);
    var daily := TickDaily(spec, s, dir, env);
    if daily.error.None? {
      var timed := daily;
      if DueTrigger(spec, daily.state, env.timeUp) == Some(MaxTime) {
        timed := Flush(spec, daily.state, daily.dir, env.put);
        chain' := FlushKeeps(log, spec, daily.dir, chain', daily.state, env.put);
      }
      if timed.error.None? {
        NoDriftWhileAlone(log, spec, timed.dir, chain');
        TailFits(log, spec, chain', timed.state);
      }
    }
  }

  lemma {:induction false} FlushNowKeeps(
      log: seq<Record>, spec: Spec, dir: Directory, chain: seq<ChainObject>, s: State, env: Env)
    returns (chain': seq<ChainObject>)
    requires Ascending(log) && Fits(log, spec, dir, chain, s)
    ensures var a := FlushNow(spec, s, dir, env);
            && Kept(log, spec, dir, a, chain') && IsOutside(a.error) && chain <= chain'
            && (a.error.None? ==> Head(a.state) == Head(s) && a.state.buffer == [])
  {
    chain' := chain;
    if s.buffer != [] {
      chain' := FlushKeeps(log, spec, dir, chain, s, env.put);
    }
  }

  lemma {:induction false} AlignKeeps(
      log: seq<Record>, spec: Spec, dir: Directory, chain: seq<ChainObject>, s: State, low: nat)
    requires Ascending(log) && Fits(log, spec, dir, chain, s)
    ensures var a := Align(spec, s, dir, low);
            && (a.error.None? <==> spec.snapshots && s.buffer == [] && s.durable <= low)
            && (a.error.None? ==> Fits(log, spec, dir, chain, a.state) && Head(a.state) == low && a.dir == dir)
  {
    assert low >= s.durable ==> Range(log, low, low) == [];
  }

  lemma {:induction false} NothingDelivered(log: seq<Record>)
    requires Ascending(log)
    ensures NonEmptyRanges([]) && Delivered(log, []) == [] && Fold([]) == map[] && TextKeys([])
  {
  }

  /** Opening a sound directory never fails, whatever order the store lists it in, and continues at its end. */
  lemma {:induction false} OpenFits(
      log: seq<Record>, spec: Spec, dir: Directory, chain: seq<ChainObject>, names: seq<string>)
    requires Ascending(log) && Holds(log, spec, dir, chain)
    requires multiset(names) == multiset(dir.Keys)
    ensures Open(spec, dir, names).Some?
    ensures Fits(log, spec, dir, chain, Open(spec, dir, names).value)
    ensures Open(spec, dir, names).value.buffer == [] && Head(Open(spec, dir, names).value) == End(chain, 0)
  {
    hide Validate, AllWritten, Names, Delivered, Fold, TextKeys, HoldsRange, TailOf;
    assert Range(log, End(chain, 0), End(chain, 0)) == [];
    if spec.snapshots {
      SnapshotsOpen(names, chain, spec.ext);
      if chain != [] {
        var last := |chain| - 1;
        assert HoldsFold(log, dir, chain, last);
        assert chain[..last + 1] == chain;
      } else {
        NothingDelivered(log);
      }
      assert Delivered(log, chain) + [] == Delivered(log, chain);
    } else {
      ChainOpens(names, chain, spec.ext);
    }
  }

  // ---------- what a destination holds ----------

  /** The records of the objects, one object after the other. */
  function Concatenated(dir: Directory, chain: seq<ChainObject>): seq<Record>
    requires forall i :: 0 <= i < |chain| ==> chain[i].name in dir
  {
    if chain == [] then []
    else Concatenated(dir, chain[..|chain| - 1]) + dir[chain[|chain| - 1].name]
  }

  lemma {:induction false} NothingInRange(log: seq<Record>, position: nat)
    requires Ascending(log)
    ensures Range(log, position, position) == []
  {
  }

  lemma {:induction false} LastOfContiguous(chain: seq<ChainObject>, start: nat)
    requires Contiguous(chain, start) && chain != []
    ensures var init, last := chain[..|chain| - 1], chain[|chain| - 1];
            Contiguous(init, start) && End(init, start) == last.from <= last.to
  {
    if |chain| > 1 {
      assert chain[1..][..|chain| - 2] == chain[..|chain| - 1][1..];
      LastOfContiguous(chain[1..], chain[0].to + 1);
    }
  }

  lemma {:induction false} HeldIn(log: seq<Record>, dir: Directory, o: ChainObject)
    requires Ascending(log) && o.from <= o.to && HoldsRange(log, dir, o)
    ensures o.name in dir && dir[o.name] == Range(log, o.from, o.to + 1)
  {
  }

  lemma {:induction false} ConcatenatedIsRange(log: seq<Record>, dir: Directory, chain: seq<ChainObject>)
    requires Ascending(log) && Contiguous(chain, 0) && NonEmptyRanges(chain)
    requires forall i :: 0 <= i < |chain| ==> HoldsRange(log, dir, chain[i])
    ensures forall i :: 0 <= i < |chain| ==> chain[i].name in dir
    ensures Concatenated(dir, chain) == Range(log, 0, End(chain, 0))
  {
    hide Range, Contiguous, HoldsRange;
    forall i | 0 <= i < |chain|
      ensures chain[i].name in dir
    {
      HeldIn(log, dir, chain[i]);
    }
    if chain == [] {
      NothingInRange(log, 0);
    } else {
      var init, last := chain[..|chain| - 1], chain[|chain| - 1];
      LastOfContiguous(chain, 0);
      ConcatenatedIsRange(log, dir, init);
      HeldIn(log, dir, last);
      RangeSplit(log, 0, last.from, last.to + 1);
    }
  }

  /** Append mode is exactly once: whatever order the store lists the objects in, they are
      accepted, and in chain order they are the source's records below the position the
      destination continues at, each once. */
  lemma {:induction false} AppendHoldsTheSource(
      log: seq<Record>, spec: Spec, dir: Directory, chain: seq<ChainObject>, names: seq<string>)
    requires Ascending(log) && Holds(log, spec, dir, chain) && !spec.snapshots
    requires multiset(names) == multiset(dir.Keys)
    ensures Validate(names, spec.ext, false).Ok?
    ensures var durable, sorted :=
            Validate(names, spec.ext, false).value.durable, Sorted(ParseAll(names, spec.ext, true).value, false);
            && (forall i :: 0 <= i < |sorted| ==> sorted[i].name in dir)
            && Concatenated(dir, sorted) == log[..First(log, durable)]
  {
    hide HoldsRange, AllWritten, Names, Validate, Concatenated;
    ChainOpens(names, chain, spec.ext);
    ContiguousIsStrictlyOrdered(chain, 0);
    ListingSorts(names, chain, spec.ext, true, false);
    ConcatenatedIsRange(log, dir, chain);
    assert First(log, 0) == 0;
  }

  /** Compaction mode: the newest object, however the store lists it, is the last-writer-wins
      fold of everything delivered to the destination. */
  lemma {:induction false} NewestSnapshotIsTheFold(
      log: seq<Record>, spec: Spec, dir: Directory, chain: seq<ChainObject>, names: seq<string>)
    requires Ascending(log) && Holds(log, spec, dir, chain) && spec.snapshots && chain != []
    requires multiset(names) == multiset(dir.Keys)
    ensures Validate(names, spec.ext, true).Ok?
    ensures var listing := Validate(names, spec.ext, true).value;
            && listing.durable == End(chain, 0)
            && listing.latest.Some? && listing.latest.value in dir
            && ReadView(dir[listing.latest.value]) == Some(Fold(Delivered(log, chain)))
  {
    hide AllWritten, Names, Validate, Delivered, Fold, ReadView;
    SnapshotsOpen(names, chain, spec.ext);
    assert HoldsFold(log, dir, chain, |chain| - 1);
    assert chain[..|chain| - 1 + 1] == chain;
  }

  /** Why a failed sink must be opened again: an append flush that fails has already let go of its
      buffer, so the next position goes back and a second flush would lose those records. A
      compaction flush keeps them. */
  lemma {:induction false} AFailedFlushForgetsTheBuffer(spec: Spec, s: State, dir: Directory, put: Put)
    requires s.buffer != [] && Flush(spec, s, dir, put).error.Some?
    ensures if spec.snapshots then Flush(spec, s, dir, put).state == s
            else Flush(spec, s, dir, put).state.buffer == [] && Head(Flush(spec, s, dir, put).state) == s.durable
  {
  }

  function TotalBytes(records: seq<Record>): nat {
    if records == [] then 0 else TotalBytes(records[..|records| - 1]) + ByteSize(records[|records| - 1])
  }

  lemma {:induction false} TotalBytesMore(records: seq<Record>, r: Record)
    ensures TotalBytes(records + [r]) == TotalBytes(records) + ByteSize(r)
  {
    hide ByteSize;
    assert (records + [r])[..|records|] == records;
  }

  lemma {:induction false} AcceptLeavesNothingDue(spec: Spec, s: State, dir: Directory, r: Record, env: Env)
    requires s.bufferBytes == TotalBytes(s.buffer)
    requires var accepted := Accept(spec, s, r);
             DueTrigger(spec, accepted, env.timeUp).Some? ==> Flush(spec, accepted, dir, env.put).error.None?
    ensures var accepted := Accept(spec, s, r);
            var s' := if DueTrigger(spec, accepted, env.timeUp).Some? then Flush(spec, accepted, dir, env.put).state
              else accepted;
            && s'.bufferBytes == TotalBytes(s'.buffer)
            && (s'.buffer != [] ==> |s'.buffer| < spec.maxOffsets && s'.bufferBytes < spec.maxBytes && !env.timeUp)
  {
    hide Flush, Apply, ByteSize, TotalBytes;
    TotalBytesMore(s.buffer, r);
    NoBytes();
    FlushEmpties(spec, Accept(spec, s, r), dir, env.put);
  }

  lemma {:induction false} NoBytes()
    ensures TotalBytes([]) == 0
  {
  }

  /** A write that succeeds leaves nothing due: the buffer is below both limits, and its size is
      counted exactly, through every flush on the way. */
  lemma {:induction false} WriteLeavesNothingDue(spec: Spec, s: State, dir: Directory, r: Record, env: Env)
    requires s.bufferBytes == TotalBytes(s.buffer) && Write(spec, s, dir, r, env).error.None?
    ensures var s' := Write(spec, s, dir, r, env).state;
            && s'.bufferBytes == TotalBytes(s'.buffer)
            && (s'.buffer != [] ==> |s'.buffer| < spec.maxOffsets && s'.bufferBytes < spec.maxBytes && !env.timeUp)
  {
    hide Flush, Accept, DueTrigger, TotalBytes, HasTextKey;
    if env.dailyDue && s.buffer != [] {
      FlushEmpties(spec, s, dir, env.dailyPut);
    }
    NoBytes();
    var daily := TickDaily(spec, s, dir, env);
    AcceptLeavesNothingDue(spec, daily.state, daily.dir, r, env);
  }

  lemma {:induction false} FlushEmpties(spec: Spec, s: State, dir: Directory, put: Put)
    requires s.buffer != []
    ensures var a := Flush(spec, s, dir, put); a.error.None? ==> a.state.buffer == [] && a.state.bufferBytes == 0
  {
    hide BlobFilename, Contents, PushTail;
  }

  // ---------- the sink ----------

  /** Where a sink's objects live. */
  class Store {
    const conditional: bool
    var objects: Directory

    constructor (conditional: bool, objects: Directory)
      ensures this.conditional == conditional && this.objects == objects
    {
      this.conditional, this.objects := conditional, objects;
    }

    /** A put that must not replace an object, where the store can tell. */
    method PutNew(name: string, contents: seq<Record>, outcome: Put) returns (error: Option<SinkError>)
      requires !outcome.NotEncodable?
      modifies this
      ensures error == (if conditional && name in old(objects) then Some(Inconsistent)
                        else if outcome.Stored? then None else Some(Transport))
      ensures objects == if (conditional && name in old(objects)) || outcome.NotStored? then old(objects)
                         else old(objects)[name := contents]
    {
      if conditional && name in objects {
        return Some(Inconsistent);
      }
      if !outcome.NotStored? {
        objects := objects[name := contents];
      }
      error := if outcome.Stored? then None else Some(Transport);
    }

    /** The listing a store serves: every name after `after`, or every name. */
    function ListAfter(after: Option<string>): set<string>
      reads this
    {
      set name | name in objects && (after == None || Before(after.value, name)) :: name
    }
  }

  class BlobSink {
    const spec: Spec
    const store: Store
    var durable: nat
    var buffer: seq<Record>
    var bufferBytes: nat
    var view: View
    var tail: seq<string>

    function Value(): State
      reads this
    {
      State(durable, buffer, bufferBytes, view, tail)
    }

    ghost predicate Valid() {
      store.conditional == spec.conditional
    }

    constructor (store: Store, spec: Spec, start: State)
      requires store.conditional == spec.conditional
      ensures Valid() && this.store == store && this.spec == spec && Value() == start
    {
      this.store, this.spec := store, spec;
      durable, buffer, bufferBytes, view, tail :=
        start.durable, start.buffer, start.bufferBytes, start.view, start.tail;
    }

    method FlushLocked(put: Put) returns (error: Option<SinkError>)
      requires Valid() && buffer != []
      modifies this, store
      ensures After(Value(), store.objects, error) == Flush(spec, old(Value()), old(store.objects), put)
    {
      hide BlobFilename, Snapshot, Padded;
      var from, to := durable, buffer[|buffer| - 1].offset;
      var name := BlobFilename(from, to, spec.keyId, spec.ext);
      var contents;
      if spec.snapshots {
        contents := Snapshot(view);
      } else {
        contents := buffer;
        buffer := [];
      }
      if put.NotEncodable? {
        return Some(Rejected);
      }
      error := store.PutNew(name, contents, put);
      if error.Some? {
        return;
      }
      durable := to + 1;
      tail := tail + [name];
      if |tail| > 2 {
        tail := tail[1..];
      }
      buffer, bufferBytes := [], 0;
    }

    method Tick(env: Env) returns (error: Option<SinkError>)
      requires Valid()
      modifies this, store
      ensures After(Value(), store.objects, error) == TickDaily(spec, old(Value()), old(store.objects), env)
    {
      error := None;
      if env.dailyDue && buffer != [] {
        error := FlushLocked(env.dailyPut);
      }
    }

    method WriteRecord(r: Record, env: Env) returns (error: Option<SinkError>)
      requires Valid()
      modifies this, store
      ensures After(Value(), store.objects, error) == Write(spec, old(Value()), old(store.objects), r, env)
    {
      hide Flush, IsUtf8, ByteSize;
      error := Tick(env);
      if error.Some? {
        return;
      }
      if r.offset < Head(Value()) {
        return Some(UnexpectedPosition(Head(Value()), r.offset));
      }
      if spec.snapshots {
        if !HasTextKey(r) {
          return Some(Rejected);
        }
        view := if r.value.None? then view - {r.key.value} else view[r.key.value := r];
      }
      bufferBytes := bufferBytes + ByteSize(r);
      buffer := buffer + [r];
      if DueTrigger(spec, Value(), env.timeUp).Some? {
        error := FlushLocked(env.put);
      }
    }

    /** The tail's last object and nothing else after the one before it. */
    method CheckDrift() returns (error: Option<SinkError>)
      ensures error == if NoDrift(tail, store.objects) then None else Some(Inconsistent)
    {
      var after := if |tail| < 2 then None else Some(tail[|tail| - 2]);
      var expected := if tail == [] then None else Some(tail[|tail| - 1]);
      var listed := store.ListAfter(after);
      if expected.Some? && expected.value !in listed {
        return Some(Inconsistent);
      }
      ghost var own := if tail == [] then {} else {tail[|tail| - 1]};
      assert NoDrift(tail, store.objects) <==> listed == own;
      if exists name :: name in listed && Some(name) != expected {
        assert exists name :: name in listed && name !in own;
        return Some(Inconsistent);
      }
      assert listed <= own;
      return None;
    }

    method NextExpectedOffset(env: Env) returns (r: Result<nat, SinkError>)
      requires Valid()
      modifies this, store
      ensures var a := Idle(spec, old(Value()), old(store.objects), env);
              && After(Value(), store.objects, if r.Err? then Some(r.error) else None) == a
              && (r.Ok? ==> r.value == Head(a.state))
    {
      var error := Tick(env);
      if error.Some? {
        return Err(error.value);
      }
      if DueTrigger(spec, Value(), env.timeUp) == Some(MaxTime) {
        error := FlushLocked(env.put);
        if error.Some? {
          return Err(error.value);
        }
      }
      if env.driftDue {
        error := CheckDrift();
        if error.Some? {
          return Err(error.value);
        }
      }
      return Ok(Head(Value()));
    }

    method FlushBuffered(env: Env) returns (error: Option<SinkError>)
      requires Valid()
      modifies this, store
      ensures After(Value(), store.objects, error) == FlushNow(spec, old(Value()), old(store.objects), env)
    {
      error := None;
      if buffer != [] {
        error := FlushLocked(env.put);
      }
    }

    method AlignToSourceLowWatermark(low: nat) returns (error: Option<SinkError>)
      modifies this
      ensures After(Value(), store.objects, error) == Align(spec, old(Value()), store.objects, low)
    {
      if !spec.snapshots {
        return Some(Inconsistent);
      }
      if buffer != [] || low < durable {
        return Some(Inconsistent);
      }
      durable := low;
      return None;
    }
  }
}
