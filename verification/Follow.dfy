/** A growing backup read as a mirror's source.

    The source lists the backup, reads its objects in turn and yields their
    records at the positions they get in the target: their own offsets
    (preserve), or 0, 1, 2, … (renumber). `poll_one` may be dropped at any
    await, a read or a listing may fail, and the backup may grow at any time. */
module Follow {
  import opened Records
  import opened Naming
  import opened Chain
  import opened Readers
  import Producing

  datatype Config = Config(ext: string, source: Source, mode: OffsetMode, start: nat, keyring: Option<set<string>>)

  /** What a source keeps: the objects listed, the records of those counted, the object to read
      next and how many of its records to leave out, a read that was begun, the records read and
      not yielded, the position of the next one, the object read last, and whether it waits. */
  datatype Cursor = Cursor(
    chain: seq<ChainObject>,
    counts: seq<nat>,
    next: nat,
    skip: nat,
    pending: Option<nat>,
    buffer: seq<Record>,
    position: nat,
    cached: Option<(nat, seq<Record>)>,
    idle: bool)

  // ---------- the stream ----------

  /** `r` is what the target gets at position `p`: record `m` of object `i`, an object that is what
      its name says, with its own offset, or renumbered by the records before it. */
  ghost predicate Gives(cfg: Config, chain: seq<ChainObject>, b: Backup, i: nat, m: nat, p: nat, r: Record)
    requires AllStored(chain, b)
  {
    && i < |chain| && AllStored(chain[..i], b)
    && var records := b[chain[i].name].records;
    && IsRead(chain[i], cfg.source, records) && m < |records|
    && match cfg.mode
       case Preserve => r == records[m] && r.offset == p
       case Renumber => r == records[m].(offset := p) && p == |Flat(chain[..i], b)| + m
  }

  ghost predicate IsAt(cfg: Config, chain: seq<ChainObject>, b: Backup, p: nat, r: Record)
    requires AllStored(chain, b)
  {
    exists i, m :: Gives(cfg, chain, b, i, m, p, r)
  }

  /** Where a record of an object is among all records. */
  lemma {:induction false} GivesFromFlat(
      cfg: Config, chain: seq<ChainObject>, b: Backup, i: nat, m: nat, p: nat, r: Record)
    requires AllStored(chain, b) && Gives(cfg, chain, b, i, m, p, r)
    ensures i < |chain| && AllStored(chain[..i], b)
    ensures var f := |Flat(chain[..i], b)| + m;
            && f < |Flat(chain, b)|
            && r == if cfg.mode.Preserve? then Flat(chain, b)[f] else Flat(chain, b)[f].(offset := p)
  {
    hide IsRead, Flat;
    ReadNext(chain, i, b);
    assert (Flat(chain[..i], b) + b[chain[i].name].records)[|Flat(chain[..i], b)| + m] == b[chain[i].name].records[m];
  }

  lemma {:induction false} GivesInRange(
      cfg: Config, chain: seq<ChainObject>, b: Backup, i: nat, m: nat, p: nat, r: Record)
    requires AllStored(chain, b) && Gives(cfg, chain, b, i, m, p, r) && cfg.mode.Preserve?
    ensures chain[i].from <= p <= chain[i].to
  {
    ReadBounds(chain[i], cfg.source, b[chain[i].name].records);
  }

  lemma {:induction false} IsAtItsPosition(cfg: Config, chain: seq<ChainObject>, b: Backup, p: nat, r: Record)
    requires AllStored(chain, b) && IsAt(cfg, chain, b, p, r)
    ensures r.offset == p
  {
    hide Flat, IsRead;
  }

  /** A position has one record, in every backup whose names make a chain, read or not. */
  lemma {:induction false} IsAtIsUnique(cfg: Config, chain: seq<ChainObject>, b: Backup, p: nat, r: Record, r': Record)
    requires AllStored(chain, b) && Contiguous(chain, cfg.start)
    requires IsAt(cfg, chain, b, p, r) && IsAt(cfg, chain, b, p, r')
    ensures r == r'
  {
    hide Flat, Contiguous;
    var i: nat, m: nat :| Gives(cfg, chain, b, i, m, p, r);
    var j: nat, n: nat :| Gives(cfg, chain, b, j, n, p, r');
    if cfg.mode.Preserve? {
      GivesInRange(cfg, chain, b, i, m, p, r);
      GivesInRange(cfg, chain, b, j, n, p, r');
      OnlyHolder(chain, cfg.start, i, p);
      assert i == j;
      SameOffset(b[chain[i].name].records, m, n);
    } else {
      GivesFromFlat(cfg, chain, b, i, m, p, r);
      GivesFromFlat(cfg, chain, b, j, n, p, r');
    }
  }

  lemma {:induction false} NoOther(cfg: Config, chain: seq<ChainObject>, b: Backup, p: nat, r: Record)
    requires AllStored(chain, b) && Contiguous(chain, cfg.start) && IsAt(cfg, chain, b, p, r)
    ensures forall r' :: IsAt(cfg, chain, b, p, r') ==> r' == r
  {
    hide IsAt, Contiguous;
    forall r' | IsAt(cfg, chain, b, p, r')
      ensures r' == r
    {
      IsAtIsUnique(cfg, chain, b, p, r, r');
    }
  }

  lemma {:induction false} SameOffset(records: seq<Record>, m: nat, n: nat)
    requires Increasing(records) && m < |records| && n < |records| && records[m].offset == records[n].offset
    ensures m == n
  {
  }

  lemma {:induction false} IsAtInMore(
      cfg: Config, chain: seq<ChainObject>, now: seq<ChainObject>, b: Backup, b': Backup, p: nat, r: Record)
    requires AllStored(chain, b) && AllStored(now, b') && chain <= now && GrownTo(b, b')
    requires IsAt(cfg, chain, b, p, r)
    ensures IsAt(cfg, now, b', p, r)
  {
    hide Flat, IsRead;
    var i: nat, m: nat :| Gives(cfg, chain, b, i, m, p, r);
    assert now[..i] == chain[..i];
    FlatStays(chain[..i], b, b');
    assert Gives(cfg, now, b', i, m, p, r);
  }

  lemma {:induction false} OnlyHolder(chain: seq<ChainObject>, start: nat, i: nat, p: nat)
    requires Contiguous(chain, start) && i < |chain| && chain[i].from <= p <= chain[i].to
    ensures forall k :: 0 <= k < |chain| && k != i ==> !(chain[k].from <= p <= chain[k].to)
  {
    ContiguousIsStrictlyOrdered(chain, start);
  }

  // ---------- a backup that grows ----------

  ghost predicate GrownTo(b: Backup, b': Backup) {
    forall n :: n in b ==> n in b' && b'[n] == b[n]
  }

  lemma {:induction false} FlatStays(chain: seq<ChainObject>, b: Backup, b': Backup)
    requires AllStored(chain, b) && GrownTo(b, b')
    ensures AllStored(chain, b') && Flat(chain, b') == Flat(chain, b)
  {
    if chain != [] {
      FlatStays(chain[..|chain| - 1], b, b');
    }
  }

  /** The objects a listing of this backup made a chain of. */
  ghost predicate Listed(cfg: Config, chain: seq<ChainObject>, b: Backup) {
    && Contiguous(chain, cfg.start)
    && AllStored(chain, b)
    && forall i :: 0 <= i < |chain| ==> ParseObject(chain[i].name, cfg.ext, false) == Ok(chain[i])
  }

  lemma {:induction false} ParsedObjects(names: seq<string>, ext: string)
    requires ParseAll(names, ext, false).Ok?
    ensures |ParseAll(names, ext, false).value| == |names|
    ensures forall i :: 0 <= i < |names| ==>
              ParseAll(names, ext, false).value[i].name == names[i]
              && ParseObject(names[i], ext, false) == Ok(ParseAll(names, ext, false).value[i])
  {
    hide ParseObject;
    if names != [] {
      var n := |names| - 1;
      ParsedObjects(names[..n], ext);
      ParsedName(names[n], ext);
      assert forall i :: 0 <= i < n ==> names[i] == names[..n][i];
    }
  }

  lemma {:induction false} ParsedName(name: string, ext: string)
    ensures ParseObject(name, ext, false).Ok? ==> ParseObject(name, ext, false).value.name == name
  {
    hide ParseBlobName;
  }

  /** A plan is of exactly the names listed. */
  lemma {:induction false} PlannedObjects(names: seq<string>, ext: string, start: nat, keyring: Option<set<string>>)
    requires Plan(names, ext, start, keyring).Ok?
    ensures var chain := Plan(names, ext, start, keyring).value;
            && Contiguous(chain, start) && chain != []
            && (forall o :: o in chain ==> o.name in names && ParseObject(o.name, ext, false) == Ok(o))
            && (forall n, o :: n in names && ParseObject(n, ext, false) == Ok(o) ==> o in chain)
  {
    hide ParseObject, Contiguous;
    var chain := Plan(names, ext, start, keyring).value;
    PlannedIsContiguous(names, chain, ext, start, keyring);
    ParsedObjects(names, ext);
    var objects := ParseAll(names, ext, false).value;
    ParsedRanges(names, ext, false);
    SortedKeepsRanges(objects, false);
    forall n, o | n in names && ParseObject(n, ext, false) == Ok(o)
      ensures o in chain
    {
      var i :| 0 <= i < |names| && names[i] == n;
      assert objects[i] == o;
    }
  }

  lemma {:induction false} StartsOnce(s: seq<ChainObject>, start: nat, i: nat)
    requires Contiguous(s, start) && i < |s| && s[i].from == start
    ensures i == 0
  {
    ContiguousAt(s, start, 0);
  }

  lemma {:induction false} RestIsLater(was: seq<ChainObject>, now: seq<ChainObject>, start: nat)
    requires Contiguous(was, start) && was != [] && now != [] && now[0] == was[0]
    requires forall o :: o in was ==> o in now
    ensures forall o :: o in was[1..] ==> o in now[1..]
  {
    ContiguousAt(was, start, 0);
    forall o | o in was[1..]
      ensures o in now[1..]
    {
      var k :| 0 <= k < |was| - 1 && was[1..][k] == o;
      assert was[k + 1] in was;
      var j :| 0 <= j < |now| && now[j] == o;
      assert now[1..][j - 1] == o;
    }
  }

  /** The names planned are those listed. */
  lemma {:induction false} PlannedNames(names: seq<string>, ext: string, start: nat, keyring: Option<set<string>>)
    requires Plan(names, ext, start, keyring).Ok?
    ensures var chain := Plan(names, ext, start, keyring).value;
            forall n :: n in names <==> IsNamed(chain, 0, n)
  {
    hide ParseObject, Contiguous, Plan;
    PlannedObjects(names, ext, start, keyring);
    PlannedParsed(names, ext, start, keyring);
    ParsedObjects(names, ext);
    var chain, objects := Plan(names, ext, start, keyring).value, ParseAll(names, ext, false).value;
    forall n | n in names
      ensures IsNamed(chain, 0, n)
    {
      var k :| 0 <= k < |names| && names[k] == n;
      assert objects[k] in chain;
    }
    forall n | IsNamed(chain, 0, n)
      ensures n in names
    {
      var i :| 0 <= i < |chain| && chain[i].name == n;
      assert chain[i] in chain;
    }
  }

  lemma {:induction false} PlannedParsed(names: seq<string>, ext: string, start: nat, keyring: Option<set<string>>)
    requires Plan(names, ext, start, keyring).Ok?
    ensures ParseAll(names, ext, false).Ok?
  {
  }

  /** `n` is the name of an object from `from` on. */
  ghost predicate IsNamed(chain: seq<ChainObject>, from: nat, n: string) {
    exists i :: from <= i < |chain| && chain[i].name == n
  }

  lemma {:induction false} AppendedNames(chain: seq<ChainObject>, more: seq<ChainObject>)
    ensures forall n :: IsNamed(chain + more, |chain|, n) <==> IsNamed(more, 0, n)
  {
    var all := chain + more;
    forall n
      ensures IsNamed(all, |chain|, n) <==> IsNamed(more, 0, n)
    {
      if i :| |chain| <= i < |all| && all[i].name == n {
        assert more[i - |chain|].name == n;
      }
      if i :| 0 <= i < |more| && more[i].name == n {
        assert all[i + |chain|].name == n;
      }
    }
  }

  /** A chain is determined by its objects: one inside another is the start of it. */
  lemma {:induction false} ChainsAgree(was: seq<ChainObject>, now: seq<ChainObject>, start: nat)
    requires Contiguous(was, start) && Contiguous(now, start)
    requires forall o :: o in was ==> o in now
    ensures was <= now
  {
    if was != [] {
      var o := was[0];
      assert o in was;
      var i :| 0 <= i < |now| && now[i] == o;
      StartsOnce(now, start, i);
      RestIsLater(was, now, start);
      ChainsAgree(was[1..], now[1..], o.to + 1);
      assert was == [o] + was[1..] && now == [o] + now[1..];
    }
  }

  // ---------- what a source keeps ----------

  /** What was counted and kept of reads is true. */
  ghost predicate Counted(cfg: Config, c: Cursor, b: Backup)
    requires AllStored(c.chain, b)
  {
    && |c.counts| <= |c.chain|
    && (forall k :: 0 <= k < |c.counts| ==>
          IsRead(c.chain[k], cfg.source, b[c.chain[k].name].records) && c.counts[k] == |b[c.chain[k].name].records|)
    && (c.cached.Some? ==>
          && c.cached.value.0 < |c.chain|
          && c.cached.value.1 == b[c.chain[c.cached.value.0].name].records
          && IsRead(c.chain[c.cached.value.0], cfg.source, c.cached.value.1))
  }

  /** The position after the records in the buffer. */
  function Ahead(c: Cursor): nat {
    c.position + |c.buffer|
  }

  /** The buffer is what comes at the position, and the next object is where it ends. */
  ghost predicate Placed(cfg: Config, c: Cursor, b: Backup)
    requires AllStored(c.chain, b)
  {
    && c.next <= |c.chain| && AllStored(c.chain[..c.next], b)
    && (c.pending.Some? ==> c.pending.value == c.next < |c.chain|)
    && (forall m :: 0 <= m < |c.buffer| ==> IsAt(cfg, c.chain, b, c.position + m, c.buffer[m]))
    && match cfg.mode
       case Renumber =>
         && Ahead(c) == |Flat(c.chain[..c.next], b)| + c.skip
         && (c.skip > 0 ==> c.next < |c.chain| && c.skip < |b[c.chain[c.next].name].records|)
       case Preserve =>
         && cfg.start == 0
         && if c.next < |c.chain| then c.chain[c.next].from <= Ahead(c) <= c.chain[c.next].to
            else Ahead(c) == End(c.chain, 0)
  }

  ghost predicate Known(cfg: Config, c: Cursor, b: Backup) {
    Listed(cfg, c.chain, b) && Counted(cfg, c, b)
  }

  ghost predicate Fits(cfg: Config, c: Cursor, b: Backup) {
    Known(cfg, c, b) && Placed(cfg, c, b)
  }

  lemma {:induction false} KnownGrown(cfg: Config, c: Cursor, b: Backup, b': Backup)
    requires Known(cfg, c, b) && GrownTo(b, b')
    ensures Known(cfg, c, b') && (Placed(cfg, c, b) ==> Placed(cfg, c, b'))
  {
    hide Flat, IsRead, Contiguous, ParseObject, IsAt;
    FlatStays(c.chain, b, b');
    if Placed(cfg, c, b) {
      FlatStays(c.chain[..c.next], b, b');
      forall m | 0 <= m < |c.buffer|
        ensures IsAt(cfg, c.chain, b', c.position + m, c.buffer[m])
      {
        IsAtInMore(cfg, c.chain, c.chain, b, b', c.position + m, c.buffer[m]);
      }
    }
  }

  /** New objects at the end of the chain change nothing before it. */
  lemma {:induction false} KnownListed(cfg: Config, c: Cursor, b: Backup, more: seq<ChainObject>)
    requires Known(cfg, c, b) && Listed(cfg, c.chain + more, b)
    ensures Known(cfg, c.(chain := c.chain + more), b)
    ensures Placed(cfg, c, b) ==> Placed(cfg, c.(chain := c.chain + more), b)
  {
    hide Flat, IsRead, ParseObject, IsAt, Contiguous;
    var all := c.chain + more;
    FlatPrefixOf(c.chain, more, b);
    if Placed(cfg, c, b) {
      forall m | 0 <= m < |c.buffer|
        ensures IsAt(cfg, all, b, c.position + m, c.buffer[m])
      {
        IsAtInMore(cfg, c.chain, all, b, b, c.position + m, c.buffer[m]);
      }
      assert all[..c.next] == c.chain[..c.next];
      if c.next == |c.chain| && more != [] {
        NextStartsAtEnd(c.chain, more, cfg.start);
      }
    }
  }

  lemma {:induction false} NextStartsAtEnd(chain: seq<ChainObject>, more: seq<ChainObject>, start: nat)
    requires Contiguous(chain, start) && Contiguous(chain + more, start) && more != []
    ensures more[0].from == End(chain, start) <= more[0].to
  {
    ContiguousConcat(chain, more, start);
  }

  lemma {:induction false} FlatPrefixOf(chain: seq<ChainObject>, more: seq<ChainObject>, b: Backup)
    requires AllStored(chain + more, b)
    ensures AllStored(chain, b) && Flat(chain, b) <= Flat(chain + more, b)
  {
    assert (chain + more)[..|chain|] == chain;
    Producing.FlatPrefix(chain + more, |chain|, b);
  }

  // ---------- the backup's store ----------

  class BackupStore {
    /** Nothing is added, every call answers, and none is dropped. */
    const quiet: bool
    var objects: Backup

    constructor (quiet: bool, objects: Backup)
      ensures this.quiet == quiet && this.objects == objects
    {
      this.quiet, this.objects := quiet, objects;
    }

    /** The mirror that writes the backup may add objects at any time. */
    method Grow()
      modifies this
      ensures GrownTo(old(objects), objects) && (quiet ==> objects == old(objects))
    {
      var more: Backup := *;
      if !quiet {
        objects := more + objects;
      }
    }

    /** Whether a call is dropped, or cannot reach the store. */
    method Fails() returns (fails: bool)
      ensures quiet ==> !fails
    {
      var chance := *;
      fails := chance && !quiet;
    }

    /** A listing of the names after that of the last object, or of all. */
    method ListAfter(chain: seq<ChainObject>) returns (r: Option<seq<string>>)
      modifies this
      ensures GrownTo(old(objects), objects) && (quiet ==> objects == old(objects) && r.Some?)
      ensures r.Some? ==> AllNew(chain, objects, r.value)
    {
      hide ListedAfter, Before;
      Grow();
      var unreachable := Fails();
      if unreachable {
        return None;
      }
      var names := List();
      if chain == [] {
        return Some(names);
      }
      ghost var last := chain[|chain| - 1].name;
      forall n
        ensures multiset(ListedAfter(names, last))[n] == if IsNew(chain, objects, n) then 1 else 0
      {
        AfterCounts(names, last, n);
      }
      return Some(ListedAfter(names, chain[|chain| - 1].name));
    }

    /** The names held, in some order. */
    method List() returns (names: seq<string>)
      ensures forall n :: multiset(names)[n] == if n in objects then 1 else 0
    {
      names := [];
      var left := objects.Keys;
      while left != {}
        invariant left <= objects.Keys
        invariant forall n :: multiset(names)[n] == if n in objects.Keys - left then 1 else 0
        decreases left
      {
        var n :| n in left;
        names, left := names + [n], left - {n};
      }
    }
  }

  /** Every name an object of the chain has at its end or after, and no other: a listing of what a
      chain lacks. */
  lemma {:induction false} NothingNew(chain: seq<ChainObject>, objects: Backup, names: seq<string>)
    requires AllNew(chain, objects, names)
    ensures names == [] <==> forall n :: !IsNew(chain, objects, n)
  {
    hide IsNew;
    NewNames(chain, objects, names);
    if names != [] {
      assert names[0] in names;
    }
  }

  // ---------- a whole backup ----------

  /** `all` is a chain as a mirror writes it, it is what is held, and it reads; in place it has no
      hole. */
  ghost predicate Whole(cfg: Config, all: seq<ChainObject>, b: Backup) {
    && IsExtension(cfg.ext) && AllWritten(all, cfg.ext) && Contiguous(all, cfg.start)
    && (forall n :: n in b <==> IsNamed(all, 0, n))
    && (forall o :: o in all ==> KeyHeld(o, cfg.keyring))
    && AllRead(all, cfg.source, b)
    && (cfg.mode.Preserve? ==> AllThere(all, b))
  }

  ghost predicate AllThere(all: seq<ChainObject>, b: Backup) {
    forall i, p :: 0 <= i < |all| && all[i].from <= p <= all[i].to ==>
                     all[i].name in b && HasOffset(b[all[i].name].records, p)
  }

  ghost predicate HasWhole(cfg: Config, b: Backup) {
    exists all :: Whole(cfg, all, b)
  }

  ghost function TheWhole(cfg: Config, b: Backup): (all: seq<ChainObject>)
    requires HasWhole(cfg, b)
    ensures Whole(cfg, all, b)
  {
    var all :| Whole(cfg, all, b);
    all
  }

  lemma {:induction false} WrittenIsListed(cfg: Config, all: seq<ChainObject>, b: Backup, o: ChainObject)
    requires Whole(cfg, all, b) && o in all
    ensures o.name in b && ParseObject(o.name, cfg.ext, false) == Ok(o)
  {
    hide AllRead, AllThere, Contiguous, Written, KeyHeld;
    var i :| 0 <= i < |all| && all[i] == o;
    assert IsNamed(all, 0, o.name);
    WrittenParses(o, cfg.ext, false);
  }

  /** What is held determines the chain. */
  lemma {:induction false} OneWhole(cfg: Config, all: seq<ChainObject>, other: seq<ChainObject>, b: Backup)
    requires Whole(cfg, all, b) && Whole(cfg, other, b)
    ensures all == other
  {
    hide AllRead, AllThere, Contiguous, KeyHeld, ParseObject;
    InOther(cfg, all, other, b);
    InOther(cfg, other, all, b);
    ChainsAgree(all, other, cfg.start);
    ChainsAgree(other, all, cfg.start);
  }

  lemma {:induction false} InOther(cfg: Config, all: seq<ChainObject>, other: seq<ChainObject>, b: Backup)
    requires Whole(cfg, all, b) && Whole(cfg, other, b)
    ensures forall o :: o in all ==> o in other
  {
    hide AllRead, AllThere, Contiguous, KeyHeld, ParseObject;
    forall o | o in all
      ensures o in other
    {
      WrittenIsListed(cfg, all, b, o);
      assert IsNamed(other, 0, o.name);
      var j :| 0 <= j < |other| && other[j].name == o.name;
      assert other[j] in other;
      WrittenIsListed(cfg, other, b, other[j]);
    }
  }

  lemma {:induction false} NamedOnce(s: seq<ChainObject>, ext: string, start: nat)
    requires AllWritten(s, ext) && Contiguous(s, start)
    ensures forall n :: multiset(Names(s))[n] == if IsNamed(s, 0, n) then 1 else 0
  {
    hide Written, IsNamed;
    if s == [] {
      assert Names(s) == [];
      NoneNamed();
    } else {
      var rest := s[1..];
      NamedOnce(rest, ext, s[0].to + 1);
      assert Names(s) == [s[0].name] + Names(rest);
      FirstIsNamedOnce(s, ext, start);
      forall n
        ensures multiset(Names(s))[n] == if IsNamed(s, 0, n) then 1 else 0
      {
        NamedInRest(s, n);
      }
    }
  }

  lemma {:induction false} NoneNamed()
    ensures forall n :: !IsNamed([], 0, n)
  {
  }

  lemma {:induction false} FirstIsNamedOnce(s: seq<ChainObject>, ext: string, start: nat)
    requires AllWritten(s, ext) && Contiguous(s, start) && s != []
    ensures !IsNamed(s[1..], 0, s[0].name)
  {
    hide Written, Contiguous, Before;
    ContiguousIsStrictlyOrdered(s, start);
    NotBeforeItself(s[0].name);
    forall i | 1 <= i < |s|
      ensures s[i].name != s[0].name
    {
      LaterSortsAfter(s[0], s[i], ext);
    }
  }

  lemma {:induction false} NamedInRest(s: seq<ChainObject>, n: string)
    requires s != []
    ensures IsNamed(s, 0, n) <==> s[0].name == n || IsNamed(s[1..], 0, n)
  {
    AppendedNames([s[0]], s[1..]);
    assert [s[0]] + s[1..] == s;
  }

  /** What is new to a part of the backup is the rest of it. */
  lemma {:induction false} NewIsRest(cfg: Config, chain: seq<ChainObject>, all: seq<ChainObject>, b: Backup, n: string)
    requires Whole(cfg, all, b) && chain <= all
    ensures IsNew(chain, b, n) <==> IsNamed(all, |chain|, n)
  {
    hide AllRead, AllThere, KeyHeld, Before, Contiguous, Written;
    if chain != [] {
      if i :| 0 <= i < |all| && all[i].name == n {
        SortsAfterLast(chain, all, cfg.ext, cfg.start, i);
      }
      if i :| |chain| <= i < |all| && all[i].name == n {
        SortsAfterLast(chain, all, cfg.ext, cfg.start, i);
        assert IsNamed(all, 0, n);
      }
    }
  }

  lemma {:induction false} SortsAfterLast(
      chain: seq<ChainObject>, all: seq<ChainObject>, ext: string, start: nat, i: nat)
    requires Contiguous(all, start) && AllWritten(all, ext) && chain <= all && chain != [] && i < |all|
    ensures Before(chain[|chain| - 1].name, all[i].name) <==> i >= |chain|
  {
    hide Before, Contiguous, Written;
    ContiguousIsStrictlyOrdered(all, start);
    var last := |chain| - 1;
    assert chain[last] == all[last];
    if i == last {
      NotBeforeItself(all[i].name);
    } else {
      LaterSortsAfter(all[last], all[i], ext);
    }
  }

  /** So a listing of what is new is planned as the rest of the backup. */
  lemma {:induction false} RestPlans(
      cfg: Config, chain: seq<ChainObject>, all: seq<ChainObject>, b: Backup, names: seq<string>)
    requires Whole(cfg, all, b) && chain <= all && AllNew(chain, b, names)
    ensures names == [] <==> chain == all
    ensures chain != all ==> Plan(names, cfg.ext, End(chain, cfg.start), cfg.keyring) == Ok(all[|chain|..])
  {
    hide AllRead, AllThere, KeyHeld, Before, Contiguous, IsNew, Written, Plan;
    var rest := all[|chain|..];
    assert chain + rest == all;
    AppendedNames(chain, rest);
    RestIsChain(cfg, chain, rest);
    NamedOnce(rest, cfg.ext, End(chain, cfg.start));
    forall n
      ensures multiset(names)[n] == multiset(Names(rest))[n]
    {
      NewIsRest(cfg, chain, all, b, n);
    }
    assert multiset(names) == multiset(Names(rest));
    assert |names| == |multiset(names)| == |multiset(Names(rest))| == |rest|;
    if rest != [] {
      ChainPlans(names, rest, cfg.ext, End(chain, cfg.start), cfg.keyring);
    }
  }

  lemma {:induction false} RestIsChain(cfg: Config, chain: seq<ChainObject>, rest: seq<ChainObject>)
    requires Contiguous(chain + rest, cfg.start) && AllWritten(chain + rest, cfg.ext)
    ensures Contiguous(rest, End(chain, cfg.start)) && AllWritten(rest, cfg.ext)
  {
    hide Written, Contiguous;
    var all := chain + rest;
    ContiguousParts(chain, rest, cfg.start);
    assert forall i :: 0 <= i < |rest| ==> rest[i] == all[|chain| + i];
  }

  lemma {:induction false} ContiguousParts(chain: seq<ChainObject>, rest: seq<ChainObject>, start: nat)
    requires Contiguous(chain + rest, start)
    ensures Contiguous(rest, End(chain, start))
    decreases |chain|
  {
    if chain == [] {
      assert chain + rest == rest;
    } else {
      assert (chain + rest)[1..] == chain[1..] + rest;
      ContiguousParts(chain[1..], rest, chain[0].to + 1);
    }
  }

  lemma {:induction false} WholeReads(cfg: Config, chain: seq<ChainObject>, all: seq<ChainObject>, b: Backup, i: nat)
    requires Whole(cfg, all, b) && chain <= all && i < |chain|
    ensures chain[i].name in b && IsRead(chain[i], cfg.source, b[chain[i].name].records)
    ensures cfg.mode.Preserve? ==>
              forall p :: chain[i].from <= p <= chain[i].to ==> HasOffset(b[chain[i].name].records, p)
  {
    hide IsRead, HasOffset, AllWritten, Contiguous;
    assert chain[i] == all[i];
  }

  lemma {:induction false} WholeIsStored(cfg: Config, all: seq<ChainObject>, b: Backup)
    requires Whole(cfg, all, b)
    ensures AllStored(all, b)
  {
    hide IsRead, HasOffset, AllWritten, Contiguous;
  }

  lemma {:induction false} NoneHeld(chain: seq<ChainObject>, b: Backup)
    requires forall n :: !IsNew(chain, b, n)
    ensures chain == [] ==> b == map[]
  {
    if chain == [] {
      assert forall n :: n in b ==> IsNew(chain, b, n);
    }
  }

  datatype Polled = Yielded(record: Record) | Idle | Cancelled | Failed(e: RestoreError)

  /** A name held that sorts after the last object of a chain. */
  predicate IsNew(chain: seq<ChainObject>, objects: Backup, n: string) {
    n in objects && (chain == [] || Before(chain[|chain| - 1].name, n))
  }

  /** Each of them once. */
  ghost predicate AllNew(chain: seq<ChainObject>, objects: Backup, names: seq<string>) {
    forall n :: multiset(names)[n] == if IsNew(chain, objects, n) then 1 else 0
  }

  lemma {:induction false} NewNames(chain: seq<ChainObject>, objects: Backup, names: seq<string>)
    requires AllNew(chain, objects, names)
    ensures forall n :: n in names <==> IsNew(chain, objects, n)
    ensures forall n :: n in names ==> n in objects
    ensures chain == [] ==> forall n :: n in names <==> n in objects
  {
    forall n
      ensures n in names <==> IsNew(chain, objects, n)
    {
      assert n in names <==> multiset(names)[n] > 0;
    }
  }

  // ---------- reading an object into the buffer ----------

  /** The records of an object after the first `skip`, at the positions from `position`. */
  function Taken(records: seq<Record>, skip: nat, position: nat): seq<Record>
    requires skip <= |records|
  {
    seq(|records| - skip, k requires 0 <= k < |records| - skip => records[skip + k].(offset := position + k))
  }

  /** The records from `position` on, up to the first hole. */
  method TakeInPlace(records: seq<Record>, position: nat) returns (taken: seq<Record>, hole: bool)
    requires Increasing(records) && records != [] && position <= records[|records| - 1].offset
    ensures forall m :: 0 <= m < |taken| ==> taken[m] in records && taken[m].offset == position + m
    ensures !hole ==> position + |taken| == records[|records| - 1].offset + 1
    ensures hole <==> exists p: nat :: position <= p <= records[|records| - 1].offset && !HasOffset(records, p)
    ensures hole ==> !HasOffset(records, position + |taken|) && position + |taken| < records[|records| - 1].offset
  {
    taken := [];
    var expected := position;
    for i := 0 to |records|
      invariant expected == position + |taken|
      invariant forall m :: 0 <= m < |taken| ==> taken[m] in records && taken[m].offset == position + m
      invariant forall k :: 0 <= k < i ==> records[k].offset < expected
      invariant if i > 0 && records[i - 1].offset >= position then expected == records[i - 1].offset + 1
                else taken == []
    {
      var r := records[i];
      if r.offset >= expected {
        if r.offset != expected {
          assert !HasOffset(records, expected) by {
            assert forall k :: i <= k < |records| ==> r.offset <= records[k].offset;
          }
          return taken, true;
        }
        assert r in records;
        taken, expected := taken + [r], expected + 1;
      } else {
        assert i > 0 ==> records[i - 1].offset < r.offset;
      }
    }
    hole := false;
    forall p: nat | position <= p <= records[|records| - 1].offset
      ensures HasOffset(records, p)
    {
      var t := taken[p - position];
      var i :| 0 <= i < |records| && records[i] == t;
    }
  }

  lemma {:induction false} TakenIsAt(cfg: Config, chain: seq<ChainObject>, b: Backup, i: nat, skip: nat, position: nat)
    requires AllStored(chain, b) && cfg.mode.Renumber? && i < |chain| && AllStored(chain[..i], b)
    requires IsRead(chain[i], cfg.source, b[chain[i].name].records)
    requires skip <= |b[chain[i].name].records| && position == |Flat(chain[..i], b)| + skip
    ensures var taken := Taken(b[chain[i].name].records, skip, position);
            forall m :: 0 <= m < |taken| ==> IsAt(cfg, chain, b, position + m, taken[m])
  {
    hide IsRead, Flat;
    var taken := Taken(b[chain[i].name].records, skip, position);
    forall m | 0 <= m < |taken|
      ensures IsAt(cfg, chain, b, position + m, taken[m])
    {
      assert Gives(cfg, chain, b, i, skip + m, position + m, taken[m]);
    }
  }

  lemma {:induction false} FilledRenumbered(cfg: Config, c: Cursor, b: Backup, records: seq<Record>)
    requires AllStored(c.chain, b) && Placed(cfg, c, b) && cfg.mode.Renumber? && c.next < |c.chain| && c.buffer == []
    requires records == b[c.chain[c.next].name].records && records != []
    requires IsRead(c.chain[c.next], cfg.source, records)
    ensures c.skip < |records|
    ensures Placed(
              cfg, c.(buffer := Taken(records, c.skip, c.position), next := c.next + 1, skip := 0, pending := None), b)
  {
    hide IsAt, Flat, Taken, IsRead;
    assert |Taken(records, c.skip, c.position)| == |records| - c.skip by {
      TakenSize(records, c.skip, c.position);
    }
    ReadNext(c.chain, c.next, b);
    TakenIsAt(cfg, c.chain, b, c.next, c.skip, c.position);
  }

  lemma {:induction false} TakenSize(records: seq<Record>, skip: nat, position: nat)
    requires skip <= |records|
    ensures |Taken(records, skip, position)| == |records| - skip
  {
  }

  lemma {:induction false} ReadNext(chain: seq<ChainObject>, i: nat, b: Backup)
    requires AllStored(chain, b) && i < |chain|
    ensures AllStored(chain[..i], b) && AllStored(chain[..i + 1], b) && chain[i].name in b
    ensures Flat(chain[..i + 1], b) == Flat(chain[..i], b) + b[chain[i].name].records
    ensures Flat(chain[..i], b) + b[chain[i].name].records <= Flat(chain, b)
  {
    assert forall k :: 0 <= k < i ==> chain[..i][k] == chain[k];
    ReadMore(chain, i, b);
    Producing.FlatPrefix(chain, i + 1, b);
  }

  lemma {:induction false} FilledInPlace(cfg: Config, c: Cursor, b: Backup, buffer: seq<Record>, hole: bool)
    requires AllStored(c.chain, b) && Placed(cfg, c, b) && Contiguous(c.chain, 0)
    requires cfg.mode.Preserve? && c.next < |c.chain| && c.buffer == []
    requires IsRead(c.chain[c.next], cfg.source, b[c.chain[c.next].name].records)
    requires forall m :: 0 <= m < |buffer| ==>
               buffer[m] in b[c.chain[c.next].name].records && buffer[m].offset == c.position + m
    requires if hole then c.position + |buffer| <= c.chain[c.next].to
             else c.position + |buffer| == c.chain[c.next].to + 1
    ensures Placed(cfg, c.(buffer := buffer, next := if hole then c.next else c.next + 1, pending := None), b)
  {
    hide Flat, Contiguous, IsRead;
    ReadNext(c.chain, c.next, b);
    var records := b[c.chain[c.next].name].records;
    forall m | 0 <= m < |buffer|
      ensures IsAt(cfg, c.chain, b, c.position + m, buffer[m])
    {
      assert buffer[m] in records;
      var k :| 0 <= k < |records| && records[k] == buffer[m];
      assert Gives(cfg, c.chain, b, c.next, k, c.position + m, buffer[m]);
    }
    EndsHere(c.chain, c.next);
  }

  lemma {:induction false} EndsHere(chain: seq<ChainObject>, i: nat)
    requires Contiguous(chain, 0) && i < |chain|
    ensures if i + 1 < |chain| then chain[i + 1].from == chain[i].to + 1 <= chain[i + 1].to
            else End(chain, 0) == chain[i].to + 1
  {
    if i + 1 < |chain| {
      assert chain == chain[..i + 1] + chain[i + 1..];
      ContiguousPrefix(chain, 0, i + 1);
    }
  }

  lemma {:induction false} ContiguousPrefix(chain: seq<ChainObject>, start: nat, i: nat)
    requires Contiguous(chain, start) && 0 < i < |chain|
    ensures chain[i].from == chain[i - 1].to + 1 <= chain[i].to
  {
    if i > 1 {
      ContiguousPrefix(chain[1..], chain[0].to + 1, i - 1);
    }
  }

  // ---------- the source ----------

  class ChainSource {
    const store: BackupStore
    const cfg: Config
    var chain: seq<ChainObject>
    var counts: seq<nat>
    var next: nat
    var skip: nat
    var pending: Option<nat>
    var buffer: seq<Record>
    var position: nat
    var cached: Option<(nat, seq<Record>)>
    var idle: bool

    ghost function Value(): Cursor
      reads this
    {
      Cursor(chain, counts, next, skip, pending, buffer, position, cached, idle)
    }

    ghost predicate Valid()
      reads this, store
    {
      Fits(cfg, Value(), store.objects)
    }

    /** A source that has not listed yet. Preserve needs a backup from 0. */
    constructor (store: BackupStore, cfg: Config)
      requires cfg.mode.Preserve? ==> cfg.start == 0
      ensures this.store == store && this.cfg == cfg && Valid() && Waits() && chain == [] && position == 0
    {
      this.store, this.cfg := store, cfg;
      chain, counts, next, skip, pending := [], [], 0, 0, None;
      buffer, position, cached, idle := [], 0, None, false;
    }

    /** Append the objects written since the last listing; whether there were any. Nothing new is
        answered only if nothing held sorts after the last object; whatever does is appended, or
        does not continue the chain. */
    method ListNew() returns (r: Result<bool, RestoreError>)
      requires IsKnown()
      modifies this`chain, store
      ensures IsKnown() && (old(Valid()) ==> Valid())
      ensures GrownTo(old(store.objects), store.objects) && old(chain) <= chain
      ensures store.quiet ==> store.objects == old(store.objects)
      ensures r == Ok(true) ==> |chain| > |old(chain)|
      ensures r != Ok(true) ==> chain == old(chain)
      ensures r == Ok(false) <==> r.Ok? && forall n :: !IsNew(old(chain), store.objects, n)
      ensures r == Ok(true) ==>
                forall n :: IsNew(old(chain), store.objects, n) <==> IsNamed(chain, |old(chain)|, n)
      ensures r.Err? ==>
                || (r.error == StoreFailed && !store.quiet)
                || (&& r.error == BadChain && (exists n :: IsNew(chain, store.objects, n))
                    && exists names ::
                         && names != [] && AllNew(chain, store.objects, names)
                         && Plan(names, cfg.ext, End(chain, cfg.start), cfg.keyring).Err?)
      ensures r != Err(StoreFailed) && HasWhole(cfg, store.objects) && old(chain) <= TheWhole(cfg, store.objects) ==>
                chain == TheWhole(cfg, store.objects) && r == Ok(old(chain) != chain)
      ensures r.Ok? && old(chain) == []
              ==> forall n, o :: n in old(store.objects) && ParseObject(n, cfg.ext, false) == Ok(o) ==> o in chain
    {
      hide Known, Placed, Plan, ParseObject, IsNamed, Contiguous, Whole, HasWhole, IsNew, AllNew;
      var listed := store.ListAfter(chain);
      KnownGrown(cfg, Value(), old(store.objects), store.objects);
      if listed.None? {
        return Err(StoreFailed);
      }
      var names := listed.value;
      NewNames(chain, store.objects, names);
      NothingNew(chain, store.objects, names);
      if HasWhole(cfg, store.objects) && chain <= TheWhole(cfg, store.objects) {
        RestPlans(cfg, chain, TheWhole(cfg, store.objects), store.objects, names);
      }
      if names == [] {
        NoneHeld(chain, store.objects);
        return Ok(false);
      }
      var planned := PlanChain(names, cfg.ext, End(chain, cfg.start), cfg.keyring);
      if planned.Err? {
        return Err(BadChain);
      }
      PlannedNames(names, cfg.ext, End(chain, cfg.start), cfg.keyring);
      PlannedObjects(names, cfg.ext, End(chain, cfg.start), cfg.keyring);
      ListedMore(cfg, Value(), store.objects, names, planned.value);
      KnownListed(cfg, Value(), store.objects, planned.value);
      assert old(chain) == [] ==> [] + planned.value == planned.value;
      AppendedNames(chain, planned.value);
      chain := chain + planned.value;
      return Ok(true);
    }

    method ReadAt(i: nat) returns (r: Result<seq<Record>, RestoreError>)
      requires i < |chain| && AllStored(chain, store.objects)
      modifies store
      ensures GrownTo(old(store.objects), store.objects)
      ensures store.quiet ==> store.objects == old(store.objects)
      ensures r.Ok? ==> Reads(i, r.value)
      ensures r.Err? ==> (r.error == StoreFailed && !store.quiet) || (r.error == BadObject && !Readable(i))
    {
      hide IsRead;
      store.Grow();
      var unreachable := store.Fails();
      if unreachable {
        return Err(StoreFailed);
      }
      var read := ReadObject(chain[i], cfg.source, Some(store.objects[chain[i].name]));
      if read.Err? {
        return Err(read.error);
      }
      return Ok(read.value.records);
    }

    ghost predicate IsKnown()
      reads this, store
    {
      Known(cfg, Value(), store.objects)
    }

    /** What a read of `chain[i]` gives. */
    ghost predicate Reads(i: nat, records: seq<Record>)
      reads this, store
    {
      && i < |chain| && chain[i].name in store.objects
      && records == store.objects[chain[i].name].records && IsRead(chain[i], cfg.source, records)
    }

    /** The object is held and is what its name says. */
    ghost predicate Readable(i: nat)
      reads this, store
    {
      && i < |chain| && chain[i].name in store.objects
      && IsRead(chain[i], cfg.source, store.objects[chain[i].name].records)
    }

    ghost predicate AllReadable()
      reads this, store
    {
      forall i :: 0 <= i < |chain| ==> Readable(i)
    }

    /** A whole backup, to which nothing is added, in a store where nothing fails. */
    ghost predicate IsWhole()
      reads this, store
    {
      && store.quiet && HasWhole(cfg, store.objects)
      && chain <= TheWhole(cfg, store.objects)
      && (idle ==> chain == TheWhole(cfg, store.objects))
    }

    lemma AllAreReadable()
      requires IsWhole()
      ensures AllReadable()
    {
      hide IsRead, Whole;
      forall i | 0 <= i < |chain|
        ensures Readable(i)
      {
        WholeReads(cfg, chain, TheWhole(cfg, store.objects), store.objects, i);
      }
    }

    /** The records of `chain[i]`, from the last read if it was that object. */
    method RecordsOfObject(i: nat) returns (r: Result<seq<Record>, RestoreError>)
      requires IsKnown() && i < |chain|
      modifies this`cached, store
      ensures IsKnown() && GrownTo(old(store.objects), store.objects) && (old(Valid()) ==> Valid())
      ensures store.quiet ==> store.objects == old(store.objects)
      ensures r.Ok? ==> Reads(i, r.value)
      ensures r.Err? ==> (r.error == StoreFailed && !store.quiet) || (r.error == BadObject && !Readable(i))
    {
      hide IsRead, Listed, Placed;
      StoredByKnown(cfg, Value(), store.objects);
      if cached.Some? && cached.value.0 == i {
        return Ok(cached.value.1);
      }
      r := ReadAt(i);
      KnownGrown(cfg, Value(), old(store.objects), store.objects);
      if r.Ok? {
        ghost var before := Value();
        cached := Some((i, r.value));
        if old(Valid()) {
          SameElsewhere(cfg, before, Value(), store.objects);
        }
      }
    }

    /** How many records `chain[i]` has, reading the objects not counted yet. */
    method Count(i: nat) returns (r: Result<nat, RestoreError>)
      requires IsKnown() && i < |chain|
      modifies this`cached, this`counts, store
      ensures IsKnown() && GrownTo(old(store.objects), store.objects) && (old(Valid()) ==> Valid())
      ensures store.quiet ==> store.objects == old(store.objects)
      ensures r.Ok? ==> exists records :: Reads(i, records) && r.value == |records|
      ensures r.Err? ==> (r.error == StoreFailed && !store.quiet) || (r.error == BadObject && !AllReadable())
    {
      hide IsRead, Listed, Placed;
      while |counts| <= i
        invariant IsKnown() && GrownTo(old(store.objects), store.objects) && (old(Valid()) ==> Valid())
        invariant store.quiet ==> store.objects == old(store.objects)
        decreases i + 1 - |counts|
      {
        var records := RecordsOfObject(|counts|);
        if records.Err? {
          return Err(records.error);
        }
        ghost var before := Value();
        counts := counts + [|records.value|];
        if old(Valid()) {
          SameElsewhere(cfg, before, Value(), store.objects);
        }
      }
      StoredByKnown(cfg, Value(), store.objects);
      assert Reads(i, store.objects[chain[i].name].records);
      return Ok(counts[i]);
    }

    /** The records of the next object: those read last, or those of a read begun now or by a
        call that was dropped. */
    method NextRecords() returns (r: Option<Result<seq<Record>, RestoreError>>)
      requires Valid() && next < |chain|
      modifies this`cached, this`pending, store
      ensures Valid() && GrownTo(old(store.objects), store.objects)
      ensures store.quiet ==> store.objects == old(store.objects) && r.Some?
      ensures r.Some? && r.value.Ok? ==> Reads(next, r.value.value) && pending.None?
      ensures r.Some? && r.value.Err? ==>
                (r.value.error == StoreFailed && !store.quiet) || (r.value.error == BadObject && !Readable(next))
    {
      hide Known, Placed, IsRead;
      StoredByKnown(cfg, Value(), store.objects);
      if cached.Some? {
        CachedIsRead(cfg, Value(), store.objects);
      }
      WithoutCached(cfg, Value(), store.objects);
      var kept := cached;
      cached := None;
      if kept.Some? && kept.value.0 == next && pending.None? {
        return Some(Ok(kept.value.1));
      }
      if pending.None? {
        pending := Some(next);
      }
      ghost var begun, objects := Value(), store.objects;
      var dropped := store.Fails();
      if dropped {
        store.Grow();
        KnownGrown(cfg, begun, objects, store.objects);
        return None;
      }
      var read := ReadAt(pending.value);
      KnownGrown(cfg, begun, objects, store.objects);
      WithoutCached(cfg, begun, store.objects);
      pending := None;
      return Some(read);
    }

    /** Read the next object into the empty buffer. In place, a hole at or after the position
        is an error before any record of the object is yielded, also one before the hole. */
    method Fill() returns (r: Filling)
      requires Valid() && next < |chain| && buffer == []
      modifies this, store
      ensures Valid() && GrownTo(old(store.objects), store.objects)
      ensures store.quiet ==> store.objects == old(store.objects) && !r.Dropped?
      ensures position == old(position) && chain == old(chain) && idle == old(idle)
      ensures r.Filled? ==> buffer != []
      ensures r.Refused? ==>
                || (r.e == StoreFailed && !store.quiet)
                || (r.e == BadObject && !Readable(old(next)))
                || r.e == BadMode
      ensures cfg.mode.Preserve? && r.Filled?
              ==> forall p :: position <= p <= chain[old(next)].to ==> HasRecord(old(next), p)
      ensures r == Refused(BadMode) ==>
                cfg.mode.Preserve? && exists p :: position <= p <= chain[old(next)].to && !HasRecord(old(next), p)
    {
      hide IsRead, Known, Placed, HasRecord;
      var read := NextRecords();
      if read.None? {
        return Dropped;
      }
      if read.value.Err? {
        return Refused(read.value.error);
      }
      var filled := Place(read.value.value);
      return if filled then Filled else Refused(BadMode);
    }

    /** Put the records of the next object into the buffer. */
    method Place(records: seq<Record>) returns (filled: bool)
      requires Valid() && buffer == [] && pending.None? && Reads(next, records)
      modifies this
      ensures Valid() && position == old(position) && chain == old(chain) && idle == old(idle)
      ensures filled ==> buffer != []
      ensures cfg.mode.Preserve? && filled
              ==> forall p :: position <= p <= chain[old(next)].to ==> HasRecord(old(next), p)
      ensures !filled ==>
                cfg.mode.Preserve? && exists p :: position <= p <= chain[old(next)].to && !HasRecord(old(next), p)
    {
      hide IsRead, Known, Placed, IsAt, HasOffset;
      var i := next;
      if |counts| == i {
        CountedMore(cfg, Value(), store.objects, records);
        counts := counts + [|records|];
      }
      ReadObjectBounds(chain[i], cfg.source, records);
      ghost var c := Value();
      if cfg.mode.Preserve? {
        PositionInNext(cfg, c, store.objects);
        var taken, hole := TakeInPlace(records, position);
        FilledFits(cfg, c, store.objects, taken, hole, records);
        buffer := taken;
        if hole {
          assert !HasRecord(i, position + |taken|);
          return false;
        }
      } else {
        StoredByKnown(cfg, c, store.objects);
        FilledRenumbered(cfg, c, store.objects, records);
        KnownElsewhere(cfg, c, store.objects, Taken(records, skip, position));
        buffer := Taken(records, skip, position);
        skip := 0;
      }
      next := next + 1;
      return true;
    }

    /** A source that waits has yielded all it has listed: so after a seek, and from poll to poll. */
    ghost predicate Waits()
      reads this
    {
      idle ==> buffer == [] && next == |chain|
    }

    /** The next record, unless the source waits, fails or is dropped. Whatever happened before,
        a record yielded is the backup's at the position, and the position moves only with it. */
    method PollOne() returns (r: Polled)
      requires Valid()
      modifies this, store
      ensures Valid() && GrownTo(old(store.objects), store.objects) && old(chain) <= chain
      ensures r.Yielded? ==>
                && position == old(position) + 1
                && AllStored(chain, store.objects) && IsAt(cfg, chain, store.objects, old(position), r.record)
      ensures !r.Yielded? ==> position == old(position)
      ensures r.Idle? && !old(idle) ==> forall n :: !IsNew(chain, store.objects, n)
      ensures old(IsWhole()) ==>
                && IsWhole() && store.objects == old(store.objects)
                && (r.Yielded? || (r.Idle? && chain == TheWhole(cfg, store.objects)))
      ensures old(Waits()) ==> Waits()
      ensures old(Waits()) && r.Idle? ==>
                && buffer == [] && next == |chain| && AllStored(chain, store.objects)
                && forall x :: !IsAt(cfg, chain, store.objects, position, x)
    {
      hide IsRead, Known, Placed, IsAt, Flat, Whole, HasWhole, IsNew;
      while true
        invariant Valid() && GrownTo(old(store.objects), store.objects) && old(chain) <= chain
        invariant position == old(position)
        invariant old(IsWhole()) ==> IsWhole() && store.objects == old(store.objects)
        invariant idle && !old(idle) ==> forall n :: !IsNew(chain, store.objects, n)
        invariant old(Waits()) ==> Waits()
        decreases if idle || buffer != [] then 0 else if next < |chain| then 1 else 2
      {
        if idle {
          var dropped := store.Fails();
          if dropped {
            return Cancelled;
          }
          WhetherIdle(cfg, Value(), store.objects);
          if Waits() {
            NothingLeft(cfg, Value(), store.objects);
          }
          idle := false;
          return Idle;
        }
        if buffer != [] {
          var first := buffer[0];
          StoredByKnown(cfg, Value(), store.objects);
          Popped(cfg, Value(), store.objects);
          buffer, position := buffer[1..], position + 1;
          return Yielded(first);
        }
        var ended := More();
        if ended.Some? {
          return ended.value;
        }
      }
    }

    /** Fill the buffer, or list: the poll ends here if that fails or is dropped. */
    method More() returns (ended: Option<Polled>)
      requires Valid() && buffer == [] && !idle
      modifies this, store
      ensures Valid() && GrownTo(old(store.objects), store.objects) && old(chain) <= chain
      ensures position == old(position) && (old(Waits()) ==> Waits())
      ensures ended.Some? ==> !idle && (ended.value.Cancelled? || ended.value.Failed?)
      ensures ended.None? ==> buffer != [] || idle || (old(next) == |old(chain)| && next < |chain|)
      ensures idle ==> forall n :: !IsNew(chain, store.objects, n)
      ensures old(IsWhole()) ==> IsWhole() && store.objects == old(store.objects) && ended.None?
    {
      hide IsRead, Known, Placed, IsAt, Flat, Whole, HasWhole, HasOffset, IsNew, Plan;
      if next < |chain| {
        if cfg.mode.Preserve? {
          PositionInNext(cfg, Value(), store.objects);
        }
        if IsWhole() {
          WholeReads(cfg, chain, TheWhole(cfg, store.objects), store.objects, next);
        }
        var filling := Fill();
        return if filling.Dropped? then Some(Cancelled)
               else if filling.Refused? then Some(Failed(filling.e)) else None;
      }
      var dropped := store.Fails();
      if dropped {
        return Some(Cancelled);
      }
      NextStaysInside(cfg, Value(), store.objects);
      var listed := ListNew();
      if listed.Err? {
        return Some(Failed(listed.error));
      }
      if !listed.value {
        WhetherIdle(cfg, Value(), store.objects);
        idle := true;
      }
      return None;
    }

    /** The object whose range has position `p`. */
    method HolderOf(p: nat) returns (i: nat)
      ensures i <= |chain| && forall k :: 0 <= k < i ==> !(chain[k].from <= p <= chain[k].to)
      ensures i < |chain| ==> chain[i].from <= p <= chain[i].to
    {
      i := 0;
      while i < |chain| && !(chain[i].from <= p <= chain[i].to)
        invariant i <= |chain| && forall k :: 0 <= k < i ==> !(chain[k].from <= p <= chain[k].to)
      {
        i := i + 1;
      }
    }

    /** What the target holds at `p` if it is this backup; `None` past the end. */
    method RecordAt(p: nat) returns (r: Result<Option<Record>, RestoreError>)
      requires Valid()
      modifies this`cached, this`counts, store
      ensures Valid() && GrownTo(old(store.objects), store.objects) && AllStored(chain, store.objects)
      ensures r.Ok? && r.value.Some? ==> IsAt(cfg, chain, store.objects, p, r.value.value)
      ensures r == Ok(None) ==> forall x :: !IsAt(cfg, chain, store.objects, p, x)
      ensures store.quiet ==> store.objects == old(store.objects)
      ensures r.Err? ==> (r.error == StoreFailed && !store.quiet) || (r.error == BadObject && !AllReadable())
    {
      hide IsRead, Known, Placed, Flat;
      StoredByKnown(cfg, Value(), store.objects);
      if cfg.mode.Preserve? {
        r := RecordInPlace(p);
        return;
      }
      var first, i := 0, 0;
      NothingRead(store.objects);
      assert chain[..0] == [];
      while i < |chain|
        invariant Valid() && GrownTo(old(store.objects), store.objects)
        invariant store.quiet ==> store.objects == old(store.objects)
        invariant i <= |chain| && AllStored(chain, store.objects) && AllStored(chain[..i], store.objects)
        invariant first == |Flat(chain[..i], store.objects)| <= p
      {
        ghost var objects := store.objects;
        var n := Count(i);
        FlatStays(chain, objects, store.objects);
        FlatStays(chain[..i], objects, store.objects);
        if n.Err? {
          return Err(n.error);
        }
        if p < first + n.value {
          objects := store.objects;
          var records := RecordsOfObject(i);
          FlatStays(chain, objects, store.objects);
          FlatStays(chain[..i], objects, store.objects);
          if records.Err? {
            return Err(records.error);
          }
          ReadNext(chain, i, store.objects);
          var found := records.value[p - first].(offset := p);
          assert Gives(cfg, chain, store.objects, i, p - first, p, found);
          return Ok(Some(found));
        }
        ReadNext(chain, i, store.objects);
        first, i := first + n.value, i + 1;
      }
      assert chain[..|chain|] == chain;
      NonePastTheEnd(cfg, chain, store.objects, p);
      return Ok(None);
    }

    method RecordInPlace(p: nat) returns (r: Result<Option<Record>, RestoreError>)
      requires Valid() && cfg.mode.Preserve?
      modifies this`cached, this`counts, store
      ensures Valid() && GrownTo(old(store.objects), store.objects) && AllStored(chain, store.objects)
      ensures r.Ok? && r.value.Some? ==> IsAt(cfg, chain, store.objects, p, r.value.value)
      ensures r == Ok(None) ==> forall x :: !IsAt(cfg, chain, store.objects, p, x)
      ensures store.quiet ==> store.objects == old(store.objects)
      ensures r.Err? ==> (r.error == StoreFailed && !store.quiet) || (r.error == BadObject && !AllReadable())
    {
      hide IsRead, Known, Placed, Flat;
      StoredByKnown(cfg, Value(), store.objects);
      var i := HolderOf(p);
      if i == |chain| {
        NoneInPlace(cfg, chain, store.objects, p, i);
        return Ok(None);
      }
      var records := RecordsOfObject(i);
      StoredByKnown(cfg, Value(), store.objects);
      if records.Err? {
        return Err(records.error);
      }
      ReadNext(chain, i, store.objects);
      for k := 0 to |records.value|
        invariant forall j :: 0 <= j < k ==> records.value[j].offset != p
      {
        var x := records.value[k];
        if x.offset == p {
          assert Gives(cfg, chain, store.objects, i, k, p, x);
          return Ok(Some(x));
        }
      }
      ListedIsContiguous(cfg, Value(), store.objects);
      OnlyHolder(chain, cfg.start, i, p);
      NoneInPlace(cfg, chain, store.objects, p, i);
      return Ok(None);
    }

    /** A target may be resumed only if it ends with this backup's record there. */
    method CheckResume(high: nat, last: Record) returns (error: Option<RestoreError>)
      requires Valid()
      modifies this`cached, this`counts, store
      ensures Valid() && GrownTo(old(store.objects), store.objects) && AllStored(chain, store.objects)
      ensures error.None? && high > 0
              ==> exists ours :: IsAt(cfg, chain, store.objects, high - 1, ours) && SameRecord(ours, last)
      ensures error.Some? ==> high > 0
      ensures error == Some(TargetFailed)
              ==> forall ours :: IsAt(cfg, chain, store.objects, high - 1, ours) ==> !SameRecord(ours, last)
      ensures store.quiet ==> store.objects == old(store.objects)
      ensures error.Some? ==>
                || error.value == TargetFailed
                || (error.value == StoreFailed && !store.quiet)
                || (error.value == BadObject && !AllReadable())
    {
      hide Known, Placed, Flat, IsAt;
      StoredByKnown(cfg, Value(), store.objects);
      if high == 0 {
        return None;
      }
      var ours := RecordAt(high - 1);
      if ours.Err? {
        return Some(ours.error);
      }
      if ours.value.None? {
        return Some(TargetFailed);
      }
      if !SameRecord(ours.value.value, last) {
        ListedIsContiguous(cfg, Value(), store.objects);
        NoOther(cfg, chain, store.objects, high - 1, ours.value.value);
        return Some(TargetFailed);
      }
      return None;
    }

    /** The position after the listed chain: with renumber an upper bound. */
    function PositionsEnd(): nat
      reads this
    {
      if chain == [] || chain[|chain| - 1].to + 1 < cfg.start then 0 else chain[|chain| - 1].to + 1 - cfg.start
    }

    /** Go to a position of the target. Past the backup's end is an error; with renumber the end
        is counted exactly. */
    method Seek(p: nat) returns (r: Sought)
      requires IsKnown() && (cfg.mode.Preserve? ==> cfg.start == 0)
      modifies this, store
      ensures IsKnown() && GrownTo(old(store.objects), store.objects) && old(chain) <= chain
      ensures old(IsWhole()) ==>
                && IsWhole() && chain == TheWhole(cfg, store.objects) && store.objects == old(store.objects)
                && !r.Unsought?
      ensures r.Found? ==> Valid() && Waits() && position == p && AllStored(chain, store.objects)
      ensures r.Found? && cfg.mode.Renumber? ==> p <= |Flat(chain, store.objects)|
      ensures r.PastEnd? && cfg.mode.Renumber?
              ==> AllStored(chain, store.objects) && p > |Flat(chain, store.objects)| == r.end
      ensures cfg.mode.Preserve? && !r.Unsought? ==> r == if p <= End(chain, 0) then Found else PastEnd(End(chain, 0))
    {
      hide IsRead, Known, Placed, IsAt, Flat, Whole, HasWhole, IsNew, Plan, IsNamed, Contiguous;
      var listed := ListNew();
      if listed.Err? {
        return Unsought(listed.error);
      }
      StoredByKnown(cfg, Value(), store.objects);
      if cfg.mode.Preserve? && p > PositionsEnd() {
        return PastEnd(PositionsEnd());
      }
      WhereverKnown(cfg, Value(), store.objects, p);
      pending, buffer, skip, idle, position := None, [], 0, false, p;
      if cfg.mode.Preserve? {
        SeekInPlace(p);
        return Found;
      }
      r := SeekCounting(p);
      if IsWhole() {
        AllAreReadable();
      }
    }

    method SeekInPlace(p: nat)
      requires IsKnown() && cfg.mode.Preserve? && cfg.start == 0 && p <= End(chain, 0)
      requires position == p && buffer == [] && pending == None && !idle
      modifies this`next
      ensures Valid() && Waits()
    {
      hide IsRead, Known, Placed, IsAt, Flat;
      var i := FirstReaching(p);
      SoughtInPlace(cfg, Value(), store.objects, i);
      next := i;
    }

    method FirstReaching(p: nat) returns (i: nat)
      ensures i <= |chain| && (forall k :: 0 <= k < i ==> chain[k].to < p)
      ensures i < |chain| ==> p <= chain[i].to
    {
      i := 0;
      while i < |chain| && chain[i].to < p
        invariant i <= |chain| && forall k :: 0 <= k < i ==> chain[k].to < p
      {
        i := i + 1;
      }
    }

    /** Count objects up to the one that holds position `p`. */
    method SeekCounting(p: nat) returns (r: Sought)
      requires IsKnown() && cfg.mode.Renumber? && position == p && buffer == [] && pending == None && skip == 0 && !idle
      modifies this, store
      ensures IsKnown() && GrownTo(old(store.objects), store.objects) && old(chain) == chain
      ensures store.quiet ==> store.objects == old(store.objects)
      ensures r.Unsought? ==> (r.e == StoreFailed && !store.quiet) || (r.e == BadObject && !AllReadable())
      ensures r.Found? ==>
                && Valid() && Waits() && position == p && AllStored(chain, store.objects)
                && p <= |Flat(chain, store.objects)|
      ensures r.PastEnd? ==> AllStored(chain, store.objects) && p > |Flat(chain, store.objects)| == r.end
    {
      hide IsRead, Known, Placed, IsAt, Flat;
      var first, i := 0, 0;
      StoredByKnown(cfg, Value(), store.objects);
      NothingRead(store.objects);
      assert chain[..0] == [];
      while i < |chain|
        invariant IsKnown() && GrownTo(old(store.objects), store.objects) && chain == old(chain)
        invariant store.quiet ==> store.objects == old(store.objects)
        invariant position == p && buffer == [] && pending == None && skip == 0 && !idle
        invariant i <= |chain| && AllStored(chain, store.objects) && AllStored(chain[..i], store.objects)
        invariant first == |Flat(chain[..i], store.objects)| <= p
      {
        ghost var objects := store.objects;
        var n := Count(i);
        FlatStays(chain, objects, store.objects);
        FlatStays(chain[..i], objects, store.objects);
        if n.Err? {
          return Unsought(n.error);
        }
        ReadNext(chain, i, store.objects);
        if p < first + n.value {
          SoughtRenumbered(cfg, Value(), store.objects, i, p - first);
          next, skip := i, p - first;
          return Found;
        }
        first, i := first + n.value, i + 1;
      }
      assert chain[..|chain|] == chain;
      if p > first {
        return PastEnd(first);
      }
      SoughtRenumbered(cfg, Value(), store.objects, i, 0);
      next := i;
      return Found;
    }

    ghost predicate HasRecord(i: nat, p: nat)
      reads this, store
    {
      i < |chain| && chain[i].name in store.objects && HasOffset(store.objects[chain[i].name].records, p)
    }
  }

  /** The same message, as far as the target keeps it. */
  predicate SameRecord(ours: Record, theirs: Record) {
    && ours.key == theirs.key && ours.value == theirs.value && ours.headers == theirs.headers
    && (ours.timestamp.Some? && theirs.timestampType == CreateTime ==> ours.timestamp == theirs.timestamp)
  }

  /** A record as a target keeps it: at its own place, with the timestamp it was produced with, or
      with `clock` on a target that stamps records itself, or if it has none. */
  function KeptAs(r: Record, place: Record, stamps: TimestampType, clock: Option<int>): Record {
    Record(place.topic, place.partition, place.offset,
           if stamps == CreateTime && r.timestamp.Some? then r.timestamp else clock, stamps,
           r.key, r.value, r.headers)
  }

  /** Two records are the same exactly if the one is what some target makes of the other. */
  lemma {:induction false} SameIsKept(ours: Record, theirs: Record)
    ensures SameRecord(ours, theirs)
            <==> exists clock :: theirs == KeptAs(ours, theirs, theirs.timestampType, clock)
  {
    if SameRecord(ours, theirs) {
      assert theirs == KeptAs(ours, theirs, theirs.timestampType, theirs.timestamp);
    }
  }

  lemma {:induction false} ListedIsContiguous(cfg: Config, c: Cursor, b: Backup)
    requires Known(cfg, c, b)
    ensures Contiguous(c.chain, cfg.start)
  {
  }

  /** No record is at a position no object has, save `i`, which has no record there. */
  lemma {:induction false} NoneInPlace(cfg: Config, chain: seq<ChainObject>, b: Backup, p: nat, i: nat)
    requires AllStored(chain, b) && cfg.mode.Preserve?
    requires forall k :: 0 <= k < |chain| && k != i ==> !(chain[k].from <= p <= chain[k].to)
    requires i < |chain| ==> forall m :: 0 <= m < |b[chain[i].name].records| ==> b[chain[i].name].records[m].offset != p
    ensures forall x :: !IsAt(cfg, chain, b, p, x)
  {
    hide IsRead;
    forall x, k, m | Gives(cfg, chain, b, k, m, p, x)
      ensures false
    {
      GivesInRange(cfg, chain, b, k, m, p, x);
    }
  }

  /** Nor at one past the records there are. */
  lemma {:induction false} NonePastTheEnd(cfg: Config, chain: seq<ChainObject>, b: Backup, p: nat)
    requires AllStored(chain, b) && cfg.mode.Renumber? && p >= |Flat(chain, b)|
    ensures forall x :: !IsAt(cfg, chain, b, p, x)
  {
    hide IsRead, Flat;
    forall x, k, m | Gives(cfg, chain, b, k, m, p, x)
      ensures false
    {
      GivesFromFlat(cfg, chain, b, k, m, p, x);
    }
  }

  datatype Sought = Found | PastEnd(end: nat) | Unsought(e: RestoreError)

  datatype Filling = Filled | Dropped | Refused(e: RestoreError)

  lemma {:induction false} Popped(cfg: Config, c: Cursor, b: Backup)
    requires Fits(cfg, c, b) && c.buffer != []
    ensures AllStored(c.chain, b) && IsAt(cfg, c.chain, b, c.position, c.buffer[0])
    ensures Fits(cfg, c.(buffer := c.buffer[1..], position := c.position + 1), b)
  {
    hide IsRead, Listed, IsAt, Flat;
    StoredByKnown(cfg, c, b);
    assert IsAt(cfg, c.chain, b, c.position + 0, c.buffer[0]);
    forall m | 0 <= m < |c.buffer| - 1
      ensures IsAt(cfg, c.chain, b, c.position + 1 + m, c.buffer[1..][m])
    {
      assert IsAt(cfg, c.chain, b, c.position + (m + 1), c.buffer[m + 1]);
    }
  }

  lemma {:induction false} WhetherIdle(cfg: Config, c: Cursor, b: Backup)
    requires Fits(cfg, c, b)
    ensures Fits(cfg, c.(idle := false), b) && Fits(cfg, c.(idle := true), b)
  {
    hide IsRead, Listed, IsAt, Flat;
  }

  lemma {:induction false} NothingLeft(cfg: Config, c: Cursor, b: Backup)
    requires Fits(cfg, c, b) && c.buffer == [] && c.next == |c.chain|
    ensures AllStored(c.chain, b) && forall x :: !IsAt(cfg, c.chain, b, c.position, x)
  {
    hide IsRead, Flat, ParseObject, IsAt, Contiguous, Counted;
    StoredByKnown(cfg, c, b);
    assert c.chain[..c.next] == c.chain;
    if cfg.mode.Renumber? {
      NonePastTheEnd(cfg, c.chain, b, c.position);
    } else {
      ContiguousIsStrictlyOrdered(c.chain, 0);
      NoneInPlace(cfg, c.chain, b, c.position, |c.chain|);
    }
  }

  lemma {:induction false} NextStaysInside(cfg: Config, c: Cursor, b: Backup)
    requires Fits(cfg, c, b)
    ensures c.next <= |c.chain|
  {
  }

  /** What is known of the backup does not depend on where the source is. */
  lemma {:induction false} WhereverKnown(cfg: Config, c: Cursor, b: Backup, p: nat)
    requires Known(cfg, c, b)
    ensures Known(cfg, c.(pending := None, buffer := [], skip := 0, idle := false, position := p), b)
  {
    hide IsRead, Listed;
  }

  lemma {:induction false} SoughtInPlace(cfg: Config, c: Cursor, b: Backup, i: nat)
    requires Known(cfg, c, b) && cfg.mode.Preserve? && cfg.start == 0
    requires c.buffer == [] && c.pending == None && c.position <= End(c.chain, 0)
    requires i <= |c.chain| && (forall k :: 0 <= k < i ==> c.chain[k].to < c.position)
    requires i < |c.chain| ==> c.position <= c.chain[i].to
    ensures Fits(cfg, c.(next := i), b)
  {
    hide IsRead, ParseObject, IsAt, Flat;
    if i < |c.chain| {
      assert AllStored(c.chain[..i], b);
      if i > 0 {
        ContiguousPrefix(c.chain, 0, i);
      }
    } else {
      assert c.chain[..i] == c.chain;
    }
  }

  lemma {:induction false} SoughtRenumbered(cfg: Config, c: Cursor, b: Backup, i: nat, skip: nat)
    requires Known(cfg, c, b) && cfg.mode.Renumber? && i <= |c.chain|
    requires c.buffer == [] && c.pending == None && AllStored(c.chain[..i], b)
    requires c.position == |Flat(c.chain[..i], b)| + skip
    requires AllStored(c.chain, b) && (skip > 0 ==> i < |c.chain| && skip < |b[c.chain[i].name].records|)
    ensures Fits(cfg, c.(next := i, skip := skip), b)
  {
    hide IsRead, ParseObject, IsAt, Flat, Listed;
  }

  lemma {:induction false} StoredByKnown(cfg: Config, c: Cursor, b: Backup)
    requires Known(cfg, c, b)
    ensures AllStored(c.chain, b)
  {
  }

  lemma {:induction false} CachedIsRead(cfg: Config, c: Cursor, b: Backup)
    requires Known(cfg, c, b) && c.cached.Some?
    ensures c.cached.value.0 < |c.chain|
    ensures var o := c.chain[c.cached.value.0];
            o.name in b && c.cached.value.1 == b[o.name].records && IsRead(o, cfg.source, c.cached.value.1)
  {
    hide IsRead;
  }

  /** Dropping the kept read, or a finished one, changes nothing else. */
  lemma {:induction false} WithoutCached(cfg: Config, c: Cursor, b: Backup)
    requires Fits(cfg, c, b) && c.next < |c.chain|
    ensures c.pending.Some? ==> c.pending.value == c.next
    ensures forall p :: p == None || p == Some(c.next) ==> Fits(cfg, c.(cached := None, pending := p), b)
  {
    hide IsRead, Listed, IsAt;
  }

  lemma {:induction false} CountedMore(cfg: Config, c: Cursor, b: Backup, records: seq<Record>)
    requires Fits(cfg, c, b) && |c.counts| == c.next < |c.chain| && c.chain[c.next].name in b
    requires records == b[c.chain[c.next].name].records && IsRead(c.chain[c.next], cfg.source, records)
    ensures Fits(cfg, c.(counts := c.counts + [|records|]), b)
  {
    hide IsRead, Listed, IsAt;
  }

  lemma {:induction false} ReadObjectBounds(o: ChainObject, source: Source, records: seq<Record>)
    requires IsRead(o, source, records)
    ensures records != [] && Increasing(records) && records[|records| - 1].offset == o.to
  {
  }

  lemma {:induction false} PositionInNext(cfg: Config, c: Cursor, b: Backup)
    requires Fits(cfg, c, b) && cfg.mode.Preserve? && c.next < |c.chain| && c.buffer == []
    ensures c.chain[c.next].from <= c.position <= c.chain[c.next].to
  {
    hide IsRead, Listed, IsAt;
  }

  lemma {:induction false} FilledFits(
      cfg: Config, c: Cursor, b: Backup, buffer: seq<Record>, hole: bool, records: seq<Record>)
    requires Fits(cfg, c, b) && cfg.mode.Preserve? && c.next < |c.chain| && c.buffer == [] && c.pending.None?
    requires c.chain[c.next].name in b && records == b[c.chain[c.next].name].records
    requires IsRead(c.chain[c.next], cfg.source, records)
    requires forall m :: 0 <= m < |buffer| ==> buffer[m] in records && buffer[m].offset == c.position + m
    requires if hole then c.position + |buffer| <= c.chain[c.next].to
             else c.position + |buffer| == c.chain[c.next].to + 1
    ensures Fits(cfg, c.(buffer := buffer, next := if hole then c.next else c.next + 1), b)
  {
    hide IsRead, IsAt;
    FilledInPlace(cfg, c, b, buffer, hole);
    assert c.(pending := None) == c;
  }

  lemma {:induction false} KnownElsewhere(cfg: Config, c: Cursor, b: Backup, buffer: seq<Record>)
    requires Known(cfg, c, b)
    ensures Known(cfg, c.(buffer := buffer, next := c.next + 1, skip := 0, pending := None), b)
  {
    hide IsRead, Listed;
  }

  /** Counts and the cached read do not move the source. */
  lemma {:induction false} SameElsewhere(cfg: Config, c: Cursor, c': Cursor, b: Backup)
    requires Listed(cfg, c.chain, b) && Placed(cfg, c, b)
    requires c' == c.(counts := c'.counts, cached := c'.cached)
    ensures Placed(cfg, c', b)
  {
    hide Listed;
  }

  lemma {:induction false} ListedMore(cfg: Config, c: Cursor, b: Backup, names: seq<string>, more: seq<ChainObject>)
    requires Known(cfg, c, b) && forall n :: n in names ==> n in b
    requires Contiguous(more, End(c.chain, cfg.start))
    requires forall o :: o in more ==> o.name in names && ParseObject(o.name, cfg.ext, false) == Ok(o)
    ensures Listed(cfg, c.chain + more, b)
  {
    hide ParseObject, Counted, Placed;
    ContiguousConcat(c.chain, more, cfg.start);
    assert forall i :: 0 <= i < |more| ==> more[i] in more;
  }

  // ---------- what is yielded ----------

  ghost predicate YieldedFrom(cfg: Config, chain: seq<ChainObject>, b: Backup, p: nat, yielded: seq<Record>)
    requires AllStored(chain, b)
  {
    forall k :: 0 <= k < |yielded| ==> IsAt(cfg, chain, b, p + k, yielded[k])
  }

  lemma {:induction false} YieldedInMore(
      cfg: Config, chain: seq<ChainObject>, now: seq<ChainObject>, b: Backup, b': Backup, p: nat, yielded: seq<Record>)
    requires AllStored(chain, b) && AllStored(now, b') && chain <= now && GrownTo(b, b')
    requires YieldedFrom(cfg, chain, b, p, yielded)
    ensures YieldedFrom(cfg, now, b', p, yielded)
  {
    hide IsAt;
    forall k | 0 <= k < |yielded|
      ensures IsAt(cfg, now, b', p + k, yielded[k])
    {
      IsAtInMore(cfg, chain, now, b, b', p + k, yielded[k]);
    }
  }

  /** In place, the next position's record is the next record of the backup. */
  lemma {:induction false} NextInPlace(
      cfg: Config, chain: seq<ChainObject>, b: Backup, p: nat, i: nat, m: nat, r: Record, j: nat, n: nat, r': Record)
    requires AllStored(chain, b) && Contiguous(chain, cfg.start) && cfg.mode.Preserve?
    requires Gives(cfg, chain, b, i, m, p, r) && Gives(cfg, chain, b, j, n, p + 1, r')
    ensures |Flat(chain[..j], b)| + n == |Flat(chain[..i], b)| + m + 1
  {
    hide Flat, Contiguous;
    GivesInRange(cfg, chain, b, i, m, p, r);
    GivesInRange(cfg, chain, b, j, n, p + 1, r');
    var records, later := b[chain[i].name].records, b[chain[j].name].records;
    if i == j {
      NextOffset(records, m, n);
    } else {
      AdjoiningRanges(chain, cfg.start, i, j, p);
      SameOffset(records, m, |records| - 1);
      NoneBeforeFirst(later, n);
      ReadNext(chain, i, b);
    }
  }

  lemma {:induction false} NextOffset(records: seq<Record>, m: nat, n: nat)
    requires Increasing(records) && m < |records| && n < |records| && records[n].offset == records[m].offset + 1
    ensures n == m + 1
  {
    if m + 1 < |records| {
      assert records[m].offset < records[m + 1].offset;
    }
  }

  lemma {:induction false} NoneBeforeFirst(records: seq<Record>, n: nat)
    requires Increasing(records) && n < |records| && records[n].offset <= records[0].offset
    ensures n == 0
  {
  }

  lemma {:induction false} AdjoiningRanges(chain: seq<ChainObject>, start: nat, i: nat, j: nat, p: nat)
    requires Contiguous(chain, start) && i < |chain| && j < |chain| && i != j
    requires chain[i].from <= p <= chain[i].to && chain[j].from <= p + 1 <= chain[j].to
    ensures j == i + 1 && p == chain[i].to && p + 1 == chain[j].from
  {
    ContiguousIsStrictlyOrdered(chain, start);
    if i + 1 < |chain| {
      ContiguousPrefix(chain, start, i + 1);
    }
  }

  /** In place, what is yielded is a slice of the backup's records, in their order. */
  lemma {:induction false} YieldedInPlace(
      cfg: Config, chain: seq<ChainObject>, b: Backup, p: nat, yielded: seq<Record>, i: nat, m: nat)
    requires AllStored(chain, b) && Contiguous(chain, cfg.start) && cfg.mode.Preserve?
    requires YieldedFrom(cfg, chain, b, p, yielded) && yielded != [] && Gives(cfg, chain, b, i, m, p, yielded[0])
    ensures var f := |Flat(chain[..i], b)| + m;
            f + |yielded| <= |Flat(chain, b)| && yielded == Flat(chain, b)[f..f + |yielded|]
    decreases |yielded|
  {
    hide Flat, Contiguous, Gives;
    GivesFromFlat(cfg, chain, b, i, m, p, yielded[0]);
    var rest := yielded[1..];
    if rest == [] {
      assert yielded == [yielded[0]];
    } else {
      forall k | 0 <= k < |rest|
        ensures IsAt(cfg, chain, b, p + 1 + k, rest[k])
      {
        assert IsAt(cfg, chain, b, p + (k + 1), yielded[k + 1]);
      }
      assert IsAt(cfg, chain, b, p + 1 + 0, rest[0]);
      var j: nat, n: nat :| Gives(cfg, chain, b, j, n, p + 1, rest[0]);
      NextInPlace(cfg, chain, b, p, i, m, yielded[0], j, n, rest[0]);
      YieldedInPlace(cfg, chain, b, p + 1, rest, j, n);
      assert yielded == [yielded[0]] + rest;
    }
  }

  ghost predicate Numbered(all: seq<Record>, q: nat, r: Record) {
    q < |all| && r == all[q].(offset := q)
  }

  lemma {:induction false} IsNumbered(cfg: Config, chain: seq<ChainObject>, b: Backup, p: nat, r: Record)
    requires AllStored(chain, b) && cfg.mode.Renumber? && IsAt(cfg, chain, b, p, r)
    ensures Numbered(Flat(chain, b), p, r)
  {
    hide Flat, IsRead;
    var i: nat, m: nat :| Gives(cfg, chain, b, i, m, p, r);
    GivesFromFlat(cfg, chain, b, i, m, p, r);
  }

  lemma {:induction false} YieldedRenumbered(
      cfg: Config, chain: seq<ChainObject>, b: Backup, p: nat, yielded: seq<Record>)
    requires AllStored(chain, b) && cfg.mode.Renumber? && YieldedFrom(cfg, chain, b, p, yielded)
    requires p <= |Flat(chain, b)|
    ensures var all := Producing.Renumbered(Flat(chain, b));
            p + |yielded| <= |all| && yielded == all[p..p + |yielded|]
  {
    hide Flat, IsAt;
    var all, n := Flat(chain, b), |yielded|;
    forall k | 0 <= k < n
      ensures Numbered(all, p + k, yielded[k])
    {
      IsNumbered(cfg, chain, b, p + k, yielded[k]);
    }
    if n > 0 {
      IsNumbered(cfg, chain, b, p + (n - 1), yielded[n - 1]);
    }
    forall k | 0 <= k < n
      ensures yielded[k] == Producing.Renumbered(all)[p..p + n][k]
    {
      assert Numbered(all, p + k, yielded[k]);
    }
  }

  ghost predicate SliceAt(all: seq<Record>, f: nat, yielded: seq<Record>) {
    f + |yielded| <= |all| && yielded == all[f..f + |yielded|]
  }

  /** The yielded records as they stand in the backup: a slice of its records, renumbered or in place. */
  ghost predicate IsSlice(cfg: Config, all: seq<Record>, p: nat, yielded: seq<Record>) {
    match cfg.mode
    case Renumber => SliceAt(Producing.Renumbered(all), p, yielded)
    case Preserve => exists f :: SliceAt(all, f, yielded)
  }

  lemma {:induction false} YieldedIsSlice(cfg: Config, chain: seq<ChainObject>, b: Backup, p: nat, yielded: seq<Record>)
    requires AllStored(chain, b) && Contiguous(chain, cfg.start) && YieldedFrom(cfg, chain, b, p, yielded)
    requires cfg.mode.Renumber? ==> p <= |Flat(chain, b)|
    ensures IsSlice(cfg, Flat(chain, b), p, yielded)
  {
    hide Flat, Contiguous, Gives;
    var all := Flat(chain, b);
    if cfg.mode.Renumber? {
      YieldedRenumbered(cfg, chain, b, p, yielded);
    } else if yielded == [] {
      assert SliceAt(all, 0, yielded);
    } else {
      assert IsAt(cfg, chain, b, p + 0, yielded[0]);
      var i: nat, m: nat :| Gives(cfg, chain, b, i, m, p, yielded[0]);
      YieldedInPlace(cfg, chain, b, p, yielded, i, m);
      GivesFromFlat(cfg, chain, b, i, m, p, yielded[0]);
      assert SliceAt(all, |Flat(chain[..i], b)| + m, yielded);
    }
  }

  // ---------- a whole backup is drained ----------

  function Lesser(a: nat, b: nat): nat {
    if a < b then a else b
  }

  lemma {:induction false} WholeIsDense(cfg: Config, all: seq<ChainObject>, b: Backup)
    requires Whole(cfg, all, b) && cfg.mode.Preserve? && cfg.start == 0
    ensures AllStored(all, b) && Dense(Flat(all, b), 0) && |Flat(all, b)| == End(all, 0)
  {
    hide IsRead, Flat, Dense, Contiguous, MissingIn, AllWritten, HasOffset;
    forall i | 0 <= i < |all|
      ensures all[i].name in b && Dense(b[all[i].name].records, all[i].from)
    {
      WholeReads(cfg, all, all, b, i);
      AllThereIsDense(all[i], cfg.source, b[all[i].name].records);
    }
    FlatOffsets(all, 0, cfg.source, b);
  }

  lemma {:induction false} AllThereIsDense(o: ChainObject, source: Source, records: seq<Record>)
    requires IsRead(o, source, records) && forall p :: o.from <= p <= o.to ==> HasOffset(records, p)
    ensures Dense(records, o.from)
  {
    hide IsRead, Dense;
    NoneMissingIsDense(o, source, records);
  }

  /** Its positions are those of its records, one after the other. */
  lemma {:induction false} WholePositions(
      cfg: Config, chain: seq<ChainObject>, all: seq<ChainObject>, b: Backup, p: nat, r: Record)
    requires Whole(cfg, all, b) && (cfg.mode.Preserve? ==> cfg.start == 0)
    requires chain <= all && AllStored(chain, b) && IsAt(cfg, chain, b, p, r)
    ensures AllStored(all, b) && p < |Flat(all, b)|
  {
    hide IsRead, Flat, Contiguous, Whole;
    WholeIsStored(cfg, all, b);
    IsAtInMore(cfg, chain, all, b, b, p, r);
    var i: nat, m: nat :| Gives(cfg, all, b, i, m, p, r);
    GivesFromFlat(cfg, all, b, i, m, p, r);
    if cfg.mode.Preserve? {
      WholeIsDense(cfg, all, b);
    }
  }

  lemma {:induction false} WholeEnds(cfg: Config, c: Cursor, b: Backup)
    requires Fits(cfg, c, b) && Whole(cfg, c.chain, b) && c.buffer == [] && c.next == |c.chain|
    ensures AllStored(c.chain, b) && c.position == |Flat(c.chain, b)|
  {
    hide IsRead, Flat, Contiguous, Whole, ParseObject, Counted, IsAt;
    assert c.chain[..c.next] == c.chain;
    if cfg.mode.Preserve? {
      WholeIsDense(cfg, c.chain, b);
    }
  }

  /** What was yielded since a seek to `p`, and where the source is. */
  ghost predicate IsDraining(source: ChainSource, p: nat, yielded: seq<Record>)
    reads source, source.store
  {
    && source.Valid() && source.Waits() && AllStored(source.chain, source.store.objects)
    && source.position == p + |yielded|
    && (source.cfg.mode.Renumber? ==> p <= |Flat(source.chain, source.store.objects)|)
    && YieldedFrom(source.cfg, source.chain, source.store.objects, p, yielded)
  }

  /** One more poll. */
  method DrainOne(source: ChainSource, ghost p: nat, yielded: seq<Record>) returns (more: seq<Record>)
    requires IsDraining(source, p, yielded)
    modifies source, source.store
    ensures GrownTo(old(source.store.objects), source.store.objects) && IsDraining(source, p, more)
    ensures old(source.chain) <= source.chain
    ensures old(source.IsWhole()) ==>
              && source.IsWhole() && source.store.objects == old(source.store.objects)
              && AllStored(TheWhole(source.cfg, source.store.objects), source.store.objects)
              && source.position == Lesser(
                   old(source.position) + 1,
                   |Flat(TheWhole(source.cfg, source.store.objects), source.store.objects)|)
  {
    hide Known, Placed, IsAt, Flat, Contiguous, Whole, HasWhole;
    ghost var objects, chain, whole := source.store.objects, source.chain, source.IsWhole();
    var polled := source.PollOne();
    if whole {
      ghost var all := TheWhole(source.cfg, source.store.objects);
      WholeIsStored(source.cfg, all, source.store.objects);
      InPlaceFromStart(source.cfg, source.Value(), source.store.objects);
      if polled.Yielded? {
        WholePositions(source.cfg, source.chain, all, source.store.objects, p + |yielded|, polled.record);
      } else if polled.Idle? {
        WholeEnds(source.cfg, source.Value(), source.store.objects);
      }
    }
    StoredByKnown(source.cfg, source.Value(), source.store.objects);
    YieldedInMore(source.cfg, chain, source.chain, objects, source.store.objects, p, yielded);
    FlatStays(chain, objects, source.store.objects);
    assert source.chain == chain + source.chain[|chain|..];
    FlatPrefixOf(chain, source.chain[|chain|..], source.store.objects);
    more := if polled.Yielded? then yielded + [polled.record] else yielded;
  }

  lemma {:induction false} InPlaceFromStart(cfg: Config, c: Cursor, b: Backup)
    requires Fits(cfg, c, b)
    ensures cfg.mode.Preserve? ==> cfg.start == 0
  {
  }

  /** After a seek to `p`, whatever polls are dropped, idle or fail, and whatever is added to the
      backup between them, the records yielded are the backup's from position `p` on: none left
      out, repeated or misnumbered. */
  method Drain(source: ChainSource, p: nat, polls: nat) returns (yielded: seq<Record>, sought: Sought)
    requires source.IsKnown() && (source.cfg.mode.Preserve? ==> source.cfg.start == 0)
    modifies source, source.store
    ensures GrownTo(old(source.store.objects), source.store.objects) && AllStored(source.chain, source.store.objects)
    ensures !sought.Found? ==> yielded == []
    ensures YieldedFrom(source.cfg, source.chain, source.store.objects, p, yielded)
    ensures sought.Found? ==> IsSlice(source.cfg, Flat(source.chain, source.store.objects), p, yielded)
    ensures old(source.IsWhole()) ==>
              && source.IsWhole() && source.store.objects == old(source.store.objects)
              && source.chain == TheWhole(source.cfg, source.store.objects)
              && var n := |Flat(source.chain, source.store.objects)|;
              && (sought.Found? <==> p <= n)
              && (p <= n ==> p + |yielded| == Lesser(p + polls, n))
  {
    hide Known, Placed, IsAt, Flat, IsSlice, Contiguous, Whole, HasWhole;
    yielded := [];
    sought := source.Seek(p);
    StoredByKnown(source.cfg, source.Value(), source.store.objects);
    ListedIsContiguous(source.cfg, source.Value(), source.store.objects);
    if source.IsWhole() && source.cfg.mode.Preserve? && source.chain == TheWhole(source.cfg, source.store.objects) {
      WholeIsDense(source.cfg, source.chain, source.store.objects);
    }
    if !sought.Found? {
      return;
    }
    assert YieldedFrom(source.cfg, source.chain, source.store.objects, p, []);
    for i := 0 to polls
      invariant GrownTo(old(source.store.objects), source.store.objects)
      invariant IsDraining(source, p, yielded)
      invariant old(source.IsWhole()) ==>
                  && source.IsWhole() && source.store.objects == old(source.store.objects)
                  && source.chain == TheWhole(source.cfg, source.store.objects)
                  && source.position == Lesser(p + i, |Flat(source.chain, source.store.objects)|)
    {
      yielded := DrainOne(source, p, yielded);
    }
    ListedIsContiguous(source.cfg, source.Value(), source.store.objects);
    YieldedIsSlice(source.cfg, source.chain, source.store.objects, p, yielded);
  }

  /** What is looked up at a position is what a seek there yields first. */
  method LookUpThenPoll(source: ChainSource, p: nat)
    returns (found: Result<Option<Record>, RestoreError>, sought: Sought, polled: Polled)
    requires source.Valid() && (source.cfg.mode.Preserve? ==> source.cfg.start == 0)
    modifies source, source.store
    ensures polled.Yielded? ==> sought.Found?
    ensures polled.Yielded? && found.Ok? && found.value.Some? ==> polled.record == found.value.value
  {
    hide Known, Placed, IsAt, Flat, Contiguous;
    found := source.RecordAt(p);
    ghost var objects, chain := source.store.objects, source.chain;
    sought := source.Seek(p);
    if !sought.Found? {
      return found, sought, Cancelled;
    }
    polled := source.PollOne();
    if polled.Yielded? && found.Ok? && found.value.Some? {
      IsAtInMore(source.cfg, chain, source.chain, objects, source.store.objects, p, found.value.value);
      ListedIsContiguous(source.cfg, source.Value(), source.store.objects);
      IsAtIsUnique(source.cfg, source.chain, source.store.objects, p, found.value.value, polled.record);
    }
  }

  lemma {:induction false} YieldedIsThere(
      cfg: Config, chain: seq<ChainObject>, b: Backup, p: nat, yielded: seq<Record>, k: nat)
    requires AllStored(chain, b) && cfg.mode.Preserve? && YieldedFrom(cfg, chain, b, p, yielded) && k < |yielded|
    ensures HasOffset(Flat(chain, b), p + k)
  {
    hide Flat;
    assert IsAt(cfg, chain, b, p + k, yielded[k]);
    var i: nat, m: nat :| Gives(cfg, chain, b, i, m, p + k, yielded[k]);
    GivesFromFlat(cfg, chain, b, i, m, p + k, yielded[k]);
  }

  /** In place, a hole at or after the position is where the stream ends. */
  lemma {:induction false} NothingPastAHole(
      cfg: Config, chain: seq<ChainObject>, b: Backup, p: nat, yielded: seq<Record>, hole: nat)
    requires AllStored(chain, b) && cfg.mode.Preserve? && YieldedFrom(cfg, chain, b, p, yielded)
    requires p <= hole && !HasOffset(Flat(chain, b), hole)
    ensures p + |yielded| <= hole
  {
    if p + |yielded| > hole {
      YieldedIsThere(cfg, chain, b, p, yielded, hole - p);
    }
  }
}
