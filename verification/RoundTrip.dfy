/** From any run of the mirror to the restore of what it backed up. */
module RoundTrips {
  import opened Records
  import opened Naming
  import opened Chain
  import opened BlobSinks
  import opened Sinks
  import opened Tees
  import opened Mirrors
  import opened Readers
  import opened Producing

  /** The keyring has every key the listed objects name. */
  ghost predicate HoldsKeys(names: seq<string>, ext: string, keyring: Option<set<string>>) {
    forall n, o :: n in names && ParseObject(n, ext, false) == Ok(o) ==> KeyHeld(o, keyring)
  }

  /** A destination of the mirror after a run. */
  ghost function AfterRun(log: seq<Record>, sinks: seq<Sink>, labels: seq<Label>, i: nat): Sink
    requires HonestRun(log, Down(sinks), labels) && i < |SinksNow(RunOf(log, Down(sinks), labels))|
  {
    SinksNow(RunOf(log, Down(sinks), labels))[i]
  }

  /** Destinations nothing was written to, and an honest run of the mirror over them. */
  ghost predicate IsRun(log: seq<Record>, sinks: seq<Sink>, labels: seq<Label>) {
    sinks != [] && (forall k :: 0 <= k < |sinks| ==> Fresh(sinks[k])) && HonestRun(log, Down(sinks), labels)
  }

  lemma {:induction false} RunLeavesSound(log: seq<Record>, sinks: seq<Sink>, labels: seq<Label>, i: nat)
    requires Ascending(log) && IsRun(log, sinks, labels) && i < |SinksNow(RunOf(log, Down(sinks), labels))|
    ensures Sound(log, AfterRun(log, sinks, labels, i))
  {
    hide Fresh, HonestRun, RunOf, Sound;
    forall k | 0 <= k < |sinks|
      ensures Sound(log, sinks[k])
    {
      FreshIsSound(log, sinks[k]);
    }
    RunKeeps(log, Down(sinks), labels);
    var w := RunOf(log, Down(sinks), labels);
    if w.Up? {
      CurrentIsSound(log, w.tee, w.expected);
    }
  }

  lemma {:induction false} KeysOfChain(
      chain: seq<ChainObject>, names: seq<string>, ext: string, keyring: Option<set<string>>)
    requires AllWritten(chain, ext) && IsExtension(ext) && Lists(names, chain) && HoldsKeys(names, ext, keyring)
    ensures forall o :: o in chain ==> KeyHeld(o, keyring)
  {
    hide Written, ParseObject, KeyHeld;
    forall o | o in chain
      ensures KeyHeld(o, keyring)
    {
      var i :| 0 <= i < |chain| && chain[i] == o;
      assert Names(chain)[i] == o.name;
      assert o.name in multiset(Names(chain));
      assert o.name in names;
      WrittenParses(o, ext, false);
    }
  }

  lemma {:induction false} EmptyChain(dir: Directory, chain: seq<ChainObject>)
    requires multiset(Names(chain)) == multiset(dir.Keys) && dir != map[]
    ensures chain != []
  {
    var name :| name in dir;
    assert name in multiset(dir.Keys);
    assert name in Names(chain);
  }

  /** Whatever flushes, failures, crashes and starts the run had: what an append destination then
      holds can be planned and verified, and is the source's records below the position it
      continues at. */
  lemma {:induction false} AnyRunIsRestorable(
      log: seq<Record>, sinks: seq<Sink>, labels: seq<Label>, i: nat,
      names: seq<string>, source: Source, backup: Backup, keyring: Option<set<string>>)
    requires Ascending(log) && OfSource(log, source)
    requires IsRun(log, sinks, labels) && i < |SinksNow(RunOf(log, Down(sinks), labels))|
    requires var s := AfterRun(log, sinks, labels, i);
             && s.Blob? && !s.spec.snapshots && s.dir != map[]
             && multiset(names) == multiset(s.dir.Keys) && RecordsOf(backup) == s.dir
             && HoldsKeys(names, s.spec.ext, keyring)
    ensures var ext := AfterRun(log, sinks, labels, i).spec.ext;
            && Plan(names, ext, 0, keyring).Ok? && Validate(names, ext, false).Ok?
            && var chain := Plan(names, ext, 0, keyring).value;
            && AllRead(chain, source, backup)
            && Flat(chain, backup) == log[..First(log, Validate(names, ext, false).value.durable)]
  {
    hide HonestRun, RunOf, Holds, Plan, Validate, HoldsKeys, IsRead, Flat, OfSource;
    RunLeavesSound(log, sinks, labels, i);
    var s := AfterRun(log, sinks, labels, i);
    var chain :| Holds(log, s.spec, s.dir, chain);
    HeldChain(log, s.spec, s.dir, chain, names, keyring);
    MirroredIsRestorable(log, s.spec, s.dir, chain, names, source, backup, keyring);
  }

  lemma {:induction false} HeldChain(
      log: seq<Record>, spec: Spec, dir: Directory, chain: seq<ChainObject>, names: seq<string>,
      keyring: Option<set<string>>)
    requires Ascending(log) && Holds(log, spec, dir, chain) && !spec.snapshots && dir != map[]
    requires multiset(names) == multiset(dir.Keys) && HoldsKeys(names, spec.ext, keyring)
    ensures chain != [] && forall o :: o in chain ==> KeyHeld(o, keyring)
    ensures Validate(names, spec.ext, false) == Ok(Listing(End(chain, 0), None, TailOf(chain)))
  {
    hide HoldsRange, AllWritten, Names, Validate, HoldsKeys, KeyHeld, Contiguous;
    EmptyChain(dir, chain);
    KeysOfChain(chain, names, spec.ext, keyring);
    ChainOpens(names, chain, spec.ext);
  }

  /** The round trip. A backup made by any run of the mirror, restored to an empty partition that
      nothing else writes: renumbered, it always succeeds; at its own offsets, it succeeds exactly
      when what was backed up has no hole. */
  method RestoreAfterRun(ghost log: seq<Record>, ghost sinks: seq<Sink>, ghost labels: seq<Label>, ghost i: nat,
                         names: seq<string>, ext: string, keyring: Option<set<string>>,
                         source: Source, backup: Backup, mode: OffsetMode, target: RestoreProducer)
    returns (r: Result<Report, RestoreError>)
    requires Ascending(log) && OfSource(log, source)
    requires IsRun(log, sinks, labels) && i < |SinksNow(RunOf(log, Down(sinks), labels))|
    requires var s := AfterRun(log, sinks, labels, i);
             && s.Blob? && !s.spec.snapshots && s.dir != map[] && ext == s.spec.ext
             && multiset(names) == multiset(s.dir.Keys) && RecordsOf(backup) == s.dir
             && HoldsKeys(names, ext, keyring)
    requires target.sent == [] && target.inFlight == []
    requires target.broker.quiet && target.broker.log == []
    requires Plan(names, ext, 0, keyring).Ok? ==> AllAdmitted(Plan(names, ext, 0, keyring).value, backup, target)
    modifies target, target.broker
    ensures Validate(names, ext, false).Ok?
    ensures var mirrored := log[..First(log, Validate(names, ext, false).value.durable)];
            && (r.Ok? <==> (mode.Preserve? ==> Dense(mirrored, 0)))
            && (r.Ok? ==> target.broker.log == Renumbered(mirrored))
            && (r.Ok? && mode.Preserve? ==> target.broker.log == mirrored)
  {
    hide HonestRun, RunOf, Plan, Validate, HoldsKeys, IsRun, Flat, Dense, Renumbered, AllAdmitted, AllRead, OfSource;
    AnyRunIsRestorable(log, sinks, labels, i, names, source, backup, keyring);
    r := Restore(names, ext, 0, keyring, source, backup, backup, mode, target);
  }
}
