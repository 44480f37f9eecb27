/** The cache: an insertion-ordered index of the latest value per key, fed by
    every record the run loop delivers, replays included. */
module Caches {
  import opened Records
  import opened Views

  datatype TopicPartition = TopicPartition(topic: string, partition: int)

  datatype Entry = Entry(value: Bytes, offset: nat)

  /** Keys in order, each with its entry. */
  type Index = seq<(Bytes, Entry)>

  function At(r: Record): TopicPartition {
    TopicPartition(r.topic, r.partition)
  }

  // ---------- what a cache should hold ----------

  /** The records that count: of each partition, those above every one before. */
  function Advancing(history: seq<Record>): seq<Record> {
    if history == [] then []
    else
      var before, r := Advancing(history[..|history| - 1]), history[|history| - 1];
      if Seen(before, At(r)).Some? && r.offset <= Seen(before, At(r)).value then before else before + [r]
  }

  /** The offset of a partition's last record. */
  function Seen(history: seq<Record>, tp: TopicPartition): Option<nat> {
    if history == [] then None
    else if At(history[|history| - 1]) == tp then Some(history[|history| - 1].offset)
    else Seen(history[..|history| - 1], tp)
  }

  /** The records a cache takes in: those that count and have a text key. */
  function Noted(records: seq<Record>): seq<Record> {
    if records == [] then []
    else
      var before, r := Noted(records[..|records| - 1]), records[|records| - 1];
      if HasTextKey(r) then before + [r] else before
  }

  /** Where the entry of a key was first sighted since it was last absent. */
  function Born(log: seq<Record>, key: Bytes): nat
    requires key in Fold(log)
  {
    var n := |log| - 1;
    if log[n].key == Some(key) && key !in Fold(log[..n]) then n else Born(log[..n], key)
  }

  /** A key is born at a record that sets it while it is absent, and is never removed after. */
  lemma {:induction false} BornIs(log: seq<Record>, key: Bytes)
    requires key in Fold(log)
    ensures var b := Born(log, key);
            && b < |log| && log[b].key == Some(key) && log[b].value.Some? && key !in Fold(log[..b])
            && forall j :: b <= j < |log| && log[j].key == Some(key) ==> log[j].value.Some?
    decreases |log|
  {
    var n := |log| - 1;
    var init := log[..n];
    if log[n].key != Some(key) || key in Fold(init) {
      BornIs(init, key);
      var b := Born(init, key);
      assert init[..b] == log[..b];
      forall j | b <= j < |log| && log[j].key == Some(key)
        ensures log[j].value.Some?
      {
        if j < n {
          assert init[j] == log[j];
        }
      }
    }
  }

  ghost predicate HasKey(index: Index, key: Bytes) {
    exists i :: 0 <= i < |index| && index[i].0 == key
  }

  /** Each entry has the value and the offset of the record that wrote it. */
  ghost predicate ShowsValues(index: Index, log: seq<Record>) {
    forall i :: 0 <= i < |index| ==>
      && index[i].0 in Fold(log)
      && Fold(log)[index[i].0].value == Some(index[i].1.value)
      && Fold(log)[index[i].0].offset == index[i].1.offset
  }

  ghost predicate ShowsOrder(index: Index, log: seq<Record>)
    requires ShowsValues(index, log)
  {
    forall i, j :: 0 <= i < j < |index| ==> Born(log, index[i].0) < Born(log, index[j].0)
  }

  /** The index shows the fold of `log`: each live key once, in the order the keys were born. */
  ghost predicate Shows(index: Index, log: seq<Record>) {
    && ShowsValues(index, log)
    && ShowsOrder(index, log)
    && forall k :: k in Fold(log) ==> HasKey(index, k)
  }

  // ---------- the index ----------

  function PositionOf(index: Index, key: Bytes): (at: Option<nat>)
    ensures at.Some? ==> at.value < |index| && index[at.value].0 == key
    ensures at.None? <==> forall i :: 0 <= i < |index| ==> index[i].0 != key
  {
    if index == [] then None
    else if index[|index| - 1].0 == key then Some(|index| - 1)
    else PositionOf(index[..|index| - 1], key)
  }

  /** A key that is there keeps its place; a new one goes to the end. */
  function Insert(index: Index, key: Bytes, e: Entry): Index {
    match PositionOf(index, key)
    case None => index + [(key, e)]
    case Some(i) => index[i := (key, e)]
  }

  /** The others keep their order. */
  function ShiftRemove(index: Index, key: Bytes): Index {
    match PositionOf(index, key)
    case None => index
    case Some(i) => index[..i] + index[i + 1..]
  }

  lemma {:induction false} BornMore(log: seq<Record>, r: Record, key: Bytes)
    requires key in Fold(log + [r])
    ensures if key in Fold(log) then Born(log + [r], key) == Born(log, key) else Born(log + [r], key) == |log|
    ensures key !in Fold(log) ==> r.key == Some(key)
  {
    hide Fold;
    FoldOfConcat(log, r);
    assert (log + [r])[..|log|] == log;
  }

  lemma {:induction false} BornBefore(log: seq<Record>, key: Bytes)
    requires key in Fold(log)
    ensures Born(log, key) < |log|
  {
    BornIs(log, key);
  }

  /** A record changes the births of no key but its own. */
  lemma {:induction false} BornSame(log: seq<Record>, r: Record, key: Bytes)
    requires key in Fold(log) && key in Fold(log + [r])
    ensures Born(log + [r], key) == Born(log, key) < |log|
  {
    BornMore(log, r, key);
    BornBefore(log, key);
  }

  lemma {:induction false} SetValues(index: Index, log: seq<Record>, r: Record)
    requires ShowsValues(index, log) && ShowsOrder(index, log) && r.key.Some? && r.value.Some?
    ensures ShowsValues(Insert(index, r.key.value, Entry(r.value.value, r.offset)), log + [r])
  {
    hide Fold;
    FoldOfConcat(log, r);
    KeysOnce(index, log);
  }

  lemma {:induction false} KeysOnce(index: Index, log: seq<Record>)
    requires ShowsValues(index, log) && ShowsOrder(index, log)
    ensures forall i, j :: 0 <= i < j < |index| ==> index[i].0 != index[j].0
  {
    hide Fold, Born;
    forall i, j | 0 <= i < j < |index|
      ensures index[i].0 != index[j].0
    {
      assert Born(log, index[i].0) < Born(log, index[j].0);
    }
  }

  lemma {:induction false} SetOrder(index: Index, log: seq<Record>, r: Record)
    requires Shows(index, log) && r.key.Some? && r.value.Some?
    requires ShowsValues(Insert(index, r.key.value, Entry(r.value.value, r.offset)), log + [r])
    ensures ShowsOrder(Insert(index, r.key.value, Entry(r.value.value, r.offset)), log + [r])
  {
    hide Fold, Born;
    var key, log' := r.key.value, log + [r];
    var index' := Insert(index, key, Entry(r.value.value, r.offset));
    assert forall i :: 0 <= i < |index| ==> index'[i].0 == index[i].0;
    forall i | 0 <= i < |index|
      ensures Born(log', index'[i].0) == Born(log, index[i].0) < |log|
    {
      BornSame(log, r, index[i].0);
    }
    if PositionOf(index, key).None? {
      assert !HasKey(index, key);
      FoldOfConcat(log, r);
      BornMore(log, r, key);
    }
  }

  lemma {:induction false} InsertShows(index: Index, log: seq<Record>, r: Record)
    requires Shows(index, log) && r.key.Some? && r.value.Some?
    ensures Shows(Insert(index, r.key.value, Entry(r.value.value, r.offset)), log + [r])
  {
    hide Fold, Born, ShowsOrder, ShowsValues;
    var index' := Insert(index, r.key.value, Entry(r.value.value, r.offset));
    SetValues(index, log, r);
    SetOrder(index, log, r);
    FoldOfConcat(log, r);
    forall k | k in Fold(log + [r])
      ensures HasKey(index', k)
    {
      InsertHas(index, r.key.value, Entry(r.value.value, r.offset), k);
      assert k in Fold(log) || k == r.key.value;
    }
  }

  lemma {:induction false} InsertHas(index: Index, key: Bytes, e: Entry, k: Bytes)
    ensures HasKey(Insert(index, key, e), k) <==> HasKey(index, k) || k == key
  {
    var index' := Insert(index, key, e);
    assert forall i :: 0 <= i < |index| ==> index'[i].0 == index[i].0;
    if PositionOf(index, key).None? {
      assert index'[|index|].0 == key;
    }
    if HasKey(index, k) {
      var i :| 0 <= i < |index| && index[i].0 == k;
      assert index'[i].0 == k;
    }
    if HasKey(index', k) {
      var i :| 0 <= i < |index'| && index'[i].0 == k;
      assert i < |index| ==> index[i].0 == k;
    }
  }

  /** Where in the index the i-th entry left over came from. */
  function Came(index: Index, key: Bytes, i: nat): (m: nat)
    ensures i <= m
  {
    match PositionOf(index, key)
    case None => i
    case Some(p) => if i < p then i else i + 1
  }

  lemma {:induction false} LeftOver(index: Index, key: Bytes)
    ensures var cut := ShiftRemove(index, key);
            forall i :: 0 <= i < |cut| ==> Came(index, key, i) < |index| && cut[i] == index[Came(index, key, i)]
  {
  }

  lemma {:induction false} LeftIsOther(index: Index, key: Bytes, i: nat)
    requires forall m, n :: 0 <= m < n < |index| ==> index[m].0 != index[n].0
    requires i < |ShiftRemove(index, key)|
    ensures ShiftRemove(index, key)[i].0 != key
  {
    LeftOver(index, key);
    var m := Came(index, key, i);
    if PositionOf(index, key).Some? {
      var p := PositionOf(index, key).value;
      assert m < p || p < m;
    }
  }

  lemma {:induction false} RemoveValues(index: Index, log: seq<Record>, r: Record)
    requires ShowsValues(index, log) && ShowsOrder(index, log) && r.key.Some? && r.value.None?
    ensures ShowsValues(ShiftRemove(index, r.key.value), log + [r])
  {
    hide Fold, Born, ShiftRemove, ShowsOrder, Came;
    var cut := ShiftRemove(index, r.key.value);
    FoldOfConcat(log, r);
    KeysOnce(index, log);
    LeftOver(index, r.key.value);
    forall i | 0 <= i < |cut|
      ensures cut[i].0 != r.key.value
    {
      LeftIsOther(index, r.key.value, i);
    }
  }

  lemma {:induction false} RemoveOrder(index: Index, log: seq<Record>, r: Record)
    requires ShowsValues(index, log) && ShowsOrder(index, log) && r.key.Some? && r.value.None?
    requires ShowsValues(ShiftRemove(index, r.key.value), log + [r])
    ensures ShowsOrder(ShiftRemove(index, r.key.value), log + [r])
  {
    hide Fold, Born, ShiftRemove;
    var key, cut := r.key.value, ShiftRemove(index, r.key.value);
    LeftOver(index, key);
    forall i, j | 0 <= i < j < |cut|
      ensures Born(log + [r], cut[i].0) < Born(log + [r], cut[j].0)
    {
      BornSame(log, r, index[Came(index, key, i)].0);
      BornSame(log, r, index[Came(index, key, j)].0);
    }
  }

  lemma {:induction false} RemoveShows(index: Index, log: seq<Record>, r: Record)
    requires Shows(index, log) && r.key.Some? && r.value.None?
    ensures Shows(ShiftRemove(index, r.key.value), log + [r])
  {
    hide Fold, Born, ShowsOrder, ShowsValues;
    RemoveValues(index, log, r);
    RemoveOrder(index, log, r);
    FoldOfConcat(log, r);
    forall k | k in Fold(log + [r])
      ensures HasKey(ShiftRemove(index, r.key.value), k)
    {
      assert k in Fold(log) && k != r.key.value;
      RemoveHas(index, r.key.value, k);
    }
  }

  lemma {:induction false} RemoveHas(index: Index, key: Bytes, k: Bytes)
    requires HasKey(index, k) && k != key
    ensures HasKey(ShiftRemove(index, key), k)
  {
    var i :| 0 <= i < |index| && index[i].0 == k;
    var cut := ShiftRemove(index, key);
    if PositionOf(index, key).Some? && i > PositionOf(index, key).value {
      assert cut[i - 1].0 == k;
    } else {
      assert cut[i].0 == k;
    }
  }

  // ---------- replays ----------

  lemma {:induction false} AdvancingMore(history: seq<Record>, r: Record)
    ensures var adv := Advancing(history);
            Advancing(history + [r])
            == if Seen(adv, At(r)).Some? && r.offset <= Seen(adv, At(r)).value then adv else adv + [r]
  {
    assert (history + [r])[..|history|] == history;
  }

  lemma {:induction false} SeenMore(log: seq<Record>, r: Record, tp: TopicPartition)
    ensures Seen(log + [r], tp) == if At(r) == tp then Some(r.offset) else Seen(log, tp)
  {
    assert (log + [r])[..|log|] == log;
  }

  /** What counts strictly advances within each partition, and everything applied is at or below
      what was seen of its partition. */
  lemma {:induction false} AppliedIsSeen(history: seq<Record>)
    ensures forall r :: r in history ==>
              Seen(Advancing(history), At(r)).Some? && r.offset <= Seen(Advancing(history), At(r)).value
    ensures forall r :: r in Advancing(history) ==>
              Seen(Advancing(history), At(r)).Some? && r.offset <= Seen(Advancing(history), At(r)).value
  {
    if history != [] {
      var n := |history| - 1;
      var init, last := history[..n], history[n];
      assert history == init + [last];
      AppliedIsSeen(init);
      AdvancingMore(init, last);
      forall r | r in history || r in Advancing(history)
        ensures Seen(Advancing(history), At(r)).Some? && r.offset <= Seen(Advancing(history), At(r)).value
      {
        SeenMore(Advancing(init), last, At(r));
        SeenMore(Advancing(init), last, At(last));
        assert r in init || r in Advancing(init) || r == last;
      }
    }
  }

  /** Replaying records already applied, in any order and any number of times, changes nothing. */
  lemma {:induction false} ReplayChangesNothing(history: seq<Record>, replay: seq<Record>)
    requires forall r :: r in replay ==> r in history
    ensures Advancing(history + replay) == Advancing(history)
    decreases |replay|
  {
    if replay == [] {
      assert history + [] == history;
    } else {
      var n := |replay| - 1;
      ReplayChangesNothing(history, replay[..n]);
      assert history + replay == (history + replay[..n]) + [replay[n]];
      AdvancingMore(history + replay[..n], replay[n]);
      AppliedIsSeen(history);
      assert replay[n] in history;
    }
  }

  lemma {:induction false} SeenIsApplied(history: seq<Record>, tp: TopicPartition)
    requires Seen(Advancing(history), tp).Some?
    ensures exists x :: x in history && At(x) == tp && x.offset == Seen(Advancing(history), tp).value
  {
    if history != [] {
      var n := |history| - 1;
      var init, last := history[..n], history[n];
      assert history == init + [last];
      AdvancingMore(init, last);
      SeenMore(Advancing(init), last, tp);
      if Seen(Advancing(history), tp) == Seen(Advancing(init), tp) {
        SeenIsApplied(init, tp);
        var x :| x in init && At(x) == tp && x.offset == Seen(Advancing(init), tp).value;
        assert x in history;
      } else {
        assert last in history;
      }
    }
  }

  /** A record counts exactly if it is further than every record of its partition before it. */
  lemma {:induction false} CountsIff(history: seq<Record>, r: Record)
    ensures Advancing(history + [r])
            == if forall x :: x in history && At(x) == At(r) ==> x.offset < r.offset then Advancing(history) + [r]
               else Advancing(history)
  {
    hide Advancing, Seen;
    AdvancingMore(history, r);
    AppliedIsSeen(history);
    if Seen(Advancing(history), At(r)).Some? {
      SeenIsApplied(history, At(r));
    }
  }

  lemma {:induction false} NotedMore(log: seq<Record>, r: Record)
    ensures Noted(log + [r]) == if HasTextKey(r) then Noted(log) + [r] else Noted(log)
  {
    assert (log + [r])[..|log|] == log;
  }

  lemma {:induction false} FoldIsFromLog(log: seq<Record>, key: Bytes)
    requires key in Fold(log)
    ensures Fold(log)[key] in log
    decreases |log|
  {
    var n := |log| - 1;
    if log[n].key != Some(key) {
      FoldIsFromLog(log[..n], key);
    }
  }

  /** What is taken in is exactly the records with a text key. */
  lemma {:induction false} NotedIs(log: seq<Record>)
    ensures forall r :: r in Noted(log) <==> r in log && HasTextKey(r)
  {
    hide HasTextKey;
    if log != [] {
      var n := |log| - 1;
      NotedIs(log[..n]);
      assert log == log[..n] + [log[n]];
    }
  }

  // ---------- the cache of one mirror ----------

  class CacheSlot {
    var view: Option<Index>
    var offsets: map<TopicPartition, nat>
    /** Every record ever applied, replays included. */
    ghost var history: seq<Record>

    ghost predicate OffsetsFit()
      reads this
    {
      forall tp :: (tp in offsets <==> Seen(Advancing(history), tp).Some?)
                   && (tp in offsets ==> Seen(Advancing(history), tp) == Some(offsets[tp]))
    }

    ghost predicate Valid()
      reads this
    {
      && OffsetsFit()
      && (view.Some? ==> Shows(view.value, Noted(Advancing(history))))
    }

    constructor (keepsValues: bool)
      ensures Valid() && history == [] && view.Some? == keepsValues
    {
      view := if keepsValues then Some([]) else None;
      offsets, history := map[], [];
    }

    /** Apply a record, unless its partition is already past it. */
    method ApplyRecord(r: Record)
      requires Valid()
      modifies this
      ensures Valid() && history == old(history) + [r] && view.Some? == old(view).Some?
      ensures Advancing(history) == Advancing(old(history)) ==> view == old(view) && offsets == old(offsets)
    {
      hide Shows, HasTextKey, Insert, ShiftRemove, Advancing, Noted, Seen;
      var tp := At(r);
      ghost var adv := Advancing(history);
      AdvancingMore(history, r);
      history := history + [r];
      if tp in offsets && r.offset <= offsets[tp] {
        return;
      }
      forall other
        ensures Seen(adv + [r], other) == if tp == other then Some(r.offset) else Seen(adv, other)
      {
        SeenMore(adv, r, other);
      }
      NotedMore(adv, r);
      if view.Some? && HasTextKey(r) {
        var index := view.value;
        TextKeyIsKey(r);
        if r.value.Some? {
          InsertShows(index, Noted(adv), r);
          index := Insert(index, r.key.value, Entry(r.value.value, r.offset));
        } else {
          RemoveShows(index, Noted(adv), r);
          index := ShiftRemove(index, r.key.value);
        }
        view := Some(index);
      }
      offsets := offsets[tp := r.offset];
    }

    /** A key's value, the offset of the record that wrote it, and the offsets it was read with:
        the value is the fold of what counted, and none of it is newer than the offsets. */
    method ReadValue(key: Bytes) returns (value: Option<Entry>, seen: map<TopicPartition, nat>)
      requires Valid() && view.Some?
      ensures seen == offsets
      ensures var live := Fold(Noted(Advancing(history)));
              && (value.Some? <==> key in live)
              && (value.Some? ==>
                    && live[key].value == Some(value.value.value) && live[key].offset == value.value.offset
                    && At(live[key]) in seen && value.value.offset <= seen[At(live[key])])
    {
      hide Fold, Born;
      var at := PositionOf(view.value, key);
      seen := offsets;
      if at.None? {
        return None, seen;
      }
      value := Some(view.value[at.value].1);
      ghost var adv := Advancing(history);
      FoldIsFromLog(Noted(adv), key);
      NotedIs(adv);
      AppliedIsSeen(history);
    }
  }

  lemma {:induction false} TextKeyIsKey(r: Record)
    requires HasTextKey(r)
    ensures r.key.Some?
  {
  }
}
