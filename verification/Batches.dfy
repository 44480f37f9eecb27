/** The debounce buffer of the notifier, and the tracker its acknowledgements reach. */
module Batches {
  import opened Records
  import Notify

  /** A key and the offset of the record it came with. */
  datatype Sighting = Sighting(key: Bytes, offset: nat)

  datatype Drained = Drained(keys: seq<Bytes>, high: nat)

  /** The distinct keys, in order of first sighting. */
  function FirstSightings(entries: seq<Sighting>): seq<Bytes> {
    if entries == [] then []
    else
      var before := FirstSightings(entries[..|entries| - 1]);
      var key := entries[|entries| - 1].key;
      if key in before then before else before + [key]
  }

  function MaxOffset(entries: seq<Sighting>): nat {
    if entries == [] then 0
    else
      var before, last := MaxOffset(entries[..|entries| - 1]), entries[|entries| - 1].offset;
      if |entries| == 1 || last > before then last else before
  }

  ghost predicate Sighted(entries: seq<Sighting>, key: Bytes) {
    exists i :: 0 <= i < |entries| && entries[i].key == key
  }

  ghost predicate Distinct(keys: seq<Bytes>) {
    forall i, j :: 0 <= i < j < |keys| ==> keys[i] != keys[j]
  }

  lemma {:induction false} SightedMore(init: seq<Sighting>, last: Sighting, key: Bytes)
    ensures Sighted(init + [last], key) <==> Sighted(init, key) || last.key == key
  {
    var all, n := init + [last], |init|;
    assert all[n] == last;
    if Sighted(init, key) {
      var i :| 0 <= i < n && init[i].key == key;
      assert all[i].key == key;
    }
    if Sighted(all, key) {
      var i :| 0 <= i < |all| && all[i].key == key;
      assert i < n ==> init[i].key == key;
    }
  }

  lemma {:induction false} FirstSightingsAre(entries: seq<Sighting>)
    ensures Distinct(FirstSightings(entries))
    ensures forall k :: k in FirstSightings(entries) <==> Sighted(entries, k)
  {
    hide Sighted;
    if entries == [] {
      NothingSighted();
    } else {
      var n := |entries| - 1;
      var init, last, before := entries[..n], entries[n], FirstSightings(entries[..n]);
      FirstSightingsAre(init);
      assert entries == init + [last];
      forall k
        ensures k in FirstSightings(entries) <==> Sighted(entries, k)
      {
        SightedMore(init, last, k);
        assert k in before + [last.key] <==> k in before || k == last.key;
      }
    }
  }

  /** Keys stay where they were first sighted. */
  lemma {:induction false} SightingsKeepTheirOrder(entries: seq<Sighting>, more: seq<Sighting>)
    ensures FirstSightings(entries) <= FirstSightings(entries + more)
    decreases |more|
  {
    if more == [] {
      assert entries + more == entries;
    } else {
      var n := |more| - 1;
      SightingsKeepTheirOrder(entries, more[..n]);
      assert (entries + more)[..|entries| + n] == entries + more[..n];
    }
  }

  lemma {:induction false} NothingSighted()
    ensures forall k :: !Sighted([], k)
  {
  }

  lemma {:induction false} MaxOffsetIs(entries: seq<Sighting>)
    requires entries != []
    ensures forall i :: 0 <= i < |entries| ==> entries[i].offset <= MaxOffset(entries)
    ensures exists i :: 0 <= i < |entries| && entries[i].offset == MaxOffset(entries)
  {
    var n := |entries| - 1;
    if n > 0 {
      var init := entries[..n];
      MaxOffsetIs(init);
      var i :| 0 <= i < n && init[i].offset == MaxOffset(init);
      assert entries[i].offset == MaxOffset(init);
      assert forall k :: 0 <= k < n ==> entries[k].offset == init[k].offset;
    }
    assert entries[n].offset <= MaxOffset(entries);
  }

  /** A batch of records in offset order carries the offset of its last one. */
  lemma {:induction false} HighIsLast(batch: seq<Record>, entries: seq<Sighting>)
    requires batch != [] && |entries| == |batch|
    requires forall i :: 0 <= i < |batch| ==> entries[i].offset == batch[i].offset
    requires forall i, j :: 0 <= i < j < |batch| ==> batch[i].offset < batch[j].offset
    ensures MaxOffset(entries) == Notify.High(batch)
  {
    MaxOffsetIs(entries);
    var i :| 0 <= i < |entries| && entries[i].offset == MaxOffset(entries);
    assert entries[|entries| - 1].offset <= MaxOffset(entries);
  }

  class Buffer {
    var keys: seq<Bytes>
    var maxOffset: nat
    var seenRecords: nat
    ghost var entries: seq<Sighting>

    /** The buffer stands for the records appended since the last take. */
    ghost predicate Valid()
      reads this
    {
      keys == FirstSightings(entries) && maxOffset == MaxOffset(entries) && seenRecords == |entries|
    }

    constructor ()
      ensures Valid() && entries == []
    {
      keys, maxOffset, seenRecords, entries := [], 0, 0, [];
    }

    method Append(key: Bytes, offset: nat)
      requires Valid()
      modifies this
      ensures Valid() && entries == old(entries) + [Sighting(key, offset)]
    {
      entries := entries + [Sighting(key, offset)];
      assert entries[..|entries| - 1] == old(entries);
      if key !in keys {
        keys := keys + [key];
      }
      if seenRecords == 0 || offset > maxOffset {
        maxOffset := offset;
      }
      seenRecords := seenRecords + 1;
    }

    /** Everything appended as one batch: each key once, and the highest offset. */
    method TakeBatch() returns (batch: Option<Drained>)
      requires Valid()
      modifies this
      ensures Valid() && entries == []
      ensures batch.None? <==> old(entries) == []
      ensures batch.Some? ==>
                && (forall k :: k in batch.value.keys <==> Sighted(old(entries), k))
                && Distinct(batch.value.keys)
                && (forall i :: 0 <= i < |old(entries)| ==> old(entries)[i].offset <= batch.value.high)
                && (exists i :: 0 <= i < |old(entries)| && old(entries)[i].offset == batch.value.high)
    {
      if seenRecords == 0 {
        return None;
      }
      FirstSightingsAre(entries);
      MaxOffsetIs(entries);
      batch := Some(Drained(keys, maxOffset));
      keys, maxOffset, seenRecords, entries := [], 0, 0, [];
    }
  }

  // ---------- acknowledgements ----------

  function Highest(s: seq<nat>): (m: nat)
    ensures forall i :: 0 <= i < |s| ==> s[i] <= m
    ensures if s == [] then m == 0 else m in s
  {
    if s == [] then 0
    else
      var before, last := Highest(s[..|s| - 1]), s[|s| - 1];
      if |s| == 1 || last > before then last else before
  }

  /** How far each destination, and the notifier if there is one, has acknowledged. */
  class AckTracker {
    var notified: Option<nat>
    var destinations: seq<nat>

    constructor (notifies: bool, count: nat)
      ensures notified == (if notifies then Some(0) else None) && destinations == seq(count, i => 0)
    {
      notified := if notifies then Some(0) else None;
      destinations := seq(count, i => 0);
    }

    /** An acknowledgement only raises the notifier's slot. */
    method NoteThrough(through: nat)
      modifies this`notified
      ensures notified.Some? <==> old(notified).Some?
      ensures notified.Some? ==>
                && notified.value >= through && notified.value >= old(notified).value
                && (notified.value == through || notified == old(notified))
    {
      if notified.Some? && notified.value < through {
        notified := Some(through);
      }
    }

    method NoteDestination(i: nat, through: nat)
      requires i < |destinations|
      modifies this`destinations
      ensures |destinations| == |old(destinations)|
      ensures destinations[i] >= through && destinations[i] >= old(destinations)[i]
      ensures destinations[i] == through || destinations[i] == old(destinations)[i]
      ensures forall k :: 0 <= k < |destinations| && k != i ==> destinations[k] == old(destinations)[k]
    {
      if destinations[i] < through {
        destinations := destinations[i := through];
      }
    }

    /** What may be committed: with a notifier its acknowledgement alone, whatever the
        destinations say; without one the furthest destination. */
    method CommitOffset() returns (offset: nat)
      ensures notified.Some? ==> offset == notified.value
      ensures notified.None? ==>
                && (forall i :: 0 <= i < |destinations| ==> destinations[i] <= offset)
                && (if destinations == [] then offset == 0 else offset in destinations)
    {
      offset := if notified.Some? then notified.value else Highest(destinations);
    }
  }
}
