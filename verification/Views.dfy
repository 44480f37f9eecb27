/** Latest value per key: what a log compacts to.

    A view is written out as its records in key order and read back from
    them; `Fold` is the meaning of a log for both the snapshots of a blob
    destination and the cache. */
module Views {
  import opened Records

  type View = map<Bytes, Record>

  function Apply(view: View, r: Record): View {
    if r.key.None? then view
    else if r.value.None? then view - {r.key.value}
    else view[r.key.value := r]
  }

  /** Last writer wins; a tombstone removes its key. */
  function Fold(log: seq<Record>): View {
    if log == [] then map[] else Apply(Fold(log[..|log| - 1]), log[|log| - 1])
  }

  /** Each entry is a record of its own key, with a value. */
  ghost predicate WellKeyed(view: View) {
    forall k :: k in view ==> HasTextKey(view[k]) && view[k].key.value == k && view[k].value.Some?
  }

  ghost predicate TextKeys(log: seq<Record>) {
    forall i :: 0 <= i < |log| ==> HasTextKey(log[i])
  }

  lemma {:induction false} FoldOfConcat(log: seq<Record>, r: Record)
    ensures Fold(log + [r]) == Apply(Fold(log), r)
  {
    assert (log + [r])[..|log|] == log;
  }

  lemma {:induction false} FoldIsWellKeyed(log: seq<Record>)
    requires TextKeys(log)
    ensures WellKeyed(Fold(log))
  {
    if log != [] {
      FoldIsWellKeyed(log[..|log| - 1]);
    }
  }

  /** What the fold holds for a key is the last record of that key, unless that is a tombstone. */
  lemma {:induction false} FoldIsLastWrite(log: seq<Record>, key: Bytes)
    ensures key in Fold(log)
            <==> exists i :: 0 <= i < |log| && log[i].key == Some(key) && log[i].value.Some?
                             && forall j :: i < j < |log| ==> log[j].key != Some(key)
    ensures forall i :: 0 <= i < |log| && log[i].key == Some(key) && log[i].value.Some?
                        && (forall j :: i < j < |log| ==> log[j].key != Some(key))
                        ==> key in Fold(log) && Fold(log)[key] == log[i]
  {
    if log != [] {
      var init, n := log[..|log| - 1], |log| - 1;
      FoldIsLastWrite(init, key);
      if log[n].key != Some(key) && key in Fold(log) {
        var i :| 0 <= i < n && init[i].key == Some(key) && init[i].value.Some?
                 && forall j :: i < j < n ==> init[j].key != Some(key);
        assert log[i] == init[i];
        assert forall j :: i < j < |log| ==> log[j].key != Some(key);
      } else if log[n].key == Some(key) && key in Fold(log) {
        assert log[n].value.Some?;
      }
      forall i | 0 <= i < |log| && log[i].key == Some(key) && log[i].value.Some?
                 && (forall j :: i < j < |log| ==> log[j].key != Some(key))
        ensures key in Fold(log) && Fold(log)[key] == log[i]
      {
        if i < n {
          assert log[n].key != Some(key);
          assert init[i] == log[i];
          assert forall j :: i < j < n ==> init[j] == log[j];
        }
      }
    }
  }

  // ---------- key order ----------

  predicate Less(a: Bytes, b: Bytes) {
    b != [] && (a == [] || a[0] < b[0] || (a[0] == b[0] && Less(a[1..], b[1..])))
  }

  lemma {:induction false} LessIsTotal(a: Bytes, b: Bytes)
    ensures a == b || Less(a, b) || Less(b, a)
    ensures !(Less(a, b) && Less(b, a))
    ensures !Less(a, a)
  {
    if a != [] && b != [] {
      LessIsTotal(a[1..], b[1..]);
      assert a == [a[0]] + a[1..] && b == [b[0]] + b[1..];
    }
    if a != [] {
      LessIsTotal(a[1..], a[1..]);
    }
  }

  lemma {:induction false} LessIsTransitive(a: Bytes, b: Bytes, c: Bytes)
    requires Less(a, b) && Less(b, c)
    ensures Less(a, c)
  {
    if a != [] && a[0] == b[0] == c[0] {
      LessIsTransitive(a[1..], b[1..], c[1..]);
    }
  }

  predicate IsLeast(k: Bytes, keys: set<Bytes>) {
    k in keys && forall x | x in keys :: x == k || Less(k, x)
  }

  lemma {:induction false} LeastExists(keys: set<Bytes>)
    requires keys != {}
    ensures exists k :: IsLeast(k, keys)
  {
    var x :| x in keys;
    if keys == {x} {
      assert IsLeast(x, keys);
    } else {
      LeastExists(keys - {x});
      var y :| IsLeast(y, keys - {x});
      LessIsTotal(x, y);
      forall z | z in keys && z != x && z != y && Less(x, y)
        ensures Less(x, z)
      {
        LessIsTransitive(x, y, z);
      }
      assert IsLeast(if Less(y, x) then y else x, keys);
    }
  }

  lemma {:induction false} LeastIsUnique(keys: set<Bytes>)
    ensures forall a, b :: IsLeast(a, keys) && IsLeast(b, keys) ==> a == b
  {
    forall a, b | IsLeast(a, keys) && IsLeast(b, keys)
      ensures a == b
    {
      LessIsTotal(a, b);
    }
  }

  function Least(keys: set<Bytes>): (k: Bytes)
    requires keys != {}
    ensures IsLeast(k, keys)
  {
    LeastExists(keys);
    LeastIsUnique(keys);
    var k :| k in keys && IsLeast(k, keys);
    k
  }

  // ---------- snapshots ----------

  /** The records of a view, in key order. */
  function Snapshot(view: View): seq<Record>
    decreases |view|
  {
    if view == map[] then []
    else
      var k := Least(view.Keys);
      var rest := view - {k};
      assert |rest.Keys| < |view.Keys|;
      [view[k]] + Snapshot(rest)
  }

  /** A snapshot read back; `None` if a record has no text key. */
  function ReadView(records: seq<Record>): Option<View> {
    if records == [] then Some(map[])
    else
      var r := records[|records| - 1];
      match ReadView(records[..|records| - 1])
      case None => None
      case Some(view) => if HasTextKey(r) then Some(view[r.key.value := r]) else None
  }

  lemma {:induction false} ReadMore(first: Record, rest: seq<Record>)
    requires HasTextKey(first) && ReadView(rest).Some? && first.key.value !in ReadView(rest).value
    ensures ReadView([first] + rest) == Some(ReadView(rest).value[first.key.value := first])
  {
    if rest == [] {
      assert [first] + rest == [first];
      assert ReadView([first][..0]) == Some(map[]);
    } else {
      var init := rest[..|rest| - 1];
      assert ([first] + rest)[..|rest|] == [first] + init;
      ReadMore(first, init);
      var view, r := ReadView(init).value, rest[|rest| - 1];
      assert ReadView(rest) == Some(view[r.key.value := r]);
      assert view[first.key.value := first][r.key.value := r] == view[r.key.value := r][first.key.value := first];
    }
  }

  /** A snapshot reads back as the view it was written from. */
  lemma {:induction false} SnapshotRoundTrip(view: View)
    requires WellKeyed(view)
    ensures ReadView(Snapshot(view)) == Some(view)
    decreases |view|
  {
    if view != map[] {
      var k := Least(view.Keys);
      var rest := view - {k};
      assert |rest.Keys| < |view.Keys|;
      SnapshotRoundTrip(rest);
      ReadMore(view[k], Snapshot(rest));
      assert rest[k := view[k]] == view;
    }
  }

  lemma {:induction false} SnapshotIsOfView(view: View)
    requires WellKeyed(view)
    ensures forall i :: 0 <= i < |Snapshot(view)| ==>
              HasTextKey(Snapshot(view)[i]) && Snapshot(view)[i].key.value in view
    decreases |view|
  {
    hide IsUtf8;
    if view != map[] {
      var k := Least(view.Keys);
      assert |(view - {k}).Keys| < |view.Keys|;
      SnapshotIsOfView(view - {k});
    }
  }

  ghost predicate KeysAscend(s: seq<Record>) {
    && (forall i :: 0 <= i < |s| ==> s[i].key.Some?)
    && forall i, j :: 0 <= i < j < |s| ==> Less(s[i].key.value, s[j].key.value)
  }

  lemma {:induction false} OneKeyBefore(r: Record, s: seq<Record>)
    requires KeysAscend(s) && r.key.Some? && forall j :: 0 <= j < |s| ==> Less(r.key.value, s[j].key.value)
    ensures KeysAscend([r] + s)
  {
    hide Less;
    var all := [r] + s;
    assert forall j :: 1 <= j < |all| ==> all[j] == s[j - 1];
  }

  /** The records of a snapshot are in the order of their keys, each key once. */
  lemma {:induction false} SnapshotAscends(view: View)
    requires WellKeyed(view)
    ensures KeysAscend(Snapshot(view))
    decreases |view|
  {
    hide IsUtf8, Less, KeysAscend;
    if view == map[] {
      NoKeys();
    } else {
      var k := Least(view.Keys);
      var rest := view - {k};
      assert |rest.Keys| < |view.Keys|;
      SnapshotAscends(rest);
      SnapshotIsOfView(rest);
      var tail := Snapshot(rest);
      forall j | 0 <= j < |tail|
        ensures Less(k, tail[j].key.value)
      {
        assert tail[j].key.value in view.Keys && tail[j].key.value != k;
      }
      OneKeyBefore(view[k], tail);
    }
  }

  lemma {:induction false} NoKeys()
    ensures KeysAscend([])
  {
  }
}
