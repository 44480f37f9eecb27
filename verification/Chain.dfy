/** The chain of a blob destination, from its object names alone.

    Two programs read it: a sink that opens a destination again
    (`ValidateChain`) and a restore that plans what to read (`PlanChain`).
    Each is a loop over a listing, proved against a function; what the
    function accepts is then characterised without mentioning sorting or
    scanning: by how many objects cover each position. */
module Chain {
  import opened Records
  import opened Naming

  datatype ChainObject = ChainObject(name: string, from: nat, to: nat, keyId: Option<string>)

  datatype ChainError =
    | OtherFormat(name: string)
    | NotAnObject(name: string)
    | ToBelowFrom(name: string)
    | NoObjects
    | WrongStart(first: nat)
    | Gap(first: nat, last: nat)
    | Overlap(name: string)
    | MissingKeys(ids: seq<string>)

  /** What a listing says about a destination: where it continues, its newest object, its last two objects. */
  datatype Listing = Listing(durable: nat, latest: Option<string>, tail: seq<string>)

  // ---------- names ----------

  /** An object of another format in the directory, under a name this mirror would write. */
  predicate IsOtherFormat(name: string, ext: string) {
    var other := FileExtension(name);
    other.Some? && other.value != ext && ParseBlobName(name, other.value).Some?
  }

  /** A sink reopening its destination (`own`) also tells another format's objects apart. */
  function ParseObject(name: string, ext: string, own: bool): Result<ChainObject, ChainError> {
    if own && IsOtherFormat(name, ext) then Err(OtherFormat(name))
    else
      match ParseBlobName(name, ext)
      case None => Err(NotAnObject(name))
      case Some(b) =>
        if b.to < b.from then Err(ToBelowFrom(name)) else Ok(ChainObject(name, b.from, b.to, b.keyId))
  }

  /** A sink accepts the same objects, and calls by its name an object written in another format. */
  lemma {:induction false} OwnChangesOnlyTheError(name: string, ext: string)
    requires IsExtension(ext)
    ensures ParseObject(name, ext, true).Ok? <==> ParseObject(name, ext, false).Ok?
    ensures ParseObject(name, ext, true).Ok? ==> ParseObject(name, ext, true) == ParseObject(name, ext, false)
  {
    if ParseBlobName(name, ext).Some? {
      var stem := StripSuffix(name, "." + ext).value;
      assert name == stem + "." + ext;
      ExtensionOf(stem, ext);
    }
  }

  lemma {:induction false} OtherFormatIsNamed(from: nat, to: nat, keyId: Option<string>, other: string, ext: string)
    requires from < TWO_64 && to < TWO_64 && (keyId.Some? ==> IsKeyId(keyId.value))
    requires IsExtension(other) && other != ext
    ensures var name := BlobFilename(from, to, keyId, other);
            ParseObject(name, ext, true) == Err(OtherFormat(name))
  {
    NameRoundTrip(from, to, keyId, other);
    ExtensionOfWritten(from, to, keyId, other);
  }

  /** Every name parsed, or the first error. */
  function ParseAll(names: seq<string>, ext: string, own: bool): Result<seq<ChainObject>, ChainError> {
    if names == [] then Ok([])
    else
      match ParseAll(names[..|names| - 1], ext, own)
      case Err(e) => Err(e)
      case Ok(objects) =>
        match ParseObject(names[|names| - 1], ext, own)
        case Err(e) => Err(e)
        case Ok(o) => Ok(objects + [o])
  }

  // ---------- order ----------

  /** The order an object is sorted by: of its end for snapshots, else of range and name. */
  predicate Leq(a: ChainObject, b: ChainObject, byEnd: bool) {
    if byEnd then a.to <= b.to
    else a.from < b.from || (a.from == b.from && (a.to < b.to || (a.to == b.to && !Before(b.name, a.name))))
  }

  function Insert(o: ChainObject, s: seq<ChainObject>, byEnd: bool): seq<ChainObject> {
    if s == [] || Leq(o, s[0], byEnd) then [o] + s else [s[0]] + Insert(o, s[1..], byEnd)
  }

  /** The stable sort of the standard library. */
  function Sorted(s: seq<ChainObject>, byEnd: bool): seq<ChainObject> {
    if s == [] then [] else Insert(s[0], Sorted(s[1..], byEnd), byEnd)
  }

  function Key(o: ChainObject, byEnd: bool): nat {
    if byEnd then o.to else o.from
  }

  ghost predicate Ordered(s: seq<ChainObject>, byEnd: bool) {
    forall i, j :: 0 <= i < j < |s| ==> Key(s[i], byEnd) <= Key(s[j], byEnd)
  }

  lemma {:induction false} InsertKeepsObjects(o: ChainObject, s: seq<ChainObject>, byEnd: bool)
    ensures multiset(Insert(o, s, byEnd)) == multiset{o} + multiset(s)
  {
    if s != [] && !Leq(o, s[0], byEnd) {
      InsertKeepsObjects(o, s[1..], byEnd);
      assert s == [s[0]] + s[1..];
    }
  }

  lemma {:induction false} InsertStaysAbove(o: ChainObject, s: seq<ChainObject>, byEnd: bool, least: nat)
    requires least <= Key(o, byEnd) && forall i :: 0 <= i < |s| ==> least <= Key(s[i], byEnd)
    ensures forall i :: 0 <= i < |Insert(o, s, byEnd)| ==> least <= Key(Insert(o, s, byEnd)[i], byEnd)
  {
    if s != [] && !Leq(o, s[0], byEnd) {
      InsertStaysAbove(o, s[1..], byEnd, least);
    }
  }

  lemma {:induction false} InsertIsOrdered(o: ChainObject, s: seq<ChainObject>, byEnd: bool)
    requires Ordered(s, byEnd)
    ensures Ordered(Insert(o, s, byEnd), byEnd)
  {
    if s != [] && !Leq(o, s[0], byEnd) {
      InsertIsOrdered(o, s[1..], byEnd);
      InsertStaysAbove(o, s[1..], byEnd, Key(s[0], byEnd));
    }
  }

  lemma {:induction false} SortedIsOrdered(s: seq<ChainObject>, byEnd: bool)
    ensures Ordered(Sorted(s, byEnd), byEnd)
    ensures multiset(Sorted(s, byEnd)) == multiset(s)
    ensures |Sorted(s, byEnd)| == |s|
  {
    if s != [] {
      SortedIsOrdered(s[1..], byEnd);
      InsertIsOrdered(s[0], Sorted(s[1..], byEnd), byEnd);
      InsertKeepsObjects(s[0], Sorted(s[1..], byEnd), byEnd);
      assert s == [s[0]] + s[1..];
    }
    assert |multiset(Sorted(s, byEnd))| == |multiset(s)|;
  }

  lemma {:induction false} TakeOut<T>(s: seq<T>, i: nat)
    requires i < |s|
    ensures multiset(s[..i] + s[i + 1..]) == multiset(s) - multiset{s[i]}
  {
    assert s == s[..i] + ([s[i]] + s[i + 1..]);
  }

  /** The counterpart of the first element in a permutation. */
  lemma {:induction false} Match<T>(s: seq<T>, t: seq<T>) returns (j: nat)
    requires multiset(s) == multiset(t) && s != []
    ensures j < |t| && t[j] == s[0] && multiset(s[1..]) == multiset(t[..j] + t[j + 1..])
  {
    assert s[0] in multiset(t);
    j :| 0 <= j < |t| && t[j] == s[0];
    TakeOut(t, j);
    assert s == [s[0]] + s[1..];
  }

  /** Only one order of the same objects is strictly ascending. */
  lemma {:induction false} LeastFirst(s: seq<ChainObject>, t: seq<ChainObject>, j: nat, byEnd: bool)
    requires multiset(s) == multiset(t) && Ordered(s, byEnd) && s != [] && j < |t| && t[j] == s[0]
    requires forall i, j :: 0 <= i < j < |t| ==> Key(t[i], byEnd) < Key(t[j], byEnd)
    ensures j == 0
  {
    assert t[0] in multiset(s);
    var i :| 0 <= i < |s| && s[i] == t[0];
  }

  lemma {:induction false} OrderIsUnique(s: seq<ChainObject>, t: seq<ChainObject>, byEnd: bool)
    requires multiset(s) == multiset(t) && Ordered(s, byEnd)
    requires forall i, j :: 0 <= i < j < |t| ==> Key(t[i], byEnd) < Key(t[j], byEnd)
    ensures s == t
  {
    hide Key;
    assert |multiset(s)| == |multiset(t)|;
    if s != [] {
      var j := Match(s, t);
      LeastFirst(s, t, j, byEnd);
      assert t[..0] + t[1..] == t[1..];
      OrderIsUnique(s[1..], t[1..], byEnd);
    }
  }

  // ---------- what a listing covers ----------

  /** How many objects cover `position`. */
  function Cover(s: seq<ChainObject>, position: nat): nat {
    if s == [] then 0 else (if s[0].from <= position <= s[0].to then 1 else 0) + Cover(s[1..], position)
  }

  /** Every position of `start..end` is in exactly one object, and no other position is in any. */
  ghost predicate Tiles(s: seq<ChainObject>, start: nat, end: nat) {
    forall p: nat :: Cover(s, p) == if start <= p < end then 1 else 0
  }

  ghost predicate NonEmptyRanges(s: seq<ChainObject>) {
    forall i :: 0 <= i < |s| ==> s[i].from <= s[i].to
  }

  lemma {:induction false} CoverOfConcat(a: seq<ChainObject>, b: seq<ChainObject>, p: nat)
    ensures Cover(a + b, p) == Cover(a, p) + Cover(b, p)
  {
    if a == [] {
      assert a + b == b;
    } else {
      assert (a + b)[1..] == a[1..] + b;
      CoverOfConcat(a[1..], b, p);
    }
  }

  lemma {:induction false} CoverTakeOut(s: seq<ChainObject>, i: nat, p: nat)
    requires i < |s|
    ensures Cover(s, p) == Cover([s[i]], p) + Cover(s[..i] + s[i + 1..], p)
  {
    assert s == s[..i] + ([s[i]] + s[i + 1..]);
    CoverOfConcat(s[..i], [s[i]] + s[i + 1..], p);
    CoverOfConcat([s[i]], s[i + 1..], p);
    CoverOfConcat(s[..i], s[i + 1..], p);
  }

  lemma {:induction false} CoverOfPermutation(s: seq<ChainObject>, t: seq<ChainObject>, p: nat)
    requires multiset(s) == multiset(t)
    ensures Cover(s, p) == Cover(t, p)
  {
    if s == [] {
      assert |multiset(t)| == 0;
    } else {
      var j := Match(s, t);
      CoverTakeOut(t, j, p);
      CoverOfPermutation(s[1..], t[..j] + t[j + 1..], p);
    }
  }

  lemma {:induction false} CoverOfMember(s: seq<ChainObject>, i: nat, p: nat)
    requires i < |s| && s[i].from <= p <= s[i].to
    ensures Cover(s, p) >= 1
  {
    if i > 0 {
      CoverOfMember(s[1..], i - 1, p);
    }
  }

  lemma {:induction false} CoverAbove(s: seq<ChainObject>, p: nat)
    requires forall i :: 0 <= i < |s| ==> p < s[i].from
    ensures Cover(s, p) == 0
  {
    if s != [] {
      CoverAbove(s[1..], p);
    }
  }

  lemma {:induction false} CoverPositive(s: seq<ChainObject>, p: nat) returns (i: nat)
    requires Cover(s, p) > 0
    ensures i < |s| && s[i].from <= p <= s[i].to
  {
    if s[0].from <= p <= s[0].to {
      i := 0;
    } else {
      i := CoverPositive(s[1..], p);
      i := i + 1;
    }
  }

  // ---------- append chains ----------

  /** The first object that does not start where the one before it ended. */
  function FirstBreak(s: seq<ChainObject>, expected: nat): Option<ChainError> {
    if s == [] then None
    else if s[0].from > expected then Some(Gap(expected, s[0].from - 1))
    else if s[0].from < expected then Some(Overlap(s[0].name))
    else FirstBreak(s[1..], s[0].to + 1)
  }

  /** Each object starts where the one before it ended. */
  ghost predicate Contiguous(s: seq<ChainObject>, start: nat) {
    s == [] || (s[0].from == start <= s[0].to && Contiguous(s[1..], s[0].to + 1))
  }

  function End(s: seq<ChainObject>, start: nat): nat {
    if s == [] then start else s[|s| - 1].to + 1
  }

  lemma {:induction false} NoBreakIsContiguous(s: seq<ChainObject>, start: nat)
    requires NonEmptyRanges(s)
    ensures FirstBreak(s, start) == None <==> Contiguous(s, start)
  {
    if s != [] {
      NoBreakIsContiguous(s[1..], s[0].to + 1);
    }
  }

  lemma {:induction false} ContiguousAt(s: seq<ChainObject>, start: nat, i: nat)
    requires Contiguous(s, start) && i < |s|
    ensures start <= s[i].from <= s[i].to < End(s, start)
    ensures forall j :: i < j < |s| ==> s[i].to < s[j].from <= s[j].to
  {
    if i > 0 {
      ContiguousAt(s[1..], s[0].to + 1, i - 1);
      assert forall j :: i < j < |s| ==> s[1..][j - 1] == s[j];
    } else {
      forall j | 1 <= j < |s|
        ensures s[0].to < s[j].from <= s[j].to < End(s, start)
      {
        ContiguousAt(s[1..], s[0].to + 1, j - 1);
      }
    }
  }

  lemma {:induction false} ContiguousIsStrictlyOrdered(s: seq<ChainObject>, start: nat)
    requires Contiguous(s, start)
    ensures forall i, j :: 0 <= i < j < |s| ==> s[i].from < s[j].from && s[i].to < s[j].to && s[i].to < s[j].from
    ensures forall i :: 0 <= i < |s| ==> start <= s[i].from <= s[i].to < End(s, start)
    ensures NonEmptyRanges(s) && start <= End(s, start)
  {
    forall i | 0 <= i < |s|
      ensures start <= s[i].from <= s[i].to < End(s, start)
      ensures forall j :: i < j < |s| ==> s[i].to < s[j].from <= s[j].to
    {
      ContiguousAt(s, start, i);
    }
  }

  lemma {:induction false} ContiguousConcat(s: seq<ChainObject>, t: seq<ChainObject>, start: nat)
    requires Contiguous(s, start)
    ensures Contiguous(s + t, start) <==> Contiguous(t, End(s, start))
    ensures End(s + t, start) == End(t, End(s, start))
  {
    if s == [] {
      assert s + t == t;
    } else {
      assert (s + t)[1..] == s[1..] + t;
      ContiguousConcat(s[1..], t, s[0].to + 1);
    }
  }

  lemma {:induction false} ContiguousTiles(s: seq<ChainObject>, start: nat, p: nat)
    requires Contiguous(s, start)
    ensures start <= End(s, start)
    ensures Cover(s, p) == if start <= p < End(s, start) then 1 else 0
  {
    if s != [] {
      ContiguousTiles(s[1..], s[0].to + 1, p);
    }
  }

  lemma {:induction false} TilesIsContiguous(s: seq<ChainObject>, start: nat, end: nat)
    requires NonEmptyRanges(s) && Ordered(s, false) && Tiles(s, start, end) && start <= end
    ensures Contiguous(s, start) && End(s, start) == end
  {
    if s == [] {
      assert start < end ==> Cover(s, start) == 1;
    } else {
      var head, rest := s[0], s[1..];
      CoverOfMember(s, 0, head.from);
      CoverOfMember(s, 0, head.to);
      assert Cover(s, head.from) == 1 && Cover(s, head.to) == 1;
      assert forall i :: 0 <= i < |s| ==> Key(head, false) <= Key(s[i], false);
      if start < head.from {
        CoverAbove(s, start);
      }
      assert Cover(s, start) == 1;
      assert head.from == start && head.to < end;
      forall p: nat
        ensures Cover(rest, p) == if head.to + 1 <= p < end then 1 else 0
      {
        assert Cover(s, p) == if start <= p < end then 1 else 0;
      }
      TilesIsContiguous(rest, head.to + 1, end);
    }
  }

  // ---------- snapshot chains ----------

  function FirstOverlap(s: seq<ChainObject>, previous: Option<nat>): Option<ChainError> {
    if s == [] then None
    else if previous.Some? && s[0].from <= previous.value then Some(Overlap(s[0].name))
    else FirstOverlap(s[1..], Some(s[0].to))
  }

  /** Ranges ascend and do not overlap; gaps are allowed. */
  ghost predicate Apart(s: seq<ChainObject>) {
    && NonEmptyRanges(s)
    && forall i :: 0 < i < |s| ==> s[i - 1].to < s[i].from
  }

  lemma {:induction false} NoOverlapIsApart(s: seq<ChainObject>, previous: Option<nat>)
    requires NonEmptyRanges(s)
    ensures FirstOverlap(s, previous) == None
            <==> Apart(s) && (s != [] && previous.Some? ==> previous.value < s[0].from)
  {
    if s != [] {
      var rest := s[1..];
      NoOverlapIsApart(rest, Some(s[0].to));
      assert forall i :: 0 <= i < |rest| ==> rest[i] == s[i + 1];
      if FirstOverlap(s, previous) == None {
        forall i | 0 < i < |s|
          ensures s[i - 1].to < s[i].from
        {
          assert s[i] == rest[i - 1];
          if i > 1 {
            assert s[i - 1] == rest[i - 2];
          }
        }
      }
    }
  }

  lemma {:induction false} ApartAscends(s: seq<ChainObject>, i: nat, j: nat)
    requires Apart(s) && i < j < |s|
    ensures s[i].to < s[j].from && s[i].to < s[j].to && s[i].from < s[j].from
    decreases j
  {
    if i < j - 1 {
      ApartAscends(s, i, j - 1);
    }
  }

  lemma {:induction false} ApartCoversOnce(s: seq<ChainObject>, p: nat)
    requires Apart(s)
    ensures Cover(s, p) <= 1
  {
    if s != [] {
      var rest := s[1..];
      assert forall i :: 0 <= i < |rest| ==> rest[i] == s[i + 1];
      ApartCoversOnce(rest, p);
      if s[0].from <= p <= s[0].to {
        forall i | 0 <= i < |rest|
          ensures p < rest[i].from
        {
          ApartAscends(s, 0, i + 1);
        }
        CoverAbove(rest, p);
      }
    }
  }

  lemma {:induction false} CoversOnceIsApart(s: seq<ChainObject>)
    requires NonEmptyRanges(s) && Ordered(s, true)
    requires forall p: nat :: Cover(s, p) <= 1
    ensures Apart(s)
  {
    forall i | 0 < i < |s|
      ensures s[i - 1].to < s[i].from
    {
      var p, before, rest := s[i - 1].to, s[..i - 1], s[i - 1..];
      assert s == before + rest;
      CoverOfConcat(before, rest, p);
      assert rest[1..][0] == s[i];
      assert Key(s[i - 1], true) <= Key(s[i], true);
      if s[i].from <= p {
        CoverOfMember(rest[1..], 0, p);
      }
      assert Cover(s, p) <= 1;
    }
  }

  // ---------- planning a restore ----------

  ghost predicate KeyHeld(o: ChainObject, keyring: Option<set<string>>) {
    o.keyId.Some? ==> keyring.Some? && o.keyId.value in keyring.value
  }

  /** The key ids the keyring lacks, each once, in the order first met. */
  function Missing(s: seq<ChainObject>, keyring: Option<set<string>>): seq<string> {
    if s == [] then []
    else
      var ids, o := Missing(s[..|s| - 1], keyring), s[|s| - 1];
      if o.keyId.None? || (keyring.Some? && o.keyId.value in keyring.value) || o.keyId.value in ids then ids
      else ids + [o.keyId.value]
  }

  lemma {:induction false} NothingMissing(s: seq<ChainObject>, keyring: Option<set<string>>)
    ensures Missing(s, keyring) == [] <==> forall o :: o in s ==> KeyHeld(o, keyring)
    ensures forall id :: id in Missing(s, keyring)
                         <==> exists o :: o in s && o.keyId == Some(id) && !KeyHeld(o, keyring)
  {
    if s != [] {
      var init := s[..|s| - 1];
      NothingMissing(init, keyring);
      assert s == init + [s[|s| - 1]];
      assert forall o :: o in s <==> o in init || o == s[|s| - 1];
    }
  }

  /** What is wrong with objects in chain order: the start, then a break, then the keys. */
  function Refusal(sorted: seq<ChainObject>, start: nat, keyring: Option<set<string>>): Option<ChainError>
    requires sorted != []
  {
    if sorted[0].from != start then Some(WrongStart(sorted[0].from))
    else if FirstBreak(sorted, start).Some? then FirstBreak(sorted, start)
    else
      var missing := Missing(sorted, keyring);
      if missing != [] then Some(MissingKeys(missing)) else None
  }

  /** A validated listing, in chain order. */
  function Plan(
      names: seq<string>, ext: string, start: nat, keyring: Option<set<string>>): Result<seq<ChainObject>, ChainError>
  {
    match ParseAll(names, ext, false)
    case Err(e) => Err(e)
    case Ok(objects) =>
      var sorted := Sorted(objects, false);
      if sorted == [] then Err(NoObjects)
      else
        match Refusal(sorted, start, keyring)
        case Some(e) => Err(e)
        case None => Ok(sorted)
  }

  method PlanChain(names: seq<string>, ext: string, start: nat, keyring: Option<set<string>>)
    returns (r: Result<seq<ChainObject>, ChainError>)
    ensures r == Plan(names, ext, start, keyring)
  {
    var parsed := ParseNames(names, ext, false);
    if parsed.Err? {
      return Err(parsed.error);
    }
    var objects := parsed.value;
    SortedIsOrdered(objects, false);
    if objects == [] {
      return Err(NoObjects);
    }
    var first := LeastFrom(objects);
    LeastIsFirst(objects, Sorted(objects, false), first);
    objects := Sorted(objects, false);
    if first != start {
      return Err(WrongStart(first));
    }
    var broken := ScanForBreak(objects, start);
    if broken.Some? {
      return Err(broken.value);
    }
    var missing := MissingKeyIds(objects, keyring);
    if missing != [] {
      return Err(MissingKeys(missing));
    }
    return Ok(objects);
  }

  method ParseNames(names: seq<string>, ext: string, own: bool) returns (r: Result<seq<ChainObject>, ChainError>)
    ensures r == ParseAll(names, ext, own)
  {
    var objects: seq<ChainObject> := [];
    for i := 0 to |names|
      invariant ParseAll(names[..i], ext, own) == Ok(objects)
    {
      var parsed := ParseObject(names[i], ext, own);
      assert names[..i + 1][..i] == names[..i];
      if parsed.Err? {
        ParseAllStops(names, i + 1, ext, own);
        return Err(parsed.error);
      }
      objects := objects + [parsed.value];
    }
    assert names[..|names|] == names;
    return Ok(objects);
  }

  method LeastFrom(objects: seq<ChainObject>) returns (first: nat)
    requires objects != []
    ensures exists k :: 0 <= k < |objects| && objects[k].from == first
    ensures forall k :: 0 <= k < |objects| ==> first <= objects[k].from
  {
    first := objects[0].from;
    for i := 1 to |objects|
      invariant exists k :: 0 <= k < i && objects[k].from == first
      invariant forall k :: 0 <= k < i ==> first <= objects[k].from
    {
      if objects[i].from < first {
        first := objects[i].from;
      }
    }
  }

  method ScanForBreak(objects: seq<ChainObject>, start: nat) returns (r: Option<ChainError>)
    ensures r == FirstBreak(objects, start)
  {
    var expected: nat := start;
    for i := 0 to |objects|
      invariant FirstBreak(objects, start) == FirstBreak(objects[i..], expected)
    {
      var o := objects[i];
      assert objects[i..][0] == o && objects[i..][1..] == objects[i + 1..];
      if o.from > expected {
        return Some(Gap(expected, o.from - 1));
      }
      if o.from < expected {
        return Some(Overlap(o.name));
      }
      expected := o.to + 1;
    }
    return None;
  }

  method MissingKeyIds(objects: seq<ChainObject>, keyring: Option<set<string>>) returns (missing: seq<string>)
    ensures missing == Missing(objects, keyring)
  {
    missing := [];
    for i := 0 to |objects|
      invariant missing == Missing(objects[..i], keyring)
    {
      assert objects[..i + 1][..i] == objects[..i];
      var id := objects[i].keyId;
      if id.Some? && !(keyring.Some? && id.value in keyring.value) && id.value !in missing {
        missing := missing + [id.value];
      }
    }
    assert objects[..|objects|] == objects;
  }

  lemma {:induction false} ParseAllStops(names: seq<string>, n: nat, ext: string, own: bool)
    requires n <= |names| && ParseAll(names[..n], ext, own).Err?
    ensures ParseAll(names, ext, own) == ParseAll(names[..n], ext, own)
    decreases |names|
  {
    if n == |names| {
      assert names[..n] == names;
    } else {
      assert names[..|names| - 1][..n] == names[..n];
      ParseAllStops(names[..|names| - 1], n, ext, own);
    }
  }

  lemma {:induction false} LeastIsFirst(s: seq<ChainObject>, sorted: seq<ChainObject>, first: nat)
    requires multiset(s) == multiset(sorted) && Ordered(sorted, false) && s != []
    requires exists k :: 0 <= k < |s| && s[k].from == first
    requires forall k :: 0 <= k < |s| ==> first <= s[k].from
    ensures sorted != [] && sorted[0].from == first
  {
    var k :| 0 <= k < |s| && s[k].from == first;
    assert s[k] in multiset(sorted);
    var j :| 0 <= j < |sorted| && sorted[j] == s[k];
    assert sorted[0] in multiset(s);
    assert Key(sorted[0], false) <= Key(sorted[j], false);
  }

  lemma {:induction false} ParsedRanges(names: seq<string>, ext: string, own: bool)
    requires ParseAll(names, ext, own).Ok?
    ensures NonEmptyRanges(ParseAll(names, ext, own).value) && |ParseAll(names, ext, own).value| == |names|
  {
    if names != [] {
      ParsedRanges(names[..|names| - 1], ext, own);
    }
  }

  lemma {:induction false} SortedKeepsRanges(s: seq<ChainObject>, byEnd: bool)
    requires NonEmptyRanges(s)
    ensures NonEmptyRanges(Sorted(s, byEnd))
    ensures forall p: nat :: Cover(Sorted(s, byEnd), p) == Cover(s, p)
    ensures forall o :: o in Sorted(s, byEnd) <==> o in s
  {
    var t := Sorted(s, byEnd);
    SortedIsOrdered(s, byEnd);
    forall o
      ensures o in t <==> o in s
    {
      assert o in multiset(t) <==> o in multiset(s);
    }
    forall i | 0 <= i < |t|
      ensures t[i].from <= t[i].to
    {
      assert t[i] in s;
    }
    forall p: nat
      ensures Cover(t, p) == Cover(s, p)
    {
      CoverOfPermutation(t, s, p);
    }
  }

  /** A plan is made exactly of the listings whose objects tile one range from
      the declared start, with every key they name held; the order of the
      listing is irrelevant. */
  lemma {:induction false} PlansExactlyTilings(
      names: seq<string>, ext: string, start: nat, keyring: Option<set<string>>)
    ensures Plan(names, ext, start, keyring).Ok?
            <==> && ParseAll(names, ext, false).Ok?
                 && names != []
                 && (exists end :: start <= end && Tiles(ParseAll(names, ext, false).value, start, end))
                 && (forall o :: o in ParseAll(names, ext, false).value ==> KeyHeld(o, keyring))
  {
    if ParseAll(names, ext, false).Ok? && names != [] {
      var objects := ParseAll(names, ext, false).value;
      ParsedRanges(names, ext, false);
      SortedIsOrdered(objects, false);
      SortedKeepsRanges(objects, false);
      var sorted := Sorted(objects, false);
      NoBreakIsContiguous(sorted, start);
      NothingMissing(sorted, keyring);
      if Contiguous(sorted, start) {
        forall p: nat
          ensures Cover(objects, p) == if start <= p < End(sorted, start) then 1 else 0
        {
          ContiguousTiles(sorted, start, p);
          assert Cover(sorted, p) == Cover(objects, p);
        }
        ContiguousTiles(sorted, start, 0);
        assert Tiles(objects, start, End(sorted, start));
      }
      if end :| start <= end && Tiles(objects, start, end) {
        forall p: nat
          ensures Cover(sorted, p) == if start <= p < end then 1 else 0
        {
          assert Cover(sorted, p) == Cover(objects, p);
        }
        TilesIsContiguous(sorted, start, end);
      }
    } else if names == [] {
      assert Sorted([], false) == [];
    }
  }

  ghost predicate AllParse(names: seq<string>, ext: string) {
    forall i :: 0 <= i < |names| ==> ParseObject(names[i], ext, false).Ok?
  }

  /** A listed object. */
  ghost predicate IsListed(names: seq<string>, ext: string, o: ChainObject) {
    exists i :: 0 <= i < |names| && ParseObject(names[i], ext, false) == Ok(o)
  }

  /** The first name of a listing that is refused on its own. */
  ghost predicate IsFirstRefused(names: seq<string>, ext: string, e: ChainError) {
    exists i :: 0 <= i < |names| && ParseObject(names[i], ext, false) == Err(e) && AllParse(names[..i], ext)
  }

  lemma {:induction false} ParseAllListed(names: seq<string>, ext: string)
    ensures match ParseAll(names, ext, false)
            case Err(e) => IsFirstRefused(names, ext, e)
            case Ok(objects) => AllParse(names, ext) && forall o :: o in objects <==> IsListed(names, ext, o)
    decreases |names|
  {
    hide ParseObject;
    if names != [] {
      var n := |names| - 1;
      var init := names[..n];
      ParseAllListed(init, ext);
      match ParseAll(init, ext, false)
      case Err(e) =>
        var i :| 0 <= i < n && ParseObject(init[i], ext, false) == Err(e) && AllParse(init[..i], ext);
        assert names[..i] == init[..i];
      case Ok(objects) =>
        if ParseObject(names[n], ext, false).Ok? {
          ListedSnoc(init, names[n], ext);
          assert names == init + [names[n]];
        }
    }
  }

  lemma {:induction false} ListedSnoc(names: seq<string>, name: string, ext: string)
    requires ParseObject(name, ext, false).Ok?
    ensures forall o :: IsListed(names + [name], ext, o)
                        <==> IsListed(names, ext, o) || o == ParseObject(name, ext, false).value
  {
    hide ParseObject;
    var all := names + [name];
    assert all[|names|] == name;
    forall o | IsListed(names, ext, o)
      ensures IsListed(all, ext, o)
    {
      var i :| 0 <= i < |names| && ParseObject(names[i], ext, false) == Ok(o);
      assert all[i] == names[i];
    }
  }

  /** What a refusal says of a listing: the first name that is no object, or whose range is
      reversed; that nothing is listed; where the first object starts, if not at the start;
      positions in no object, just before one; an object that starts inside another; the keys
      that objects name and the keyring lacks. */
  ghost predicate IsTrueRefusal(
      e: ChainError, names: seq<string>, ext: string, start: nat, keyring: Option<set<string>>)
  {
    match e
    case OtherFormat(_) => false
    case NotAnObject(name) => IsFirstRefused(names, ext, e) && ParseBlobName(name, ext).None?
    case ToBelowFrom(name) =>
      && IsFirstRefused(names, ext, e)
      && ParseBlobName(name, ext).Some? && ParseBlobName(name, ext).value.to < ParseBlobName(name, ext).value.from
    case NoObjects => names == []
    case WrongStart(first) =>
      && AllParse(names, ext) && first != start
      && (exists o :: IsListed(names, ext, o) && o.from == first)
      && forall o :: IsListed(names, ext, o) ==> first <= o.from
    case Gap(_, _) => ParseAll(names, ext, false).Ok? && IsTrueOf(e, ParseAll(names, ext, false).value)
    case Overlap(_) => ParseAll(names, ext, false).Ok? && IsTrueOf(e, ParseAll(names, ext, false).value)
    case MissingKeys(ids) =>
      && AllParse(names, ext) && ids != []
      && forall id :: id in ids
                      <==> exists o :: IsListed(names, ext, o) && o.keyId == Some(id) && !KeyHeld(o, keyring)
  }

  /** What a refusal names is true. */
  lemma {:induction false} RefusalsAreTrue(names: seq<string>, ext: string, start: nat, keyring: Option<set<string>>)
    ensures match Plan(names, ext, start, keyring)
            case Ok(_) => true
            case Err(e) => IsTrueRefusal(e, names, ext, start, keyring)
  {
    hide ParseObject, ParseBlobName, ParseAll, AllParse, IsListed, IsTrueOf, KeyHeld, IsFirstRefused, Refusal, Sorted,
         Ordered, NonEmptyRanges, Cover;
    ParseAllListed(names, ext);
    match ParseAll(names, ext, false)
    case Err(e) => FirstRefusedIsTrue(names, ext, e);
    case Ok(objects) =>
      ParsedRanges(names, ext, false);
      SortedKeepsRanges(objects, false);
      SortedIsOrdered(objects, false);
      if names != [] {
        NonEmptySorts(objects, Sorted(objects, false));
        RefusalIsTrue(Sorted(objects, false), objects, start, keyring);
      }
  }

  lemma {:induction false} NonEmptySorts(s: seq<ChainObject>, t: seq<ChainObject>)
    requires s != [] && forall o :: o in t <==> o in s
    ensures t != []
  {
    assert s[0] in s;
  }

  lemma {:induction false} RefusalIsTrue(
      sorted: seq<ChainObject>, objects: seq<ChainObject>, start: nat, keyring: Option<set<string>>)
    requires sorted != [] && NonEmptyRanges(sorted) && Ordered(sorted, false)
    requires (forall p: nat :: Cover(sorted, p) == Cover(objects, p)) && forall o :: o in sorted <==> o in objects
    ensures match Refusal(sorted, start, keyring)
            case None => true
            case Some(WrongStart(first)) =>
              && first != start
              && (exists o :: o in objects && o.from == first) && forall o :: o in objects ==> first <= o.from
            case Some(MissingKeys(ids)) =>
              && ids != []
              && forall id :: id in ids <==> exists o :: o in objects && o.keyId == Some(id) && !KeyHeld(o, keyring)
            case Some(e) => (e.Gap? || e.Overlap?) && IsTrueOf(e, objects)
  {
    hide KeyHeld, IsTrueOf, Ordered;
    if sorted[0].from != start {
      FirstIsLeast(sorted);
      assert sorted[0] in sorted;
    } else if FirstBreak(sorted, start).None? {
      NothingMissing(sorted, keyring);
    } else {
      BreakIsTrue([], sorted, start);
      assert [] + sorted == sorted;
      BreakIsGapOrOverlap(sorted, start);
      BreakCarriesOver(FirstBreak(sorted, start).value, sorted, objects);
    }
  }

  lemma {:induction false} BreakIsGapOrOverlap(s: seq<ChainObject>, expected: nat)
    requires FirstBreak(s, expected).Some?
    ensures FirstBreak(s, expected).value.Gap? || FirstBreak(s, expected).value.Overlap?
    decreases |s|
  {
    if s[0].from == expected {
      BreakIsGapOrOverlap(s[1..], s[0].to + 1);
    }
  }

  lemma {:induction false} FirstRefusedIsTrue(names: seq<string>, ext: string, e: ChainError)
    requires IsFirstRefused(names, ext, e)
    ensures e.NotAnObject? || e.ToBelowFrom?
    ensures e.NotAnObject? ==> ParseBlobName(e.name, ext).None?
    ensures e.ToBelowFrom? ==>
              && ParseBlobName(e.name, ext).Some?
              && ParseBlobName(e.name, ext).value.to < ParseBlobName(e.name, ext).value.from
  {
    hide ParseBlobName;
    var i :| 0 <= i < |names| && ParseObject(names[i], ext, false) == Err(e);
  }

  lemma {:induction false} FirstIsLeast(s: seq<ChainObject>)
    requires Ordered(s, false) && s != []
    ensures forall o :: o in s ==> s[0].from <= o.from
  {
    forall o | o in s
      ensures s[0].from <= o.from
    {
      var i :| 0 <= i < |s| && s[i] == o;
      assert Key(s[0], false) <= Key(s[i], false);
    }
  }

  ghost predicate IsTrueOf(e: ChainError, s: seq<ChainObject>) {
    match e
    case Gap(first, last) =>
      && first <= last && (forall p: nat :: first <= p <= last ==> Cover(s, p) == 0)
      && exists o :: o in s && o.from == last + 1
    case Overlap(name) => exists o :: o in s && o.name == name && Cover(s, o.from) >= 2
    case _ => false
  }

  lemma {:induction false} BreakCarriesOver(e: ChainError, s: seq<ChainObject>, t: seq<ChainObject>)
    requires IsTrueOf(e, s) && (forall p: nat :: Cover(s, p) == Cover(t, p)) && forall o :: o in s <==> o in t
    ensures IsTrueOf(e, t)
  {
    if e.Overlap? {
      var o :| o in s && o.name == e.name && Cover(s, o.from) >= 2;
      assert o in t && Cover(t, o.from) >= 2;
    }
  }

  lemma {:induction false} BreakIsTrue(done: seq<ChainObject>, s: seq<ChainObject>, expected: nat)
    requires NonEmptyRanges(done + s) && Ordered(s, false)
    requires forall i :: 0 <= i < |done| ==> done[i].to < expected
    requires done != [] ==> done[|done| - 1].to + 1 == expected
    requires done == [] && s != [] ==> s[0].from == expected
    requires done != [] && s != [] ==> done[|done| - 1].from <= s[0].from
    ensures FirstBreak(s, expected).Some? ==> IsTrueOf(FirstBreak(s, expected).value, done + s)
    decreases |s|
  {
    if s != [] {
      if s[0].from > expected {
        forall p: nat | expected <= p < s[0].from
          ensures Cover(done + s, p) == 0
        {
          CoverOfConcat(done, s, p);
          CoverBelow(done, p);
          assert forall i :: 0 <= i < |s| ==> Key(s[0], false) <= Key(s[i], false);
          CoverAbove(s, p);
        }
        assert s[0] in done + s;
      } else if s[0].from < expected {
        var last := |done| - 1;
        var p := s[0].from;
        CoverOfConcat(done, s, p);
        CoverOfMember(done, last, p);
        assert (done + s)[|done|] == s[0];
        CoverOfMember(s, 0, p);
        assert s[0] in done + s;
      } else {
        assert done + s == (done + [s[0]]) + s[1..];
        assert (done + s)[|done|] == s[0];
        assert s[1..] != [] ==> Key(s[0], false) <= Key(s[1], false);
        assert forall i :: 0 <= i < |done + [s[0]]| ==> (done + [s[0]])[i].to < s[0].to + 1;
        BreakIsTrue(done + [s[0]], s[1..], s[0].to + 1);
      }
    }
  }

  lemma {:induction false} CoverBelow(s: seq<ChainObject>, p: nat)
    requires forall i :: 0 <= i < |s| ==> s[i].to < p
    ensures Cover(s, p) == 0
  {
    if s != [] {
      CoverBelow(s[1..], p);
    }
  }

  // ---------- opening a destination again ----------

  function Names(s: seq<ChainObject>): seq<string> {
    seq(|s|, i requires 0 <= i < |s| => s[i].name)
  }

  function TailOf(s: seq<ChainObject>): seq<string> {
    Names(s[if |s| > 2 then |s| - 2 else 0..])
  }

  /** A listing as a sink reads it: an append chain from 0, or a chain of snapshots. */
  function Validate(names: seq<string>, ext: string, snapshots: bool): Result<Listing, ChainError> {
    match ParseAll(names, ext, true)
    case Err(e) => Err(e)
    case Ok(objects) =>
      var sorted := Sorted(objects, snapshots);
      match if snapshots then FirstOverlap(sorted, None) else FirstBreak(sorted, 0)
      case Some(e) => Err(e)
      case None =>
        Ok(Listing(
             End(sorted, 0),
             if snapshots && sorted != [] then Some(sorted[|sorted| - 1].name) else None,
             TailOf(sorted)))
  }

  method ValidateChain(names: seq<string>, ext: string, snapshots: bool) returns (r: Result<Listing, ChainError>)
    ensures r == Validate(names, ext, snapshots)
  {
    var parsed := ParseNames(names, ext, true);
    if parsed.Err? {
      return Err(parsed.error);
    }
    var entries := Sorted(parsed.value, snapshots);
    if snapshots {
      r := ValidateSnapshots(entries);
    } else {
      r := ValidateAppend(entries);
    }
  }

  method ValidateAppend(entries: seq<ChainObject>) returns (r: Result<Listing, ChainError>)
    ensures match FirstBreak(entries, 0)
            case Some(e) => r == Err(e)
            case None => r == Ok(Listing(End(entries, 0), None, TailOf(entries)))
  {
    var expected: nat := 0;
    for i := 0 to |entries|
      invariant FirstBreak(entries, 0) == FirstBreak(entries[i..], expected)
      invariant expected == if i == 0 then 0 else entries[i - 1].to + 1
    {
      var e := entries[i];
      assert entries[i..][0] == e && entries[i..][1..] == entries[i + 1..];
      if e.from != expected {
        return Err(if e.from > expected then Gap(expected, e.from - 1) else Overlap(e.name));
      }
      expected := e.to + 1;
    }
    return Ok(Listing(expected, None, TailOf(entries)));
  }

  method ValidateSnapshots(entries: seq<ChainObject>) returns (r: Result<Listing, ChainError>)
    ensures match FirstOverlap(entries, None)
            case Some(e) => r == Err(e)
            case None =>
              r == Ok(Listing(
                        End(entries, 0),
                        if entries == [] then None else Some(entries[|entries| - 1].name),
                        TailOf(entries)))
  {
    var previous: Option<nat> := None;
    for i := 0 to |entries|
      invariant FirstOverlap(entries, None) == FirstOverlap(entries[i..], previous)
      invariant previous == if i == 0 then None else Some(entries[i - 1].to)
    {
      var e := entries[i];
      assert entries[i..][0] == e && entries[i..][1..] == entries[i + 1..];
      if previous.Some? && e.from <= previous.value {
        return Err(Overlap(e.name));
      }
      previous := Some(e.to);
    }
    return Ok(Listing(
                if previous.Some? then previous.value + 1 else 0,
                if entries == [] then None else Some(entries[|entries| - 1].name),
                TailOf(entries)));
  }

  /** An append destination opens exactly when its objects tile the positions from 0; it continues where they end. */
  lemma {:induction false} AppendOpensExactlyTilings(names: seq<string>, ext: string)
    ensures Validate(names, ext, false).Ok?
            <==> && ParseAll(names, ext, true).Ok?
                 && exists end :: Tiles(ParseAll(names, ext, true).value, 0, end)
    ensures Validate(names, ext, false).Ok?
            ==> Tiles(ParseAll(names, ext, true).value, 0, Validate(names, ext, false).value.durable)
  {
    if ParseAll(names, ext, true).Ok? {
      var objects := ParseAll(names, ext, true).value;
      var sorted := Sorted(objects, false);
      ParsedRanges(names, ext, true);
      SortedIsOrdered(objects, false);
      SortedKeepsRanges(objects, false);
      NoBreakIsContiguous(sorted, 0);
      if Contiguous(sorted, 0) {
        forall p: nat
          ensures Cover(objects, p) == if 0 <= p < End(sorted, 0) then 1 else 0
        {
          ContiguousTiles(sorted, 0, p);
          assert Cover(sorted, p) == Cover(objects, p);
        }
        assert Tiles(objects, 0, End(sorted, 0));
      }
      if end :| Tiles(objects, 0, end) {
        forall p: nat
          ensures Cover(sorted, p) == if 0 <= p < end then 1 else 0
        {
          assert Cover(sorted, p) == Cover(objects, p);
        }
        TilesIsContiguous(sorted, 0, end);
      }
    }
  }

  /** A snapshot destination opens exactly when no position is in two objects; it continues after the last. */
  lemma {:induction false} SnapshotsOpenExactlyApart(names: seq<string>, ext: string)
    ensures Validate(names, ext, true).Ok?
            <==> && ParseAll(names, ext, true).Ok?
                 && forall p: nat :: Cover(ParseAll(names, ext, true).value, p) <= 1
    ensures Validate(names, ext, true).Ok?
            ==> var objects, durable := ParseAll(names, ext, true).value, Validate(names, ext, true).value.durable;
                && (forall p: nat :: p >= durable ==> Cover(objects, p) == 0)
                && (durable > 0 ==> Cover(objects, durable - 1) == 1)
  {
    if ParseAll(names, ext, true).Ok? {
      var objects := ParseAll(names, ext, true).value;
      ParsedRanges(names, ext, true);
      assert FirstOverlap(Sorted(objects, true), None) == None <==> Apart(Sorted(objects, true)) by {
        SortedKeepsRanges(objects, true);
        NoOverlapIsApart(Sorted(objects, true), None);
      }
      SortedApart(objects);
    }
  }

  lemma {:induction false} SortedApart(objects: seq<ChainObject>)
    requires NonEmptyRanges(objects)
    ensures var sorted := Sorted(objects, true);
            if Apart(sorted) then
              && (forall p: nat :: Cover(objects, p) <= 1)
              && (forall p: nat :: p >= End(sorted, 0) ==> Cover(objects, p) == 0)
              && (End(sorted, 0) > 0 ==> Cover(objects, End(sorted, 0) - 1) == 1)
            else exists p: nat :: Cover(objects, p) > 1
  {
    var sorted := Sorted(objects, true);
    SortedKeepsRanges(objects, true);
    if Apart(sorted) {
      ApartEnds(sorted);
    } else {
      SortedIsOrdered(objects, true);
      NotApartCoversTwice(sorted);
      var p: nat :| Cover(sorted, p) > 1;
      assert Cover(objects, p) > 1;
    }
  }

  lemma {:induction false} NotApartCoversTwice(s: seq<ChainObject>)
    requires NonEmptyRanges(s) && Ordered(s, true) && !Apart(s)
    ensures exists p: nat :: Cover(s, p) > 1
  {
    if forall p: nat :: Cover(s, p) <= 1 {
      CoversOnceIsApart(s);
    }
  }

  lemma {:induction false} ApartEnds(s: seq<ChainObject>)
    requires Apart(s)
    ensures forall p: nat :: Cover(s, p) <= 1
    ensures forall p: nat :: p >= End(s, 0) ==> Cover(s, p) == 0
    ensures End(s, 0) > 0 ==> Cover(s, End(s, 0) - 1) == 1
  {
    forall p: nat
      ensures Cover(s, p) <= 1
    {
      ApartCoversOnce(s, p);
    }
    forall i | 0 <= i < |s|
      ensures s[i].to < End(s, 0)
    {
      if i < |s| - 1 {
        ApartAscends(s, i, |s| - 1);
      }
    }
    forall p: nat | p >= End(s, 0)
      ensures Cover(s, p) == 0
    {
      CoverBelow(s, p);
    }
    if s != [] {
      CoverOfMember(s, |s| - 1, End(s, 0) - 1);
      ApartCoversOnce(s, End(s, 0) - 1);
    }
  }

  // ---------- listings of written objects ----------

  /** An object under the name this mirror writes for its range. */
  ghost predicate Written(o: ChainObject, ext: string) {
    && o.name == BlobFilename(o.from, o.to, o.keyId, ext)
    && o.from <= o.to < TWO_64
    && (o.keyId.Some? ==> IsKeyId(o.keyId.value))
  }

  ghost predicate AllWritten(s: seq<ChainObject>, ext: string) {
    forall i :: 0 <= i < |s| ==> Written(s[i], ext)
  }

  /** `names` are the names of `s`, in any order. */
  ghost predicate Lists(names: seq<string>, s: seq<ChainObject>) {
    multiset(names) == multiset(Names(s))
  }

  lemma {:induction false} WrittenParses(o: ChainObject, ext: string, own: bool)
    requires Written(o, ext) && IsExtension(ext)
    ensures ParseObject(o.name, ext, own) == Ok(o)
  {
    NameRoundTrip(o.from, o.to, o.keyId, ext);
    ExtensionOfWritten(o.from, o.to, o.keyId, ext);
  }

  lemma {:induction false} NamesOfConcat(a: seq<ChainObject>, b: seq<ChainObject>)
    ensures Names(a + b) == Names(a) + Names(b)
  {
  }

  lemma {:induction false} NamesTakeOut(s: seq<ChainObject>, i: nat)
    requires i < |s|
    ensures multiset(Names(s[..i] + s[i + 1..])) == multiset(Names(s)) - multiset{s[i].name}
  {
    var names := Names(s);
    assert Names(s[..i] + s[i + 1..]) == names[..i] + names[i + 1..];
    TakeOut(names, i);
  }

  /** A listed name, and the listing of the other objects. */
  lemma {:induction false} TakeOutListed(names: seq<string>, s: seq<ChainObject>) returns (i: nat)
    requires Lists(names, s) && names != []
    ensures i < |s| && s[i].name == names[|names| - 1]
    ensures Lists(names[..|names| - 1], s[..i] + s[i + 1..])
  {
    var last, all := |names| - 1, Names(s);
    assert names[last] in multiset(all);
    i :| 0 <= i < |all| && all[i] == names[last];
    NamesTakeOut(s, i);
    TakeOut(names, last);
    assert names[..last] + names[last + 1..] == names[..last];
  }

  /** A listing of written objects parses to them. */
  lemma {:induction false} ListingParses(names: seq<string>, s: seq<ChainObject>, ext: string, own: bool)
    requires AllWritten(s, ext) && IsExtension(ext) && Lists(names, s)
    ensures ParseAll(names, ext, own).Ok?
    ensures multiset(ParseAll(names, ext, own).value) == multiset(s)
  {
    if names == [] {
      assert |multiset(Names(s))| == 0;
    } else {
      var i := TakeOutListed(names, s);
      var rest := s[..i] + s[i + 1..];
      ListingParses(names[..|names| - 1], rest, ext, own);
      WrittenParses(s[i], ext, own);
      PutBack(s, i);
    }
  }

  lemma {:induction false} PutBack<T>(s: seq<T>, i: nat)
    requires i < |s|
    ensures multiset(s[..i] + s[i + 1..]) + multiset{s[i]} == multiset(s)
  {
    assert s == s[..i] + ([s[i]] + s[i + 1..]);
  }

  /** Whatever order a store lists them in, a chain's objects are put back in chain order. */
  lemma {:induction false} ListingSorts(names: seq<string>, s: seq<ChainObject>, ext: string, own: bool, byEnd: bool)
    requires AllWritten(s, ext) && IsExtension(ext) && Lists(names, s)
    requires forall i, j :: 0 <= i < j < |s| ==> Key(s[i], byEnd) < Key(s[j], byEnd)
    ensures ParseAll(names, ext, own).Ok?
    ensures Sorted(ParseAll(names, ext, own).value, byEnd) == s
  {
    ListingParses(names, s, ext, own);
    var objects := ParseAll(names, ext, own).value;
    SortedIsOrdered(objects, byEnd);
    OrderIsUnique(Sorted(objects, byEnd), s, byEnd);
  }

  lemma {:induction false} ChainOpens(names: seq<string>, s: seq<ChainObject>, ext: string)
    requires AllWritten(s, ext) && IsExtension(ext) && Lists(names, s) && Contiguous(s, 0)
    ensures Validate(names, ext, false) == Ok(Listing(End(s, 0), None, TailOf(s)))
  {
    ContiguousIsStrictlyOrdered(s, 0);
    ListingSorts(names, s, ext, true, false);
    NoBreakIsContiguous(s, 0);
  }

  lemma {:induction false} SnapshotsOpen(names: seq<string>, s: seq<ChainObject>, ext: string)
    requires AllWritten(s, ext) && IsExtension(ext) && Lists(names, s) && Apart(s)
    ensures Validate(names, ext, true)
            == Ok(Listing(End(s, 0), if s == [] then None else Some(s[|s| - 1].name), TailOf(s)))
  {
    forall i, j | 0 <= i < j < |s|
      ensures Key(s[i], true) < Key(s[j], true)
    {
      ApartAscends(s, i, j);
    }
    ListingSorts(names, s, ext, true, true);
    NoOverlapIsApart(s, None);
  }

  lemma {:induction false} ChainPlans(
      names: seq<string>, s: seq<ChainObject>, ext: string, start: nat, keyring: Option<set<string>>)
    requires AllWritten(s, ext) && IsExtension(ext) && Lists(names, s) && Contiguous(s, start) && s != []
    ensures if forall o :: o in s ==> KeyHeld(o, keyring) then Plan(names, ext, start, keyring) == Ok(s)
            else Plan(names, ext, start, keyring).Err?
  {
    ContiguousIsStrictlyOrdered(s, start);
    ListingSorts(names, s, ext, false, false);
    NoBreakIsContiguous(s, start);
    NothingMissing(s, keyring);
  }

  // ---------- planning a growing directory ----------

  /** The names sorting after `last`, as the store lists them. */
  function ListedAfter(names: seq<string>, last: string): seq<string> {
    if names == [] then []
    else ListedAfter(names[..|names| - 1], last) + if Before(last, names[|names| - 1]) then [names[|names| - 1]] else []
  }

  lemma {:induction false} AfterAll(names: seq<string>, last: string)
    requires forall n :: n in names ==> Before(last, n)
    ensures ListedAfter(names, last) == names
  {
    if names != [] {
      AfterAll(names[..|names| - 1], last);
    }
  }

  lemma {:induction false} AfterNone(names: seq<string>, last: string)
    requires forall n :: n in names ==> !Before(last, n)
    ensures ListedAfter(names, last) == []
  {
    if names != [] {
      AfterNone(names[..|names| - 1], last);
    }
  }

  lemma {:induction false} AfterCounts(names: seq<string>, last: string, n: string)
    ensures multiset(ListedAfter(names, last))[n] == if Before(last, n) then multiset(names)[n] else 0
  {
    if names != [] {
      AfterCounts(names[..|names| - 1], last, n);
      assert names == names[..|names| - 1] + [names[|names| - 1]];
    }
  }

  /** The names a grown directory lists after the last planned object. */
  lemma {:induction false} AfterOfGrown(listed: seq<string>, added: seq<string>, grown: seq<string>, last: string)
    requires multiset(grown) == multiset(listed) + multiset(added)
    requires forall n :: n in listed ==> !Before(last, n)
    requires forall n :: n in added ==> Before(last, n)
    ensures multiset(ListedAfter(grown, last)) == multiset(added)
  {
    forall n
      ensures multiset(ListedAfter(grown, last))[n] == multiset(added)[n]
    {
      AfterCounts(grown, last, n);
      assert n in listed <==> multiset(listed)[n] > 0;
      assert n in added <==> multiset(added)[n] > 0;
    }
  }

  /** Names of later ranges sort later. */
  lemma {:induction false} LaterSortsAfter(a: ChainObject, b: ChainObject, ext: string)
    requires Written(a, ext) && Written(b, ext) && a.from != b.from
    ensures Before(a.name, b.name) <==> a.from < b.from
  {
    NameOrderIsRangeOrder(a.from, a.to, a.keyId, b.from, b.to, b.keyId, ext);
  }

  lemma {:induction false} NotBeforeItself(a: string)
    ensures !Before(a, a)
  {
    if a != "" {
      NotBeforeItself(a[1..]);
    }
  }

  /** What was planned of the growing directory so far, and what one listing of all of it plans. */
  function PlanMore(
      planned: seq<ChainObject>, grown: seq<string>, ext: string, start: nat, keyring: Option<set<string>>)
    : Result<seq<ChainObject>, ChainError>
    requires planned != []
  {
    var after := ListedAfter(grown, planned[|planned| - 1].name);
    if after == [] then Ok(planned)
    else
      match Plan(after, ext, End(planned, start), keyring)
      case Err(e) => Err(e)
      case Ok(more) => Ok(planned + more)
  }

  /** Planning what a grown directory lists after the last planned object gives
      the plan of the whole directory, and refuses exactly when that does,
      unless an object was added before the last planned one: then only the
      plan of the whole directory can tell. */
  lemma {:induction false} IncrementalPlanIsWholePlan(
      planned: seq<ChainObject>, listed: seq<string>, added: seq<ChainObject>, grown: seq<string>,
      ext: string, start: nat, keyring: Option<set<string>>)
    requires AllWritten(planned, ext) && AllWritten(added, ext) && IsExtension(ext) && planned != []
    requires Lists(listed, planned) && Plan(listed, ext, start, keyring) == Ok(planned)
    requires Lists(grown, planned + added)
    ensures var after := forall o :: o in added ==> Before(planned[|planned| - 1].name, o.name);
            && (Plan(grown, ext, start, keyring).Ok? <==> after && PlanMore(planned, grown, ext, start, keyring).Ok?)
            && (Plan(grown, ext, start, keyring).Ok?
                ==> Plan(grown, ext, start, keyring) == PlanMore(planned, grown, ext, start, keyring))
  {
    PlannedIsContiguous(listed, planned, ext, start, keyring);
    ContiguousIsStrictlyOrdered(planned, start);
    var last := planned[|planned| - 1];
    if forall o :: o in added ==> Before(last.name, o.name) {
      PlanMoreIsWholePlan(planned, added, grown, ext, start, keyring);
    } else if Plan(grown, ext, start, keyring).Ok? {
      WholePlanAddsAfter(planned, added, grown, ext, start, keyring);
      forall o | o in added
        ensures Before(last.name, o.name)
      {
        LaterSortsAfter(last, o, ext);
      }
    }
  }

  lemma {:induction false} PlannedIsContiguous(
      listed: seq<string>, planned: seq<ChainObject>, ext: string, start: nat, keyring: Option<set<string>>)
    requires Plan(listed, ext, start, keyring) == Ok(planned)
    ensures Contiguous(planned, start) && (forall o :: o in planned ==> KeyHeld(o, keyring)) && planned != []
  {
    ParsedRanges(listed, ext, false);
    SortedKeepsRanges(ParseAll(listed, ext, false).value, false);
    NoBreakIsContiguous(planned, start);
    NothingMissing(planned, keyring);
  }

  /** A plan of the whole directory leaves no room for an added object before the end of what was planned. */
  lemma {:induction false} WholePlanAddsAfter(
      planned: seq<ChainObject>, added: seq<ChainObject>, grown: seq<string>,
      ext: string, start: nat, keyring: Option<set<string>>)
    requires AllWritten(planned, ext) && AllWritten(added, ext) && IsExtension(ext)
    requires Contiguous(planned, start) && Lists(grown, planned + added)
    requires Plan(grown, ext, start, keyring).Ok?
    ensures forall o :: o in added ==> o.from >= End(planned, start)
  {
    hide BlobFilename, ParseAll, Plan, Contiguous, Names, Cover, IsExtension;
    ListingParses(grown, planned + added, ext, false);
    var all := ParseAll(grown, ext, false).value;
    PlansExactlyTilings(grown, ext, start, keyring);
    var end :| start <= end && Tiles(all, start, end);
    forall o | o in added
      ensures o.from >= End(planned, start)
    {
      var i :| 0 <= i < |added| && added[i] == o;
      NoRoomBelow(all, start, end, planned, added, i);
    }
  }

  lemma {:induction false} NoRoomBelow(
      all: seq<ChainObject>, start: nat, end: nat, planned: seq<ChainObject>, added: seq<ChainObject>, i: nat)
    requires Tiles(all, start, end) && multiset(all) == multiset(planned + added) && Contiguous(planned, start)
    requires i < |added| && added[i].from <= added[i].to
    ensures added[i].from >= End(planned, start)
  {
    var p := added[i].from;
    CoverOfPermutation(all, planned + added, p);
    CoverOfConcat(planned, added, p);
    CoverOfMember(added, i, p);
    ContiguousTiles(planned, start, p);
    assert Cover(all, p) <= 1;
    TilesFromStart(all, start, end, planned + added, |planned| + i);
  }

  lemma {:induction false} TilesFromStart(s: seq<ChainObject>, start: nat, end: nat, t: seq<ChainObject>, i: nat)
    requires Tiles(s, start, end) && multiset(s) == multiset(t)
    requires i < |t| && t[i].from <= t[i].to
    ensures start <= t[i].from
  {
    CoverOfMember(t, i, t[i].from);
    CoverOfPermutation(s, t, t[i].from);
    assert Cover(s, t[i].from) >= 1;
  }

  lemma {:induction false} PlanMoreIsWholePlan(
      planned: seq<ChainObject>, added: seq<ChainObject>, grown: seq<string>,
      ext: string, start: nat, keyring: Option<set<string>>)
    requires AllWritten(planned, ext) && AllWritten(added, ext) && IsExtension(ext) && planned != []
    requires Contiguous(planned, start) && (forall o :: o in planned ==> KeyHeld(o, keyring))
    requires Lists(grown, planned + added)
    requires forall o :: o in added ==> Before(planned[|planned| - 1].name, o.name)
    ensures Plan(grown, ext, start, keyring).Ok? <==> PlanMore(planned, grown, ext, start, keyring).Ok?
    ensures Plan(grown, ext, start, keyring).Ok?
            ==> Plan(grown, ext, start, keyring) == PlanMore(planned, grown, ext, start, keyring)
  {
    var after := ListedAfter(grown, planned[|planned| - 1].name);
    AfterListsAdded(planned, added, grown, ext, start);
    if after == [] {
      assert |multiset(after)| == |added|;
      assert planned + added == planned;
      ChainPlans(grown, planned, ext, start, keyring);
    } else {
      if Plan(grown, ext, start, keyring).Ok? {
        SplitPlan(planned, added, grown, ext, start, keyring);
      }
      if Plan(after, ext, End(planned, start), keyring).Ok? {
        JoinPlan(planned, added, after, grown, ext, start, keyring);
      }
    }
  }

  lemma {:induction false} AfterListsAdded(
      planned: seq<ChainObject>, added: seq<ChainObject>, grown: seq<string>, ext: string, start: nat)
    requires AllWritten(planned, ext) && Contiguous(planned, start) && planned != []
    requires Lists(grown, planned + added)
    requires forall o :: o in added ==> Before(planned[|planned| - 1].name, o.name)
    ensures Lists(ListedAfter(grown, planned[|planned| - 1].name), added)
  {
    NamesOfConcat(planned, added);
    NothingPlannedIsAfter(planned, ext, start);
    AfterOfGrown(Names(planned), Names(added), grown, planned[|planned| - 1].name);
  }

  /** The plan of what was added, after what was planned, is the whole plan. */
  lemma {:induction false} JoinPlan(
      planned: seq<ChainObject>, added: seq<ChainObject>, after: seq<string>, grown: seq<string>,
      ext: string, start: nat, keyring: Option<set<string>>)
    requires AllWritten(planned, ext) && AllWritten(added, ext) && IsExtension(ext) && planned != []
    requires Contiguous(planned, start) && (forall o :: o in planned ==> KeyHeld(o, keyring))
    requires Lists(after, added) && Lists(grown, planned + added)
    requires Plan(after, ext, End(planned, start), keyring).Ok?
    ensures Plan(grown, ext, start, keyring) == Ok(planned + Plan(after, ext, End(planned, start), keyring).value)
  {
    var more := Plan(after, ext, End(planned, start), keyring).value;
    PlannedIsContiguous(after, more, ext, End(planned, start), keyring);
    PlanKeepsObjects(after, added, more, ext, End(planned, start), keyring);
    ContiguousConcat(planned, more, start);
    NamesOfConcat(planned, more);
    NamesOfConcat(planned, added);
    ListsPermutation(added, more);
    ChainPlans(grown, planned + more, ext, start, keyring);
  }

  lemma {:induction false} NothingPlannedIsAfter(planned: seq<ChainObject>, ext: string, start: nat)
    requires AllWritten(planned, ext) && Contiguous(planned, start) && planned != []
    ensures forall n :: n in Names(planned) ==> !Before(planned[|planned| - 1].name, n)
  {
    ContiguousIsStrictlyOrdered(planned, start);
    var last := |planned| - 1;
    forall n | n in Names(planned)
      ensures !Before(planned[last].name, n)
    {
      var i :| 0 <= i < |planned| && planned[i].name == n;
      if i == last {
        NotBeforeItself(n);
      } else {
        LaterSortsAfter(planned[last], planned[i], ext);
      }
    }
  }

  /** The part of a whole plan after what was planned is the plan of what was added. */
  lemma {:induction false} SplitPlan(
      planned: seq<ChainObject>, added: seq<ChainObject>, grown: seq<string>,
      ext: string, start: nat, keyring: Option<set<string>>)
    requires AllWritten(planned, ext) && AllWritten(added, ext) && IsExtension(ext) && planned != []
    requires Contiguous(planned, start) && Lists(grown, planned + added)
    requires Plan(grown, ext, start, keyring).Ok?
    ensures forall after :: Lists(after, added) && after != [] ==> Plan(after, ext, End(planned, start), keyring).Ok?
  {
    hide BlobFilename, ParseAll, Plan, Contiguous, Tiles, Cover, IsExtension, KeyHeld;
    ListingParses(grown, planned + added, ext, false);
    var all := ParseAll(grown, ext, false).value;
    PlansExactlyTilings(grown, ext, start, keyring);
    var end :| start <= end && Tiles(all, start, end);
    forall after | Lists(after, added) && after != []
      ensures Plan(after, ext, End(planned, start), keyring).Ok?
    {
      ListingParses(after, added, ext, false);
      var more := ParseAll(after, ext, false).value;
      RestTiles(all, planned, added, more, start, end);
      forall o | o in more
        ensures KeyHeld(o, keyring)
      {
        assert o in multiset(added);
        assert o in planned + added;
        assert o in multiset(all);
      }
      PlansExactlyTilings(after, ext, End(planned, start), keyring);
    }
  }

  lemma {:induction false} RestTiles(
      all: seq<ChainObject>, planned: seq<ChainObject>, added: seq<ChainObject>, more: seq<ChainObject>, start: nat,
      end: nat)
    requires Tiles(all, start, end) && Contiguous(planned, start) && planned != []
    requires multiset(all) == multiset(planned + added) && multiset(more) == multiset(added)
    ensures End(planned, start) <= end && Tiles(more, End(planned, start), end)
  {
    forall p: nat
      ensures Cover(more, p) == Cover(all, p) - Cover(planned, p)
      ensures Cover(planned, p) == if start <= p < End(planned, start) then 1 else 0
    {
      CoverOfPermutation(all, planned + added, p);
      CoverOfConcat(planned, added, p);
      CoverOfPermutation(more, added, p);
      ContiguousTiles(planned, start, p);
    }
    ContiguousAt(planned, start, |planned| - 1);
    assert Cover(all, End(planned, start) - 1) >= 1;
  }

  lemma {:induction false} PlanKeepsObjects(
      names: seq<string>, s: seq<ChainObject>, plan: seq<ChainObject>, ext: string, start: nat,
      keyring: Option<set<string>>)
    requires AllWritten(s, ext) && IsExtension(ext) && Lists(names, s)
    requires Plan(names, ext, start, keyring) == Ok(plan)
    ensures multiset(plan) == multiset(s) && AllWritten(plan, ext)
  {
    ListingParses(names, s, ext, false);
    SortedIsOrdered(ParseAll(names, ext, false).value, false);
    forall i | 0 <= i < |plan|
      ensures Written(plan[i], ext)
    {
      assert plan[i] in multiset(s);
    }
  }

  lemma {:induction false} ListsPermutation(s: seq<ChainObject>, t: seq<ChainObject>)
    requires multiset(s) == multiset(t)
    ensures multiset(Names(s)) == multiset(Names(t))
  {
    if s == [] {
      assert |multiset(t)| == 0;
    } else {
      var j := Match(s, t);
      ListsPermutation(s[1..], t[..j] + t[j + 1..]);
      NamesTakeOut(t, j);
      assert t[j].name in multiset(Names(t)) by { assert Names(t)[j] == t[j].name; }
      assert Names(s) == [s[0].name] + Names(s[1..]);
    }
  }
}
