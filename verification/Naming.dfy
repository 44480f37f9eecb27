/** File naming of blob destinations: `<from>-<to>.<ext>`, or
    `<from>-<to>.k-<key id>.<ext>` for a blob encrypted with that key.

    Two facts carry the rest of the model: a name written by `BlobFilename`
    parses back to what it was written from, and the string order of such names
    is the numeric order of their ranges, which is what lets a store serve
    "everything after this object" from a sorted listing. */
module Naming {
  import opened Records

  const OFFSET_WIDTH: nat := 20

  datatype BlobName = BlobName(from: nat, to: nat, keyId: Option<string>)

  function Digit(d: nat): char
    requires d < 10
  {
    '0' + d as char
  }

  predicate IsDigit(c: char) {
    '0' <= c <= '9'
  }

  function Pow10(n: nat): nat {
    if n == 0 then 1 else 10 * Pow10(n - 1)
  }

  /** `n` in decimal, zero-padded to `width` (exact while `n` has at most `width` digits, as every `u64` has in 20). */
  function Padded(n: nat, width: nat): (s: string)
    ensures |s| == width
    ensures forall c :: c in s ==> IsDigit(c)
  {
    if width == 0 then "" else Padded(n / 10, width - 1) + [Digit(n % 10)]
  }

  function BlobFilename(from: nat, to: nat, keyId: Option<string>, ext: string): string {
    Padded(from, OFFSET_WIDTH) + "-" + Padded(to, OFFSET_WIDTH) + Suffix(keyId, ext)
  }

  function Suffix(keyId: Option<string>, ext: string): string {
    (match keyId case None => "" case Some(id) => ".k-" + id) + "." + ext
  }

  /** A key id: `[a-z0-9][a-z0-9-]{0,31}`. */
  predicate IsKeyId(id: string) {
    && 0 < |id| <= 32
    && ('a' <= id[0] <= 'z' || IsDigit(id[0]))
    && forall c :: c in id ==> 'a' <= c <= 'z' || IsDigit(c) || c == '-'
  }

  function Value(digits: string): nat
    requires forall c :: c in digits ==> IsDigit(c)
  {
    if digits == "" then 0
    else
      var last := digits[|digits| - 1];
      assert IsDigit(last) by { assert last in digits; }
      10 * Value(digits[..|digits| - 1]) + (last as int - '0' as int)
  }

  /** A `u64` as the standard library parses it: an optional plus sign, digits, no overflow. */
  function ParseU64(s: string): Option<nat> {
    var digits := if s != "" && s[0] == '+' then s[1..] else s;
    if digits == "" || exists c :: c in digits && !IsDigit(c) then None
    else if Value(digits) < TWO_64 then Some(Value(digits))
    else None
  }

  /** Where `sep` first occurs in `s`. */
  function Find(s: string, sep: string): (at: Option<nat>)
    ensures at.Some? ==> at.value + |sep| <= |s| && s[at.value..at.value + |sep|] == sep
  {
    if |sep| <= |s| && s[..|sep|] == sep then Some(0)
    else if s == "" then None
    else
      match Find(s[1..], sep)
      case None => None
      case Some(i) => Some(i + 1)
  }

  function StripSuffix(s: string, suffix: string): Option<string> {
    if |suffix| <= |s| && s[|s| - |suffix|..] == suffix then Some(s[..|s| - |suffix|]) else None
  }

  function ParseRange(range: string, keyId: Option<string>): Option<BlobName> {
    match Find(range, "-")
    case None => None
    case Some(dash) =>
      var from, to := ParseU64(range[..dash]), ParseU64(range[dash + 1..]);
      if from.Some? && to.Some? then Some(BlobName(from.value, to.value, keyId)) else None
  }

  /** A name with this extension, as a range and a key id. */
  function ParseBlobName(name: string, ext: string): Option<BlobName> {
    match StripSuffix(name, "." + ext)
    case None => None
    case Some(stem) =>
      match Find(stem, ".k-")
      case None => ParseRange(stem, None)
      case Some(k) =>
        var id := stem[k + 3..];
        if IsKeyId(id) then ParseRange(stem[..k], Some(id)) else None
  }

  /** The part after the last dot. */
  function FileExtension(name: string): Option<string> {
    if name == "" then None
    else if name[|name| - 1] == '.' then Some("")
    else
      match FileExtension(name[..|name| - 1])
      case None => None
      case Some(ext) => Some(ext + [name[|name| - 1]])
  }

  /** Byte order of strings. */
  predicate Before(a: string, b: string) {
    b != "" && (a == "" || a[0] < b[0] || (a[0] == b[0] && Before(a[1..], b[1..])))
  }

  /** Ranges in chain order. */
  predicate RangeBefore(from1: nat, to1: nat, from2: nat, to2: nat) {
    from1 < from2 || (from1 == from2 && to1 < to2)
  }

  lemma {:induction false} ValueOfPadded(n: nat, width: nat)
    requires n < Pow10(width)
    ensures Value(Padded(n, width)) == n
  {
    if width > 0 {
      ValueOfPadded(n / 10, width - 1);
      assert Padded(n, width)[..width - 1] == Padded(n / 10, width - 1);
    }
  }

  lemma {:induction false} OffsetsFitTheWidth()
    ensures TWO_64 <= Pow10(OFFSET_WIDTH)
  {
    assert Pow10(3) == 1000;
    assert Pow10(6) == 1000000;
    assert Pow10(9) == 1000000000;
    assert Pow10(12) == 1000000000000;
    assert Pow10(15) == 1000000000000000;
    assert Pow10(18) == 1000000000000000000;
    assert Pow10(20) == 100000000000000000000;
  }

  lemma {:induction false} ParsePadded(n: nat)
    requires n < TWO_64
    ensures ParseU64(Padded(n, OFFSET_WIDTH)) == Some(n)
  {
    OffsetsFitTheWidth();
    ValueOfPadded(n, OFFSET_WIDTH);
    var s := Padded(n, OFFSET_WIDTH);
    assert s[0] in s;
  }

  lemma {:induction false} FindSeparator(x: string, sep: string, y: string)
    requires sep != "" && sep[0] !in x
    ensures Find(x + sep + y, sep) == Some(|x|)
  {
    var s := x + sep + y;
    if x == "" {
      assert s[..|sep|] == sep;
    } else {
      assert s[0] == x[0] && x[0] in x;
      assert |sep| <= |s| ==> s[..|sep|][0] == x[0];
      assert s[1..] == x[1..] + sep + y;
      FindSeparator(x[1..], sep, y);
    }
  }

  lemma {:induction false} FindNothing(x: string, sep: string)
    requires sep != "" && sep[0] !in x
    ensures Find(x, sep) == None
  {
    if x != "" {
      assert x[0] in x;
      assert |sep| <= |x| ==> x[..|sep|][0] == x[0];
      FindNothing(x[1..], sep);
    }
  }

  lemma {:induction false} ParseWrittenRange(from: nat, to: nat, keyId: Option<string>)
    requires from < TWO_64 && to < TWO_64
    ensures ParseRange(Padded(from, OFFSET_WIDTH) + "-" + Padded(to, OFFSET_WIDTH), keyId)
            == Some(BlobName(from, to, keyId))
  {
    var f, t := Padded(from, OFFSET_WIDTH), Padded(to, OFFSET_WIDTH);
    FindSeparator(f, "-", t);
    assert (f + "-" + t)[..OFFSET_WIDTH] == f && (f + "-" + t)[OFFSET_WIDTH + 1..] == t;
    ParsePadded(from);
    ParsePadded(to);
  }

  /** A written name parses back to the range and the key it was written for, whatever the extension. */
  lemma {:induction false} NameRoundTrip(from: nat, to: nat, keyId: Option<string>, ext: string)
    requires from < TWO_64 && to < TWO_64
    requires keyId.Some? ==> IsKeyId(keyId.value)
    ensures ParseBlobName(BlobFilename(from, to, keyId, ext), ext) == Some(BlobName(from, to, keyId))
  {
    var range := Padded(from, OFFSET_WIDTH) + "-" + Padded(to, OFFSET_WIDTH);
    var stem := range + (match keyId case None => "" case Some(id) => ".k-" + id);
    var name := BlobFilename(from, to, keyId, ext);
    assert name == stem + ("." + ext);
    assert name[|name| - |"." + ext|..] == "." + ext && name[..|name| - |"." + ext|] == stem;
    assert '.' !in range;
    ParseWrittenRange(from, to, keyId);
    match keyId
    case None =>
      FindNothing(range, ".k-");
    case Some(id) =>
      FindSeparator(range, ".k-", id);
      assert stem == range + ".k-" + id;
      assert stem[..|range|] == range && stem[|range| + 3..] == id;
  }

  /** A numeral of `n`: digits, perhaps with leading zeros, perhaps after a plus sign. */
  ghost predicate IsNumeral(s: string, n: nat) {
    exists digits :: IsNumeralOf(s, digits, n)
  }

  ghost predicate IsNumeralOf(s: string, digits: string, n: nat) {
    && digits != "" && (forall c :: c in digits ==> IsDigit(c))
    && (s == digits || s == "+" + digits)
    && Value(digits) == n < TWO_64
  }

  lemma {:induction false} ParsesNumerals(s: string, n: nat)
    ensures ParseU64(s) == Some(n) <==> IsNumeral(s, n)
  {
    if ParseU64(s) == Some(n) {
      var digits := if s != "" && s[0] == '+' then s[1..] else s;
      assert s[0] == '+' ==> s == "+" + s[1..];
      assert IsNumeralOf(s, digits, n);
    }
    if IsNumeral(s, n) {
      var digits :| IsNumeralOf(s, digits, n);
      assert digits[0] in digits && IsDigit(digits[0]);
      assert s != digits ==> s[1..] == digits;
    }
  }

  lemma {:induction false} NoSeparatorIn(s: string, n: nat)
    requires IsNumeral(s, n)
    ensures '-' !in s && '.' !in s
  {
    var digits :| IsNumeralOf(s, digits, n);
  }

  ghost predicate IsRange(range: string, b: BlobName) {
    exists f, t :: IsRangeOf(range, f, t, b)
  }

  ghost predicate IsRangeOf(range: string, f: string, t: string, b: BlobName) {
    range == f + "-" + t && IsNumeral(f, b.from) && IsNumeral(t, b.to)
  }

  lemma {:induction false} ParsesRanges(range: string, b: BlobName)
    ensures ParseRange(range, b.keyId) == Some(b) <==> IsRange(range, b)
  {
    hide IsNumeral, ParseU64;
    if ParseRange(range, b.keyId) == Some(b) {
      var dash := Find(range, "-").value;
      var f, t := range[..dash], range[dash + 1..];
      ParsesNumerals(f, b.from);
      ParsesNumerals(t, b.to);
      assert range[dash..dash + 1] == "-" && range == f + "-" + t;
      assert IsRangeOf(range, f, t, b);
    }
    if IsRange(range, b) {
      var f, t :| IsRangeOf(range, f, t, b);
      ParsesNumerals(f, b.from);
      ParsesNumerals(t, b.to);
      NoSeparatorIn(f, b.from);
      FindSeparator(f, "-", t);
      assert range[..|f|] == f && range[|f| + 1..] == t;
    }
  }

  lemma {:induction false} NoDotIn(range: string, b: BlobName)
    requires IsRange(range, b)
    ensures '.' !in range
  {
    hide IsNumeral;
    var f, t :| IsRangeOf(range, f, t, b);
    NoSeparatorIn(f, b.from);
    NoSeparatorIn(t, b.to);
  }

  ghost predicate IsName(name: string, range: string, ext: string, b: BlobName) {
    && IsRange(range, b) && name == range + Suffix(b.keyId, ext)
    && (b.keyId.Some? ==> IsKeyId(b.keyId.value))
  }

  lemma {:induction false} StemOf(stem: string, ext: string)
    ensures StripSuffix(stem + "." + ext, "." + ext) == Some(stem)
  {
    var name, dotted := stem + "." + ext, "." + ext;
    assert name == stem + dotted;
    assert name[|name| - |dotted|..] == dotted && name[..|name| - |dotted|] == stem;
  }

  lemma {:induction false} NameIsParsed(name: string, range: string, ext: string, b: BlobName)
    requires IsName(name, range, ext, b)
    ensures ParseBlobName(name, ext) == Some(b)
  {
    hide IsRange, ParseRange, IsKeyId, StripSuffix, Find;
    ParsesRanges(range, b);
    NoDotIn(range, b);
    match b.keyId
    case None =>
      assert name == range + "." + ext;
      StemOf(range, ext);
      FindNothing(range, ".k-");
    case Some(id) =>
      var stem := range + ".k-" + id;
      assert name == stem + "." + ext;
      StemOf(stem, ext);
      FindSeparator(range, ".k-", id);
      assert stem[..|range|] == range && stem[|range| + 3..] == id;
  }

  lemma {:induction false} ParsedIsName(name: string, ext: string, b: BlobName) returns (range: string)
    requires ParseBlobName(name, ext) == Some(b)
    ensures IsName(name, range, ext, b)
  {
    hide IsRange, ParseRange, IsKeyId;
    var stem := StripSuffix(name, "." + ext).value;
    assert name == stem + "." + ext;
    match Find(stem, ".k-")
    case None =>
      range := stem;
      KeyIdIsKept(range, b);
      ParsesRanges(range, b);
    case Some(k) =>
      range := stem[..k];
      KeyIdIsKept(range, b);
      assert stem[k..k + 3] == ".k-" && stem == range + ".k-" + stem[k + 3..];
      assert name == range + (".k-" + stem[k + 3..]) + "." + ext;
      ParsesRanges(range, b);
  }

  /** What is parsed: exactly a range of two numerals, a key id if there is one, and the extension. */
  lemma {:induction false} ParsesExactly(name: string, ext: string, b: BlobName)
    ensures ParseBlobName(name, ext) == Some(b) <==> exists range :: IsName(name, range, ext, b)
  {
    hide IsName, ParseBlobName;
    if ParseBlobName(name, ext) == Some(b) {
      var range := ParsedIsName(name, ext, b);
    }
    if range :| IsName(name, range, ext, b) {
      NameIsParsed(name, range, ext, b);
    }
  }

  lemma {:induction false} KeyIdIsKept(range: string, b: BlobName)
    ensures forall keyId :: ParseRange(range, keyId) == Some(b) ==> keyId == b.keyId
  {
  }

  /** A format's extension has no dot. */
  predicate IsExtension(ext: string) {
    '.' !in ext
  }

  lemma {:induction false} ExtensionOf(stem: string, ext: string)
    requires IsExtension(ext)
    ensures FileExtension(stem + "." + ext) == Some(ext)
  {
    var name := stem + "." + ext;
    if ext == "" {
      assert name[|name| - 1] == '.';
    } else {
      var init := ext[..|ext| - 1];
      assert name[..|name| - 1] == stem + "." + init;
      assert name[|name| - 1] == ext[|ext| - 1] && ext[|ext| - 1] in ext;
      ExtensionOf(stem, init);
      assert ext == init + [ext[|ext| - 1]];
    }
  }

  /** A written name is never taken for another format's. */
  lemma {:induction false} ExtensionOfWritten(from: nat, to: nat, keyId: Option<string>, ext: string)
    requires IsExtension(ext)
    ensures FileExtension(BlobFilename(from, to, keyId, ext)) == Some(ext)
  {
    var stem := Padded(from, OFFSET_WIDTH) + "-" + Padded(to, OFFSET_WIDTH)
                + match keyId case None => "" case Some(id) => ".k-" + id;
    assert BlobFilename(from, to, keyId, ext) == stem + "." + ext;
    ExtensionOf(stem, ext);
  }

  lemma {:induction false} BeforeExtended(x: string, y: string, u: string, v: string)
    requires |x| == |y|
    requires Before(x, y) || (x == y && Before(u, v))
    ensures Before(x + u, y + v)
  {
    if x != "" {
      assert (x + u)[1..] == x[1..] + u && (y + v)[1..] == y[1..] + v;
      if x[0] == y[0] {
        BeforeExtended(x[1..], y[1..], u, v);
      }
    } else {
      assert x + u == u && y + v == v;
    }
  }

  lemma {:induction false} BeforeIsAsymmetric(a: string, b: string)
    requires Before(a, b)
    ensures !Before(b, a) && a != b
  {
    if a != "" && a[0] == b[0] {
      BeforeIsAsymmetric(a[1..], b[1..]);
    }
  }

  lemma {:induction false} PaddedOrder(a: nat, b: nat, width: nat)
    requires a < b < Pow10(width)
    ensures Before(Padded(a, width), Padded(b, width))
  {
    if width > 0 {
      if a / 10 < b / 10 {
        PaddedOrder(a / 10, b / 10, width - 1);
      }
      BeforeExtended(Padded(a / 10, width - 1), Padded(b / 10, width - 1), [Digit(a % 10)], [Digit(b % 10)]);
    }
  }

  lemma {:induction false} RangesInOrder(from1: nat, to1: nat, from2: nat, to2: nat)
    requires from1 < TWO_64 && to1 < TWO_64 && from2 < TWO_64 && to2 < TWO_64
    requires RangeBefore(from1, to1, from2, to2)
    ensures Before(Padded(from1, OFFSET_WIDTH) + "-" + Padded(to1, OFFSET_WIDTH),
                   Padded(from2, OFFSET_WIDTH) + "-" + Padded(to2, OFFSET_WIDTH))
  {
    OffsetsFitTheWidth();
    var f1, f2 := Padded(from1, OFFSET_WIDTH) + "-", Padded(from2, OFFSET_WIDTH) + "-";
    if from1 < from2 {
      PaddedOrder(from1, from2, OFFSET_WIDTH);
      BeforeExtended(Padded(from1, OFFSET_WIDTH), Padded(from2, OFFSET_WIDTH), "-", "-");
    } else {
      PaddedOrder(to1, to2, OFFSET_WIDTH);
    }
    BeforeExtended(f1, f2, Padded(to1, OFFSET_WIDTH), Padded(to2, OFFSET_WIDTH));
  }

  lemma {:induction false} WrittenInOrder(
      from1: nat, to1: nat, key1: Option<string>, from2: nat, to2: nat, key2: Option<string>, ext: string)
    requires from1 < TWO_64 && to1 < TWO_64 && from2 < TWO_64 && to2 < TWO_64
    requires RangeBefore(from1, to1, from2, to2)
    ensures Before(BlobFilename(from1, to1, key1, ext), BlobFilename(from2, to2, key2, ext))
  {
    RangesInOrder(from1, to1, from2, to2);
    BeforeExtended(
      Padded(from1, OFFSET_WIDTH) + "-" + Padded(to1, OFFSET_WIDTH),
      Padded(from2, OFFSET_WIDTH) + "-" + Padded(to2, OFFSET_WIDTH),
      Suffix(key1, ext), Suffix(key2, ext));
  }

  /** String order is numeric order, for every pair of distinct `u64` ranges and whatever the keys. */
  lemma {:induction false} NameOrderIsRangeOrder(
      from1: nat, to1: nat, key1: Option<string>, from2: nat, to2: nat, key2: Option<string>, ext: string)
    requires from1 < TWO_64 && to1 < TWO_64 && from2 < TWO_64 && to2 < TWO_64
    requires (from1, to1) != (from2, to2)
    ensures Before(BlobFilename(from1, to1, key1, ext), BlobFilename(from2, to2, key2, ext))
            <==> RangeBefore(from1, to1, from2, to2)
  {
    if RangeBefore(from1, to1, from2, to2) {
      WrittenInOrder(from1, to1, key1, from2, to2, key2, ext);
    } else {
      WrittenInOrder(from2, to2, key2, from1, to1, key1, ext);
      BeforeIsAsymmetric(BlobFilename(from2, to2, key2, ext), BlobFilename(from1, to1, key1, ext));
    }
  }

  /** The parser also takes names nobody writes, whose string order is not their numeric order. */
  lemma {:induction false} ParsedNamesNeedNotBeOrdered()
    ensures ParseRange("5-9", None) == Some(BlobName(5, 9, None))
    ensures ParseRange("10-19", None) == Some(BlobName(10, 19, None))
    ensures Before("10-19", "5-9") && RangeBefore(5, 9, 10, 19)
  {
    FindSeparator("5", "-", "9");
    FindSeparator("10", "-", "19");
    assert "5" + "-" + "9" == "5-9" && "10" + "-" + "19" == "10-19";
    assert "5-9"[..1] == "5" && "5-9"[2..] == "9" && "10-19"[..2] == "10" && "10-19"[3..] == "19";
    assert "10"[..1] == "1" && "19"[..1] == "1";
    assert Value("5") == 5 && Value("9") == 9 && Value("1") == 1;
  }
}
