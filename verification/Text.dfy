/** What a text key is: bytes that encode Unicode scalar values, as section 3 of RFC 3629
    has it. `Records.IsUtf8` looks at lead and continuation bytes alone. */
module Texts {
  import opened Records

  predicate IsScalar(c: nat) {
    c <= 0x10FFFF && !(0xD800 <= c <= 0xDFFF)
  }

  function Encoded(c: nat): Bytes
    requires IsScalar(c)
  {
    if c < 0x80 then [c as byte]
    else if c < 0x800 then [(0xC0 + c / 64) as byte, (0x80 + c % 64) as byte]
    else if c < 0x1_0000 then
      [(0xE0 + c / 4096) as byte, (0x80 + c / 64 % 64) as byte, (0x80 + c % 64) as byte]
    else
      [(0xF0 + c / 262144) as byte, (0x80 + c / 4096 % 64) as byte, (0x80 + c / 64 % 64) as byte,
       (0x80 + c % 64) as byte]
  }

  predicate AllScalars(cs: seq<nat>) {
    forall i :: 0 <= i < |cs| ==> IsScalar(cs[i])
  }

  function EncodedAll(cs: seq<nat>): Bytes
    requires AllScalars(cs)
  {
    if cs == [] then [] else Encoded(cs[0]) + EncodedAll(cs[1..])
  }

  /** The scalar value of two, three or four bytes. */
  function Two(b: Bytes): nat
    requires SequenceLength(b) == 2
  {
    (b[0] as int - 0xC0) * 64 + (b[1] as int - 0x80)
  }

  function Three(b: Bytes): nat
    requires SequenceLength(b) == 3
  {
    (b[0] as int - 0xE0) * 4096 + (b[1] as int - 0x80) * 64 + (b[2] as int - 0x80)
  }

  function Four(b: Bytes): nat
    requires SequenceLength(b) == 4
  {
    (b[0] as int - 0xF0) * 262144 + (b[1] as int - 0x80) * 4096 + (b[2] as int - 0x80) * 64 + (b[3] as int - 0x80)
  }

  lemma {:induction false} Base64(high: nat, low: nat)
    requires low < 64
    ensures (high * 64 + low) / 64 == high && (high * 64 + low) % 64 == low
  {
  }

  lemma {:induction false} TwoIsEncoded(b: Bytes)
    requires SequenceLength(b) == 2
    ensures IsScalar(Two(b)) && Encoded(Two(b)) == b[..2]
  {
    Base64(b[0] as int - 0xC0, b[1] as int - 0x80);
  }

  lemma {:induction false} ThreeIsEncoded(b: Bytes)
    requires SequenceLength(b) == 3
    ensures IsScalar(Three(b)) && Encoded(Three(b)) == b[..3]
  {
    var high := (b[0] as int - 0xE0) * 64 + (b[1] as int - 0x80);
    Base64(b[0] as int - 0xE0, b[1] as int - 0x80);
    Base64(high, b[2] as int - 0x80);
    assert Three(b) == high * 64 + (b[2] as int - 0x80) && Three(b) / 4096 == Three(b) / 64 / 64;
  }

  lemma {:induction false} FourIsEncoded(b: Bytes)
    requires SequenceLength(b) == 4
    ensures IsScalar(Four(b)) && Encoded(Four(b)) == b[..4]
  {
    var c := Four(b);
    var high := (b[0] as int - 0xF0) * 64 + (b[1] as int - 0x80);
    var middle := high * 64 + (b[2] as int - 0x80);
    Base64(b[0] as int - 0xF0, b[1] as int - 0x80);
    Base64(high, b[2] as int - 0x80);
    Base64(middle, b[3] as int - 0x80);
    assert c == middle * 64 + (b[3] as int - 0x80) && c / 4096 == c / 64 / 64 && c / 262144 == c / 64 / 64 / 64;
  }

  /** A sequence is the encoding of one scalar value: no shorter form, no surrogate, nothing past
      the last. */
  lemma {:induction false} SequenceIsEncoded(b: Bytes)
    requires SequenceLength(b) > 0
    ensures exists c :: IsScalar(c) && Encoded(c) == b[..SequenceLength(b)]
  {
    hide Encoded, IsScalar, Two, Three, Four;
    var n := SequenceLength(b);
    if n == 1 {
      OneIsEncoded(b);
    } else if n == 2 {
      TwoIsEncoded(b);
    } else if n == 3 {
      ThreeIsEncoded(b);
    } else {
      FourIsEncoded(b);
    }
  }

  lemma {:induction false} OneIsEncoded(b: Bytes)
    requires SequenceLength(b) == 1
    ensures IsScalar(b[0] as nat) && Encoded(b[0] as nat) == b[..1]
  {
  }

  lemma {:induction false} EncodedIsSequence(c: nat, rest: Bytes)
    requires IsScalar(c)
    ensures SequenceLength(Encoded(c) + rest) == |Encoded(c)|
  {
    var b := Encoded(c) + rest;
    if c < 0x80 {
      assert b[0] == c as byte;
    } else if c < 0x800 {
      TwoIsSequence(b, c);
    } else if c < 0x1_0000 {
      ThreeIsSequence(b, c);
    } else {
      FourIsSequence(b, c);
    }
  }

  lemma {:induction false} TwoIsSequence(b: Bytes, c: nat)
    requires 0x80 <= c < 0x800 && |b| >= 2 && b[0] as int == 0xC0 + c / 64 && b[1] as int == 0x80 + c % 64
    ensures SequenceLength(b) == 2
  {
    assert 2 <= c / 64 < 32;
  }

  lemma {:induction false} ThreeIsSequence(b: Bytes, c: nat)
    requires 0x800 <= c < 0x1_0000 && IsScalar(c) && |b| >= 3
    requires b[0] as int == 0xE0 + c / 4096 && b[1] as int == 0x80 + c / 64 % 64 && b[2] as int == 0x80 + c % 64
    ensures SequenceLength(b) == 3
  {
    assert c / 4096 == c / 64 / 64;
    var high, middle := c / 4096, c / 64 % 64;
    assert c / 64 == high * 64 + middle && high < 16;
    assert high == 0 ==> middle >= 32;
    assert high == 13 && middle >= 32 ==> 0xD800 <= c <= 0xDFFF;
  }

  lemma {:induction false} FourIsSequence(b: Bytes, c: nat)
    requires 0x1_0000 <= c <= 0x10FFFF && |b| >= 4
    requires b[0] as int == 0xF0 + c / 262144 && b[1] as int == 0x80 + c / 4096 % 64
    requires b[2] as int == 0x80 + c / 64 % 64 && b[3] as int == 0x80 + c % 64
    ensures SequenceLength(b) == 4
  {
    assert c / 262144 == c / 4096 / 64;
    var high, middle := c / 262144, c / 4096 % 64;
    assert c / 4096 == high * 64 + middle && high <= 4;
    assert high == 0 ==> middle >= 16;
    assert high == 4 ==> middle < 16;
  }

  /** A key is text exactly if it encodes some scalar values. */
  lemma {:induction false} TextIsEncoded(b: Bytes)
    ensures IsUtf8(b) <==> exists cs :: AllScalars(cs) && EncodedAll(cs) == b
    decreases |b|
  {
    hide SequenceLength, Encoded, IsScalar;
    if b == [] {
      assert AllScalars([]) && EncodedAll([]) == b;
    } else {
      if IsUtf8(b) {
        var n := SequenceLength(b);
        SequenceIsEncoded(b);
        var c: nat :| IsScalar(c) && Encoded(c) == b[..n];
        TextIsEncoded(b[n..]);
        var cs :| AllScalars(cs) && EncodedAll(cs) == b[n..];
        var all := [c] + cs;
        assert all[1..] == cs && b == b[..n] + b[n..];
        assert AllScalars(all) && EncodedAll(all) == b;
      }
      if cs :| AllScalars(cs) && EncodedAll(cs) == b {
        assert cs != [];
        var rest := EncodedAll(cs[1..]);
        EncodedIsSequence(cs[0], rest);
        EncodedIsNotEmpty(cs[0]);
        assert b[|Encoded(cs[0])|..] == rest;
        TextIsEncoded(rest);
      }
    }
  }

  /** A record has a text key exactly if it has a key and that is text. */
  lemma {:induction false} KeyIsText(r: Record)
    ensures HasTextKey(r) <==> exists cs :: AllScalars(cs) && r.key == Some(EncodedAll(cs))
  {
    hide IsUtf8, AllScalars, EncodedAll;
    if r.key.Some? {
      TextIsEncoded(r.key.value);
    }
  }

  lemma {:induction false} EncodedIsNotEmpty(c: nat)
    requires IsScalar(c)
    ensures Encoded(c) != []
  {
  }
}
