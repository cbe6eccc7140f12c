/** UTF-8 as section 3 of RFC 3629 defines it, with a strict decoder. */
module Utf8 {
  import opened Basics

  type Byte = b: int | 0 <= b < 256
  /** A Unicode scalar value: a code point that is no surrogate. */
  type Scalar = c: int | 0 <= c < 0xD800 || 0xE000 <= c < 0x110000

  function Width(c: Scalar): (n: nat)
    ensures 1 <= n <= 4
  {
    if c < 0x80 then 1 else if c < 0x800 then 2 else if c < 0x10000 then 3 else 4
  }

  function EncodeOne(c: Scalar): (bytes: seq<Byte>)
    ensures |bytes| == Width(c)
  {
    if c < 0x80 then [c]
    else if c < 0x800 then [0xC0 + c / 64, 0x80 + c % 64]
    else if c < 0x10000 then [0xE0 + c / 4096, 0x80 + c / 64 % 64, 0x80 + c % 64]
    else [0xF0 + c / 262144, 0x80 + c / 4096 % 64, 0x80 + c / 64 % 64, 0x80 + c % 64]
  }

  function Encode(text: seq<Scalar>): (bytes: seq<Byte>)
    ensures |text| <= |bytes|
  {
    if text == [] then [] else EncodeOne(text[0]) + Encode(text[1..])
  }

  predicate Trailing(b: Byte) { 0x80 <= b < 0xC0 }

  /** How many bytes the character takes that starts with this byte, if one can. */
  function Announced(lead: Byte): (n: nat)
    ensures n <= 4
  {
    if lead < 0x80 then 1
    else if 0xC2 <= lead < 0xE0 then 2
    else if 0xE0 <= lead < 0xF0 then 3
    else if 0xF0 <= lead < 0xF5 then 4
    else 0
  }
  /** The second byte rules out overlong forms, surrogates and values past U+10FFFF. */
  predicate SecondFits(lead: Byte, second: Byte) {
    && Trailing(second)
    && (lead == 0xE0 ==> 0xA0 <= second)
    && (lead == 0xED ==> second < 0xA0)
    && (lead == 0xF0 ==> 0x90 <= second)
    && (lead == 0xF4 ==> second < 0x90)
  }

  /** The number that the payload bits of up to four bytes spell. */
  function Spell(a: int, b: int, c: int, d: int): int { a * 262144 + b * 4096 + c * 64 + d }

  lemma Spelled(c: nat)
    requires c < 0x110000
    ensures c == Spell(c / 262144, c / 4096 % 64, c / 64 % 64, c % 64)
    ensures c / 64 == c / 4096 * 64 + c / 64 % 64 && c / 4096 == c / 262144 * 64 + c / 4096 % 64
  {
    var x := c / 64;
    assert x / 64 == c / 4096 && c == x * 64 + c % 64;
    var y := x / 64;
    assert y / 64 == c / 262144 && x == y * 64 + x % 64;
  }

  lemma Unspelled(a: nat, b: nat, c: nat, d: nat)
    requires b < 64 && c < 64 && d < 64
    ensures var n := Spell(a, b, c, d); n / 262144 == a && n / 4096 % 64 == b && n / 64 % 64 == c && n % 64 == d
    ensures Spell(a, b, c, d) / 4096 == a * 64 + b && Spell(a, b, c, d) / 64 == a * 4096 + b * 64 + c
  {
    var n := Spell(a, b, c, d);
    assert n / 64 == a * 4096 + b * 64 + c && n % 64 == d;
    assert (a * 4096 + b * 64 + c) / 64 == a * 64 + b;
    assert n / 4096 == a * 64 + b;
    assert n / 262144 == a;
  }

  /** The first character, if the bytes start with a whole one. */
  function DecodeOne(bytes: seq<Byte>): (r: Option<Scalar>) {
    if bytes == [] then None
    else
      var a: int := bytes[0];
      var n := Announced(a);
      if n == 0 || |bytes| < n then None
      else if n == 1 then Some(a)
      else
        var b: int := bytes[1];
        if !SecondFits(a, b) then None
        else if n == 2 then Some(Spell(0, 0, a - 0xC0, b - 0x80))
        else
          var c: int := bytes[2];
          if !Trailing(c) then None
          else if n == 3 then Some(Spell(0, a - 0xE0, b - 0x80, c - 0x80))
          else
            var d: int := bytes[3];
            if !Trailing(d) then None else Some(Spell(a - 0xF0, b - 0x80, c - 0x80, d - 0x80))
  }

  lemma DecodeOneExact(bytes: seq<Byte>)
    requires DecodeOne(bytes).Some?
    ensures var c := DecodeOne(bytes).value; Width(c) <= |bytes| && bytes[..Width(c)] == EncodeOne(c)
  {
    var n := Announced(bytes[0]);
    var c := DecodeOne(bytes).value;
    if n == 2 {
      Unspelled(0, 0, bytes[0] - 0xC0, bytes[1] - 0x80);
    } else if n == 3 {
      Unspelled(0, bytes[0] - 0xE0, bytes[1] - 0x80, bytes[2] - 0x80);
    } else if n == 4 {
      Unspelled(bytes[0] - 0xF0, bytes[1] - 0x80, bytes[2] - 0x80, bytes[3] - 0x80);
    }
    assert Width(c) == n;
  }

  /** The strict decoder: all of the bytes, or nothing. */
  function Decode(bytes: seq<Byte>): (r: Option<seq<Scalar>>)
    ensures r.Some? ==> Encode(r.value) == bytes
    decreases |bytes|
  {
    if bytes == [] then Some([])
    else
      var first := DecodeOne(bytes);
      if first.None? then None
      else
        DecodeOneExact(bytes);
        var rest := Decode(bytes[Width(first.value)..]);
        if rest.None? then None
        else
          assert ([first.value] + rest.value)[1..] == rest.value;
          Some([first.value] + rest.value)
  }

  lemma LeadOf(c: Scalar)
    ensures Announced(EncodeOne(c)[0]) == Width(c)
    ensures Width(c) > 1 ==> SecondFits(EncodeOne(c)[0], EncodeOne(c)[1])
  {
    Spelled(c);
  }

  lemma DecodeOneEncoded(c: Scalar, more: seq<Byte>)
    ensures DecodeOne(EncodeOne(c) + more) == Some(c)
  {
    var one := EncodeOne(c);
    var bytes := one + more;
    assert bytes[0] == one[0] && forall i | 0 <= i < |one| :: bytes[i] == one[i];
    LeadOf(c);
    Spelled(c);
  }

  function Prepend(text: seq<Scalar>, rest: Option<seq<Scalar>>): Option<seq<Scalar>> {
    if rest.Some? then Some(text + rest.value) else None
  }

  lemma DecodeStep(c: Scalar, more: seq<Byte>)
    ensures Decode(EncodeOne(c) + more) == Prepend([c], Decode(more))
  {
    var bytes := EncodeOne(c) + more;
    DecodeOneEncoded(c, more);
    assert bytes[Width(c)..] == more;
  }

  /** What is encoded is decoded again, and what follows decides the rest. */
  lemma {:induction false} DecodeEncoded(text: seq<Scalar>, more: seq<Byte>)
    ensures Decode(Encode(text) + more) == Prepend(text, Decode(more))
  {
    if text == [] {
      assert Encode(text) + more == more;
      assert Decode(more).Some? ==> text + Decode(more).value == Decode(more).value;
    } else {
      var rest := Encode(text[1..]);
      Regroup(EncodeOne(text[0]), rest, more);
      DecodeStep(text[0], rest + more);
      DecodeEncoded(text[1..], more);
      assert [text[0]] + text[1..] == text;
      if Decode(more).Some? { Regroup([text[0]], text[1..], Decode(more).value); }
    }
  }

  /** Encoding is undone exactly; with `Decode`'s own contract, the decodable byte
      strings are the encodings and nothing else. */
  lemma RoundTrip(text: seq<Scalar>)
    ensures Decode(Encode(text)) == Some(text)
  {
    DecodeEncoded(text, []);
    assert Encode(text) + [] == Encode(text) && text + [] == text;
  }

  /** A character cut short is no text. */
  lemma CutShort(c: Scalar, k: nat)
    requires 0 < k < Width(c)
    ensures Decode(EncodeOne(c)[..k]) == None
  {
    var cut := EncodeOne(c)[..k];
    assert cut[0] == EncodeOne(c)[0];
    assert Announced(cut[0]) == Width(c);
  }

  lemma {:induction false} EncodeJoins(a: seq<Scalar>, b: seq<Scalar>)
    ensures Encode(a + b) == Encode(a) + Encode(b)
  {
    if a == [] {
      assert a + b == b;
    } else {
      assert (a + b)[1..] == a[1..] + b;
      EncodeJoins(a[1..], b);
    }
  }
}
