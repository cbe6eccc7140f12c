/** JavaScript strings are sequences of UTF-16 code units and may hold surrogates that pair
    with nothing; written out as UTF-8, each of those becomes U+FFFD. */
module Utf16 {
  import Utf8

  type Unit = u: int | 0 <= u < 65536
  type Text = seq<Unit>

  predicate High(u: Unit) { 0xD800 <= u < 0xDC00 }
  predicate Low(u: Unit) { 0xDC00 <= u < 0xE000 }
  predicate StartsPair(t: Text) { |t| >= 2 && High(t[0]) && Low(t[1]) }

  const REPLACEMENT: Unit := 0xFFFD

  function Joined(h: Unit, l: Unit): Utf8.Scalar
    requires High(h) && Low(l)
  {
    0x10000 + (h - 0xD800) * 1024 + (l - 0xDC00)
  }
  function Alone(u: Unit): Unit { if High(u) || Low(u) then REPLACEMENT else u }

  /** The characters of a text. */
  function Scalars(t: Text): seq<Utf8.Scalar> {
    if t == [] then []
    else if StartsPair(t) then [Joined(t[0], t[1])] + Scalars(t[2..])
    else [Alone(t[0])] + Scalars(t[1..])
  }
  /** The bytes that a text is written as. */
  function Bytes(t: Text): seq<Utf8.Byte> { Utf8.Encode(Scalars(t)) }

  /** The text with unpaired surrogates replaced. */
  function Scrubbed(t: Text): Text {
    if t == [] then []
    else if StartsPair(t) then [t[0], t[1]] + Scrubbed(t[2..])
    else [Alone(t[0])] + Scrubbed(t[1..])
  }
  /** Every surrogate has its partner. */
  predicate Paired(t: Text) {
    if t == [] then true
    else if StartsPair(t) then Paired(t[2..])
    else !High(t[0]) && !Low(t[0]) && Paired(t[1..])
  }

  lemma {:induction false} PairedIsScrubbed(t: Text)
    requires Paired(t)
    ensures Scrubbed(t) == t
  {
    if t != [] {
      if StartsPair(t) {
        PairedIsScrubbed(t[2..]);
        assert t == [t[0], t[1]] + t[2..];
      } else {
        PairedIsScrubbed(t[1..]);
        assert t == [t[0]] + t[1..];
      }
    }
  }

  function UnitsOf(c: Utf8.Scalar): Text {
    if c < 0x10000 then [c] else [0xD800 + (c - 0x10000) / 1024, 0xDC00 + (c - 0x10000) % 1024]
  }
  function Units(text: seq<Utf8.Scalar>): Text {
    if text == [] then [] else UnitsOf(text[0]) + Units(text[1..])
  }

  /** The characters determine the scrubbed text. */
  lemma {:induction false} UnitsOfScalars(t: Text)
    ensures Units(Scalars(t)) == Scrubbed(t)
  {
    if t != [] {
      var first := Scalars(t)[0];
      if StartsPair(t) {
        UnitsOfScalars(t[2..]);
        assert Scalars(t)[1..] == Scalars(t[2..]);
        assert UnitsOf(first) == [t[0], t[1]];
      } else {
        UnitsOfScalars(t[1..]);
        assert Scalars(t)[1..] == Scalars(t[1..]);
      }
    }
  }

  lemma {:induction false} ScalarsOfScrubbed(t: Text)
    ensures Scalars(Scrubbed(t)) == Scalars(t)
  {
    if t != [] {
      var s := Scrubbed(t);
      if StartsPair(t) {
        ScalarsOfScrubbed(t[2..]);
        assert s[0] == t[0] && s[1] == t[1] && s[2..] == Scrubbed(t[2..]);
      } else {
        ScalarsOfScrubbed(t[1..]);
        assert s[0] == Alone(t[0]) && s[1..] == Scrubbed(t[1..]);
      }
    }
  }

  /** Two texts are written as the same bytes exactly if they agree once unpaired surrogates
      are replaced. */
  lemma BytesEqualIffScrubbed(p: Text, q: Text)
    ensures Bytes(p) == Bytes(q) <==> Scrubbed(p) == Scrubbed(q)
  {
    Utf8.RoundTrip(Scalars(p));
    Utf8.RoundTrip(Scalars(q));
    UnitsOfScalars(p);
    UnitsOfScalars(q);
    ScalarsOfScrubbed(p);
    ScalarsOfScrubbed(q);
  }

  /** Texts without unpaired surrogates are told apart by their bytes. */
  lemma BytesExact(p: Text, q: Text)
    requires Paired(p) && Paired(q)
    ensures Bytes(p) == Bytes(q) <==> p == q
  {
    BytesEqualIffScrubbed(p, q);
    PairedIsScrubbed(p);
    PairedIsScrubbed(q);
  }

  lemma {:induction false} PairedJoins(a: Text, b: Text)
    requires Paired(a) && Paired(b)
    ensures Paired(a + b)
  {
    if a == [] {
      assert a + b == b;
    } else if StartsPair(a) {
      assert (a + b)[2..] == a[2..] + b;
      PairedJoins(a[2..], b);
    } else {
      assert (a + b)[1..] == a[1..] + b;
      PairedJoins(a[1..], b);
    }
  }

  lemma {:induction false} AsciiPaired(t: Text)
    requires forall u | u in t :: u < 0x80
    ensures Paired(t)
  {
    if t != [] {
      assert t[0] in t && forall u | u in t[1..] :: u in t;
      AsciiPaired(t[1..]);
    }
  }
}
