/** The output of a turn: bytes arrive in chunks cut anywhere, are decoded as they come,
    and only the latest part of the text is kept. */
module OutputStream {
  import opened Basics
  import opened Utf8

  const MAX_TURN_OUTPUT_BYTES: nat := 131072
  const BYTE_ORDER_MARK: Scalar := 0xFEFF

  // ----- the bounded tail

  function Size(text: seq<Scalar>): nat {
    if text == [] then 0 else Width(text[0]) + Size(text[1..])
  }

  /** The longest suffix of the text that fits. */
  function Bounded(text: seq<Scalar>, limit: nat): (r: seq<Scalar>)
    ensures Size(r) <= limit && |r| <= |text|
  {
    if Size(text) <= limit then text else Bounded(text[1..], limit)
  }

  /** It is a suffix, and every longer suffix is too long. */
  lemma {:induction false} BoundedIsLongest(text: seq<Scalar>, limit: nat, k: nat)
    requires k <= |text| - |Bounded(text, limit)|
    ensures k == |text| - |Bounded(text, limit)| ==> Bounded(text, limit) == text[k..]
    ensures k < |text| - |Bounded(text, limit)| ==> Size(text[k..]) > limit
  {
    if k == 0 {
      assert text[0..] == text;
    } else {
      BoundedIsLongest(text[1..], limit, k - 1);
      assert text[1..][k - 1..] == text[k..];
    }
  }

  lemma {:induction false} SizeJoins(a: seq<Scalar>, b: seq<Scalar>)
    ensures Size(a + b) == Size(a) + Size(b)
  {
    if a == [] {
      assert a + b == b;
    } else {
      assert (a + b)[1..] == a[1..] + b;
      SizeJoins(a[1..], b);
    }
  }

  /** Where the tail starts: a suffix that fits, while one more character does not. */
  lemma {:induction false} BoundedAt(text: seq<Scalar>, limit: nat, k: nat)
    requires k <= |text| && Size(text[k..]) <= limit
    requires k > 0 ==> Size(text[k - 1..]) > limit
    ensures Bounded(text, limit) == text[k..]
  {
    if k == 0 {
      assert text[0..] == text;
    } else {
      SizeJoins(text[..k - 1], text[k - 1..]);
      assert text[..k - 1] + text[k - 1..] == text;
      assert text[1..][k - 1..] == text[k..];
      if k > 1 { assert text[1..][k - 2..] == text[k - 1..]; }
      BoundedAt(text[1..], limit, k - 1);
    }
  }

  /** The source's loop, from the last character backwards. */
  method BoundedTail(text: seq<Scalar>, limit: nat) returns (r: seq<Scalar>)
    ensures r == Bounded(text, limit)
  {
    if Size(text) <= limit { return text; }
    var start, bytes := |text|, 0;
    while start > 0
      invariant 0 <= start <= |text|
      invariant bytes == Size(text[start..]) <= limit
    {
      assert text[start - 1..] == [text[start - 1]] + text[start..];
      if bytes + Width(text[start - 1]) > limit { break; }
      bytes := bytes + Width(text[start - 1]);
      start := start - 1;
    }
    if start == 0 { assert text[0..] == text; }
    BoundedAt(text, limit, start);
    return text[start..];
  }

  /** Keeping the tail at every step is the same as keeping the tail once. */
  lemma {:induction false} BoundedTwice(x: seq<Scalar>, y: seq<Scalar>, limit: nat)
    ensures Bounded(Bounded(x, limit) + y, limit) == Bounded(x + y, limit)
  {
    if Size(x) > limit {
      SizeJoins(x, y);
      assert (x + y)[1..] == x[1..] + y;
      assert Bounded(x + y, limit) == Bounded(x[1..] + y, limit);
      BoundedTwice(x[1..], y, limit);
    }
  }

  // ----- decoding a chunk

  /** What one decoding step yields: some text, and bytes kept for the next chunk. */
  datatype Piece = Piece(text: seq<Scalar>, remainder: seq<Byte>)

  /** The decoder drops a byte order mark at the start of what it is given. */
  function Stripped(text: seq<Scalar>): seq<Scalar> {
    if text != [] && text[0] == BYTE_ORDER_MARK then text[1..] else text
  }

  /** The text of the bytes without the last `m`, or of fewer; up to three are held back.
      Bytes that do not become text that way are decoded by `lossy`. */
  function Split(bytes: seq<Byte>, m: nat, lossy: seq<Byte> -> seq<Scalar>): Piece
    decreases 4 - m
  {
    if m > 3 || m > |bytes| then Piece(lossy(bytes), [])
    else
      var text := Decode(bytes[..|bytes| - m]);
      if text.Some? then Piece(Stripped(text.value), bytes[|bytes| - m..]) else Split(bytes, m + 1, lossy)
  }

  method DecodeIncrementally(previous: seq<Byte>, chunk: seq<Byte>, lossy: seq<Byte> -> seq<Scalar>) returns (p: Piece)
    ensures p == Split(previous + chunk, 0, lossy)
  {
    var combined := previous + chunk;
    var m := 0;
    while m <= 3 && m <= |combined|
      invariant 0 <= m <= 4
      invariant Split(combined, 0, lossy) == Split(combined, m, lossy)
    {
      var text := Decode(combined[..|combined| - m]);
      if text.Some? { return Piece(Stripped(text.value), combined[|combined| - m..]); }
      m := m + 1;
    }
    return Piece(lossy(combined), []);
  }

  /** A character that has only begun to arrive. */
  predicate Begun(r: seq<Byte>, c: Scalar) { |r| < Width(c) && r == EncodeOne(c)[..|r|] }

  lemma Chop<T>(a: seq<T>, r: seq<T>, m: nat)
    requires m <= |r|
    ensures (a + r)[..|a + r| - m] == a + r[..|r| - m] && (a + r)[|a + r| - |r|..] == r
  {}
  lemma ChopTwice<T>(a: seq<T>, n: nat, k: nat)
    requires k <= n <= |a|
    ensures a[..n][..k] == a[..k]
  {}

  /** Without the bytes of the character that has only begun, the text decodes; with some
      of them it does not. */
  lemma CutDecodes(text: seq<Scalar>, r: seq<Byte>, c: Scalar, k: nat)
    requires Begun(r, c) && k <= |r|
    ensures Decode(Encode(text) + r[..k]) == if k == 0 then Some(text) else None
  {
    DecodeEncoded(text, r[..k]);
    if k == 0 {
      assert text + [] == text;
    } else {
      ChopTwice(EncodeOne(c), |r|, k);
      CutShort(c, k);
    }
  }

  lemma {:induction false} SplitFinds(text: seq<Scalar>, r: seq<Byte>, c: Scalar, m: nat,
                                      lossy: seq<Byte> -> seq<Scalar>)
    requires Begun(r, c) && m <= |r|
    ensures Split(Encode(text) + r, m, lossy) == Piece(Stripped(text), r)
    decreases |r| - m
  {
    Chop(Encode(text), r, m);
    CutDecodes(text, r, c, |r| - m);
    if m < |r| { SplitFinds(text, r, c, m + 1, lossy); }
  }

  // ----- a whole stream

  function Flatten(chunks: seq<seq<Byte>>): seq<Byte> {
    if chunks == [] then [] else chunks[0] + Flatten(chunks[1..])
  }

  /** All the text that the chunks yield after some held-back bytes. */
  function Transcript(held: seq<Byte>, chunks: seq<seq<Byte>>, lossy: seq<Byte> -> seq<Scalar>): (r: Piece)
    decreases |chunks|
  {
    if chunks == [] then Piece([], held)
    else if chunks[0] == [] then Transcript(held, chunks[1..], lossy)
    else
      var p := Split(held + chunks[0], 0, lossy);
      var rest := Transcript(p.remainder, chunks[1..], lossy);
      Piece(p.text + rest.text, rest.remainder)
  }

  /** How many characters are whole within the first `n` bytes. */
  function Whole(text: seq<Scalar>, n: nat): (k: nat)
    ensures k <= |text|
  {
    if text == [] || n < Width(text[0]) then 0 else 1 + Whole(text[1..], n - Width(text[0]))
  }

  /** Any prefix of an encoding is whole characters and at most the beginning of one. */
  lemma {:induction false} PrefixShape(text: seq<Scalar>, n: nat) returns (r: seq<Byte>, c: Scalar)
    requires n <= |Encode(text)|
    ensures Begun(r, c) && Encode(text)[..n] == Encode(text[..Whole(text, n)]) + r
  {
    if text == [] {
      r, c := [], 0;
    } else if n < Width(text[0]) {
      r, c := EncodeOne(text[0])[..n], text[0];
      assert Encode(text)[..n] == r;
    } else {
      r, c := PrefixShape(text[1..], n - Width(text[0]));
      var k := Whole(text[1..], n - Width(text[0]));
      assert text[..k + 1][1..] == text[1..][..k] && text[..k + 1][0] == text[0];
      assert Encode(text)[..n] == EncodeOne(text[0]) + Encode(text[1..])[..n - Width(text[0])];
      Regroup(EncodeOne(text[0]), Encode(text[1..][..k]), r);
    }
  }

  lemma {:induction false} WholeShifts(text: seq<Scalar>, k: nat, n: nat)
    requires k <= |text| && |Encode(text[..k])| <= n
    ensures Whole(text, n) == k + Whole(text[k..], n - |Encode(text[..k])|)
  {
    if k == 0 {
      assert text[0..] == text;
    } else {
      assert text[..k][1..] == text[1..][..k - 1] && text[1..][k - 1..] == text[k..];
      WholeShifts(text[1..], k - 1, n - Width(text[0]));
    }
  }

  /** After some whole characters the stream goes on as the stream of the rest. */
  lemma Onwards(text: seq<Scalar>, k: nat, r: seq<Byte>, more: seq<Byte>, n: nat)
    requires k <= |text| && n <= |Encode(text)| && Encode(text[..k]) + r + more == Encode(text)[..n]
    ensures var e := |Encode(text[..k])|;
      e <= n && n - e <= |Encode(text[k..])| && r + more == Encode(text[k..])[..n - e]
  {
    var e := |Encode(text[..k])|;
    assert text[..k] + text[k..] == text;
    EncodeJoins(text[..k], text[k..]);
    assert |Encode(text)[..n]| == n;
    assert Encode(text)[..n][e..] == r + more;
  }

  lemma NoMarkStays(text: seq<Scalar>, k: nat)
    requires BYTE_ORDER_MARK !in text && k <= |text|
    ensures Stripped(text[..k]) == text[..k] && BYTE_ORDER_MARK !in text[k..]
  {
    if k > 0 { assert text[..k][0] == text[0] && text[0] in text; }
  }

  /** However a well-formed stream without byte order marks is cut into chunks, decoding
      yields exactly its whole characters so far and holds back the rest. */
  lemma {:induction false} ChunkInvariance(text: seq<Scalar>, held: seq<Byte>, c: Scalar, chunks: seq<seq<Byte>>,
                                           lossy: seq<Byte> -> seq<Scalar>, n: nat)
    requires BYTE_ORDER_MARK !in text && Begun(held, c)
    requires n <= |Encode(text)| && held + Flatten(chunks) == Encode(text)[..n]
    ensures var t := Transcript(held, chunks, lossy);
      t.text == text[..Whole(text, n)] && Encode(t.text) + t.remainder == Encode(text)[..n]
    decreases |chunks|
  {
    if chunks == [] {
      assert held + Flatten(chunks) == held;
      var r, d := PrefixShape(text, n);
      var k := Whole(text, n);
      SplitFinds([], held, c, 0, lossy);
      assert Encode([]) + held == held;
      SplitFinds(text[..k], r, d, 0, lossy);
      NoMarkStays(text, k);
    } else if chunks[0] == [] {
      assert Flatten(chunks) == Flatten(chunks[1..]);
      ChunkInvariance(text, held, c, chunks[1..], lossy, n);
    } else {
      var more := Flatten(chunks[1..]);
      var bytes := held + chunks[0];
      Regroup(held, chunks[0], more);
      var n0 := |bytes|;
      assert bytes == Encode(text)[..n][..n0] && Encode(text)[..n][..n0] == Encode(text)[..n0];
      var r, d := PrefixShape(text, n0);
      var k := Whole(text, n0);
      SplitFinds(text[..k], r, d, 0, lossy);
      NoMarkStays(text, k);
      Onwards(text, k, r, more, n);
      var e := |Encode(text[..k])|;
      ChunkInvariance(text[k..], r, d, chunks[1..], lossy, n - e);
      WholeShifts(text, k, n);
      Reassemble(text, k, n, Transcript(r, chunks[1..], lossy));
    }
  }

  lemma Reassemble(text: seq<Scalar>, k: nat, n: nat, rest: Piece)
    requires k <= |text| && |Encode(text[..k])| <= n <= |Encode(text)|
    requires Whole(text, n) == k + Whole(text[k..], n - |Encode(text[..k])|)
    requires n - |Encode(text[..k])| <= |Encode(text[k..])|
    requires rest.text == text[k..][..Whole(text[k..], n - |Encode(text[..k])|)]
    requires Encode(rest.text) + rest.remainder == Encode(text[k..])[..n - |Encode(text[..k])|]
    ensures text[..k] + rest.text == text[..Whole(text, n)]
    ensures Encode(text[..k] + rest.text) + rest.remainder == Encode(text)[..n]
  {
    var e := |Encode(text[..k])|;
    assert text[..k] + text[k..] == text;
    EncodeJoins(text[..k], text[k..]);
    EncodeJoins(text[..k], rest.text);
    Regroup(Encode(text[..k]), Encode(rest.text), rest.remainder);
    assert Encode(text)[..n] == Encode(text[..k]) + Encode(text[k..])[..n - e];
  }

  /** The text up to its first byte order mark. */
  lemma {:induction false} FirstMark(text: seq<Scalar>) returns (p: nat)
    requires BYTE_ORDER_MARK in text
    ensures p < |text| && text[p] == BYTE_ORDER_MARK && BYTE_ORDER_MARK !in text[..p]
  {
    if text[0] == BYTE_ORDER_MARK {
      p := 0;
    } else {
      assert text == [text[0]] + text[1..];
      p := FirstMark(text[1..]);
      assert text[1..][p] == text[p + 1] && text[..p + 1] == [text[0]] + text[1..][..p];
      p := p + 1;
    }
  }

  lemma SplitWhole(text: seq<Scalar>, lossy: seq<Byte> -> seq<Scalar>)
    ensures Split([] + Encode(text), 0, lossy) == Piece(Stripped(text), [])
  {
    SplitFinds(text, [], 0, 0, lossy);
    assert [] + Encode(text) == Encode(text) + [];
  }

  /** A mark that happens to start a chunk is lost. */
  lemma MarkLost(text: seq<Scalar>, lossy: seq<Byte> -> seq<Scalar>) returns (chunks: seq<seq<Byte>>)
    requires BYTE_ORDER_MARK in text
    ensures Flatten(chunks) == Encode(text) && Transcript([], chunks, lossy).text != text
  {
    var p := FirstMark(text);
    var a, b := Encode(text[..p]), Encode(text[p..]);
    assert text[..p] + text[p..] == text;
    EncodeJoins(text[..p], text[p..]);
    SplitWhole(text[..p], lossy);
    SplitWhole(text[p..], lossy);
    assert Stripped(text[..p]) == text[..p] by { if p > 0 { assert text[..p][0] in text[..p]; } }
    assert |Stripped(text[p..])| == |text[p..]| - 1;
    chunks := [a, b];
    var second: seq<seq<Byte>> := [b];
    assert chunks[1..] == second && |second[1..]| == 0 && b != [];
    assert Flatten(second) == b + Flatten(second[1..]);
    assert Transcript([], second, lossy).text == Stripped(text[p..]) + [];
    if a == [] {
      assert Transcript([], chunks, lossy) == Transcript([], second, lossy);
    } else {
      assert Transcript([], chunks, lossy).text == text[..p] + Transcript([], second, lossy).text;
    }
    assert |Transcript([], chunks, lossy).text| < |text|;
  }

  lemma AllDecoded(text: seq<Scalar>, chunks: seq<seq<Byte>>, lossy: seq<Byte> -> seq<Scalar>)
    requires BYTE_ORDER_MARK !in text && Flatten(chunks) == Encode(text)
    ensures Transcript([], chunks, lossy).text == text
  {
    var n := |Encode(text)|;
    assert [] + Flatten(chunks) == Encode(text)[..n];
    ChunkInvariance(text, [], 0, chunks, lossy, n);
    assert text[..|text|] == text;
    WholeShifts(text, |text|, n);
  }

  /** Decoding is independent of the chunking exactly for texts without a byte order mark. */
  lemma IndependentOfChunks(text: seq<Scalar>, lossy: seq<Byte> -> seq<Scalar>)
    ensures (forall chunks | Flatten(chunks) == Encode(text) :: Transcript([], chunks, lossy).text == text) <==>
      BYTE_ORDER_MARK !in text
  {
    if BYTE_ORDER_MARK in text {
      var chunks := MarkLost(text, lossy);
    } else {
      forall chunks | Flatten(chunks) == Encode(text) ensures Transcript([], chunks, lossy).text == text {
        AllDecoded(text, chunks, lossy);
      }
    }
  }

  // ----- the reader

  /** The part of a turn that follows its output. */
  class OutputReader {
    var cursor: nat
    var output: seq<Scalar>
    var remainder: seq<Byte>

    constructor (at: nat)
      ensures cursor == at && output == [] && remainder == []
    {
      cursor, output, remainder := at, [], [];
    }

    /** One read of the stream: refused unless it continues exactly at the cursor. */
    method Accept(at: nat, data: seq<Byte>, next: nat, lossy: seq<Byte> -> seq<Scalar>) returns (ok: bool)
      modifies this
      ensures ok <==> at == old(cursor) && next == at + |data|
      ensures !ok || data == [] ==> cursor == old(cursor) && output == old(output) && remainder == old(remainder)
      ensures ok && data != [] ==> var p := Split(old(remainder) + data, 0, lossy);
        cursor == next && output == Bounded(old(output) + p.text, MAX_TURN_OUTPUT_BYTES) && remainder == p.remainder
    {
      if next != cursor + |data| || at != cursor { return false; }
      if data != [] {
        var p := DecodeIncrementally(remainder, data, lossy);
        cursor := next;
        output := BoundedTail(output + p.text, MAX_TURN_OUTPUT_BYTES);
        remainder := p.remainder;
      }
      return true;
    }

    /** Any number of reads: the output is the tail of everything they yield. */
    method AcceptAll(chunks: seq<seq<Byte>>, lossy: seq<Byte> -> seq<Scalar>)
      requires Size(output) <= MAX_TURN_OUTPUT_BYTES
      modifies this
      ensures var t := Transcript(old(remainder), chunks, lossy);
        output == Bounded(old(output) + t.text, MAX_TURN_OUTPUT_BYTES) && remainder == t.remainder
      ensures cursor == old(cursor) + |Flatten(chunks)|
    {
      var i := 0;
      assert chunks[0..] == chunks;
      ghost var seen := [];
      assert output + seen == output;
      while i < |chunks|
        invariant 0 <= i <= |chunks|
        invariant output == Bounded(old(output) + seen, MAX_TURN_OUTPUT_BYTES)
        invariant var t := Transcript(old(remainder), chunks, lossy); var u := Transcript(remainder, chunks[i..],
                                                                                          lossy);
          t.text == seen + u.text && t.remainder == u.remainder
        invariant cursor + |Flatten(chunks[i..])| == old(cursor) + |Flatten(chunks)|
      {
        assert chunks[i..][0] == chunks[i] && chunks[i..][1..] == chunks[i + 1..];
        if chunks[i] != [] {
          var p := Split(remainder + chunks[i], 0, lossy);
          BoundedTwice(old(output) + seen, p.text, MAX_TURN_OUTPUT_BYTES);
          Regroup(old(output), seen, p.text);
          Regroup(seen, p.text, Transcript(p.remainder, chunks[i + 1..], lossy).text);
          seen := seen + p.text;
        }
        var _ := Accept(cursor, chunks[i], cursor + |chunks[i]|, lossy);
        i := i + 1;
      }
      assert seen + [] == seen;
    }
  }

  /** The output of a turn: the longest tail, within 128 KiB, of the whole characters that
      have arrived, for every way of cutting the stream. */
  method FollowTurn(text: seq<Scalar>, chunks: seq<seq<Byte>>, at: nat, lossy: seq<Byte> -> seq<Scalar>) returns (output: seq<Scalar>, held: seq<Byte>)
    requires BYTE_ORDER_MARK !in text
    requires var n := |Flatten(chunks)|; n <= |Encode(text)| && Flatten(chunks) == Encode(text)[..n]
    ensures output == Bounded(text[..Whole(text, |Flatten(chunks)|)], MAX_TURN_OUTPUT_BYTES)
    ensures Encode(text[..Whole(text, |Flatten(chunks)|)]) + held == Flatten(chunks)
  {
    var reader := new OutputReader(at);
    reader.AcceptAll(chunks, lossy);
    output, held := reader.output, reader.remainder;
    assert [] + Flatten(chunks) == Flatten(chunks);
    ChunkInvariance(text, [], 0, chunks, lossy, |Flatten(chunks)|);
    assert [] + Transcript([], chunks, lossy).text == Transcript([], chunks, lossy).text;
  }
}
