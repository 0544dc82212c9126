/** Length-prefixed messages over a byte stream that arrives in arbitrary chunks. */
module Framing {
  import opened Wrappers
  import opened Machine

  const TWO32: nat := 0x1_0000_0000

  datatype Error = EndOfStream | UnexpectedEnd | TooLarge(size: nat) | WriteFailed

  /* ----- Little-endian numbers ----- */

  function Little(n: nat, width: nat): (b: seq<Byte>)
    ensures |b| == width
  {
    if width == 0 then [] else [n % 256] + Little(n / 256, width - 1)
  }

  function Value(b: seq<Byte>): nat {
    if b == [] then 0 else b[0] + 256 * Value(b[1..])
  }

  function Pow256(width: nat): (p: nat)
    ensures p > 0
  {
    if width == 0 then 1 else 256 * Pow256(width - 1)
  }

  lemma {:induction false} ValueOfLittle(n: nat, width: nat)
    requires n < Pow256(width)
    ensures Value(Little(n, width)) == n
  {
    if width > 0 {
      assert n / 256 < Pow256(width - 1);
      ValueOfLittle(n / 256, width - 1);
      assert Little(n, width)[1..] == Little(n / 256, width - 1);
    }
  }

  lemma DigitsApart(low: Byte, high: nat, bound: nat)
    requires high < bound
    ensures (low + 256 * high) % 256 == low && (low + 256 * high) / 256 == high && low + 256 * high < 256 * bound
  {
  }

  lemma {:induction false} LittleOfValue(b: seq<Byte>)
    ensures Value(b) < Pow256(|b|) && Little(Value(b), |b|) == b
  {
    if b != [] {
      LittleOfValue(b[1..]);
      DigitsApart(b[0], Value(b[1..]), Pow256(|b| - 1));
      assert b == [b[0]] + b[1..];
    }
  }

  // The first byte is the least significant one.
  lemma {:induction false} LittleDigits(n: nat, width: nat, k: nat)
    requires k < width
    ensures Little(n, width)[k] == n / Pow256(k) % 256 && Pow256(0) == 1 && Pow256(k + 1) == 256 * Pow256(k)
  {
    if k > 0 {
      LittleDigits(n / 256, width - 1, k - 1);
      DivTwice(n, 256, Pow256(k - 1));
    }
  }

  lemma DivTwice(n: nat, a: nat, b: nat)
    requires a > 0 && b > 0
    ensures a * b > 0 && n / a / b == n / (a * b)
  {
    var q := n / a / b;
    DivBounds(n, a);
    DivBounds(n / a, b);
    assert a * b > 0;
    assert a * b * q == a * (b * q);
    MulMono(a, b * q, n / a);
    MulMono(a, n / a + 1, b * q + b);
    assert a * (b * q + b) == a * b * q + a * b;
    assert a * (n / a + 1) == a * (n / a) + a;
    DivUnique(n, a * b, q);
  }

  /* ----- Reading a chunked stream ----- */

  function Flatten(chunks: seq<seq<Byte>>): seq<Byte> {
    if chunks == [] then [] else chunks[0] + Flatten(chunks[1..])
  }

  // The stream is what its pieces say, however it is cut: pieces in a row, and a piece cut in two, read the same.
  lemma {:induction false} CutsDoNotMatter(chunks: seq<seq<Byte>>, more: seq<seq<Byte>>)
    ensures Flatten(chunks + more) == Flatten(chunks) + Flatten(more)
    decreases |chunks|
  {
    if chunks == [] {
      assert chunks + more == more;
    } else {
      assert (chunks + more)[1..] == chunks[1..] + more;
      CutsDoNotMatter(chunks[1..], more);
      assert chunks[0] + (Flatten(chunks[1..]) + Flatten(more)) == (chunks[0] + Flatten(chunks[1..])) + Flatten(more);
    }
  }

  lemma OnePiece(b: seq<Byte>, k: nat)
    requires k <= |b|
    ensures Flatten([b]) == b && Flatten([b[..k], b[k..]]) == b
  {
    assert [b][1..] == [] && [b[..k], b[k..]][1..] == [b[k..]] && [b[k..]][1..] == [];
    assert b[..k] + b[k..] == b;
  }

  lemma ContentsMean(stream: ByteStream)
    ensures stream.Contents() == Flatten(stream.chunks)
  {
  }

  /** What is left to arrive, in the pieces the network will deliver it in; a piece may be empty. */
  class ByteStream {
    var chunks: seq<seq<Byte>>

    constructor (chunks: seq<seq<Byte>>)
      ensures this.chunks == chunks
    {
      this.chunks := chunks;
    }

    function Contents(): seq<Byte>
      reads this
    {
      Flatten(chunks)
    }

    // At most max bytes, from the next chunk only.
    method Read(max: nat) returns (b: seq<Byte>, eof: bool)
      modifies this
      ensures eof <==> old(chunks) == []
      ensures old(Contents()) == b + Contents() && |b| <= max
      ensures eof ==> b == []
      ensures !eof && max > 0 ==> |chunks| < |old(chunks)| || |b| == max
    {
      if chunks == [] {
        return [], true;
      }
      var c := chunks[0];
      if |c| <= max {
        b := c;
        chunks := chunks[1..];
      } else {
        b := c[..max];
        assert c == b + c[max..];
        chunks := [c[max..]] + chunks[1..];
        assert Flatten(chunks) == c[max..] + Flatten(old(chunks)[1..]);
        assert b + (c[max..] + Flatten(old(chunks)[1..])) == c + Flatten(old(chunks)[1..]);
      }
      return b, false;
    }

    // Exactly n bytes, or an error once the stream ends.
    method ReadFull(n: nat) returns (r: Result<seq<Byte>, Error>)
      modifies this
      ensures r == Full(old(Contents()), n)
      ensures Contents() == AfterFull(old(Contents()), n)
    {
      var b: seq<Byte> := [];
      while |b| < n
        invariant |b| <= n
        invariant old(Contents()) == b + Contents()
        decreases n - |b|, |chunks|
      {
        ghost var before := b;
        var piece, eof := Read(n - |b|);
        assert b + (piece + Contents()) == (b + piece) + Contents();
        if eof {
          assert Contents() == [];
          assert b == old(Contents());
          return Err(if b == [] then EndOfStream else UnexpectedEnd);
        }
        b := b + piece;
      }
      assert old(Contents())[..n] == b;
      return Ok(b);
    }

    method ReadVarBytes(maxMsgSize: nat) returns (r: Result<seq<Byte>, Error>)
      requires maxMsgSize < TWO32
      modifies this
      ensures (r, Contents()) == Parse(old(Contents()), maxMsgSize)
    {
      var header := ReadFull(4);
      if header.Err? {
        return header;
      }
      var size := Value(header.value);
      if size > maxMsgSize {
        return Err(TooLarge(size));
      }
      r := ReadFull(size);
    }
  }

  function Full(contents: seq<Byte>, n: nat): Result<seq<Byte>, Error> {
    if n <= |contents| then Ok(contents[..n]) else if contents == [] then Err(EndOfStream) else Err(UnexpectedEnd)
  }

  function AfterFull(contents: seq<Byte>, n: nat): seq<Byte> {
    if n <= |contents| then contents[n..] else []
  }

  // A read of n bytes succeeds exactly if there are that many, and then takes the first n and no more; an empty stream and
  // one that ends too early are different errors, and leave nothing.
  lemma FullMeans(contents: seq<Byte>, n: nat)
    ensures var r := Full(contents, n);
            && (r.Ok? <==> n <= |contents|)
            && (r.Ok? ==> |r.value| == n && contents == r.value + AfterFull(contents, n))
            && (r == Err(EndOfStream) <==> |contents| == 0 < n)
            && (r == Err(UnexpectedEnd) <==> 0 < |contents| < n)
            && (r.Err? ==> AfterFull(contents, n) == [])
  {
  }

  // One message off the front of the stream, and what is left.
  function Parse(contents: seq<Byte>, maxMsgSize: nat): (Result<seq<Byte>, Error>, seq<Byte>) {
    var header := Full(contents, 4);
    if header.Err? then (header, AfterFull(contents, 4))
    else
      var size := Value(header.value);
      var body := AfterFull(contents, 4);
      if size > maxMsgSize then (Err(TooLarge(size)), body) else (Full(body, size), AfterFull(body, size))
  }

  // A stream shorter than a header, or shorter than its header announces, is an error.
  lemma TruncatedIsRefused(contents: seq<Byte>, maxMsgSize: nat)
    ensures |contents| == 0 ==> Parse(contents, maxMsgSize).0 == Err(EndOfStream)
    ensures 0 < |contents| < 4 ==> Parse(contents, maxMsgSize).0 == Err(UnexpectedEnd)
    ensures |contents| >= 4 ==>
      var size := Value(contents[..4]);
      && (size > maxMsgSize ==> Parse(contents, maxMsgSize) == (Err(TooLarge(size)), contents[4..]))
      && (|contents| == 4 && 0 < size <= maxMsgSize ==> Parse(contents, maxMsgSize).0 == Err(EndOfStream))
      && (4 < |contents| < 4 + size && size <= maxMsgSize ==> Parse(contents, maxMsgSize).0 == Err(UnexpectedEnd))
      && (4 + size <= |contents| && size <= maxMsgSize ==>
            Parse(contents, maxMsgSize) == (Ok(contents[4..4 + size]), contents[4 + size..]))
  {
    if |contents| >= 4 {
      var size := Value(contents[..4]);
      if 4 + size <= |contents| {
        assert contents[4..][..size] == contents[4..4 + size] && contents[4..][size..] == contents[4 + size..];
      }
    }
  }

  /* ----- Writing ----- */

  class ByteSink {
    var written: seq<Byte>

    constructor ()
      ensures written == []
    {
      written := [];
    }

    method Write(b: seq<Byte>, ok: bool)
      modifies this
      ensures written == old(written) + if ok then b else []
    {
      if ok {
        written := written + b;
      }
    }
  }

  function Frame(b: seq<Byte>): seq<Byte> {
    Little(|b| % TWO32, 4) + b
  }

  // headerOk and bodyOk are the outcomes of the two writes.
  method WriteVarBytes(w: ByteSink, b: seq<Byte>, headerOk: bool, bodyOk: bool) returns (r: Result<(), Error>)
    modifies w
    ensures r.Ok? <==> headerOk && bodyOk
    ensures w.written == old(w.written) + if !headerOk then [] else if !bodyOk then Little(|b| % TWO32, 4) else Frame(b)
  {
    var lenBuf := Little(|b| % TWO32, 4);
    assert Frame(b) == lenBuf + b;
    w.Write(lenBuf, headerOk);
    if !headerOk {
      return Err(WriteFailed);
    }
    w.Write(b, bodyOk);
    assert (old(w.written) + lenBuf) + b == old(w.written) + Frame(b);
    if !bodyOk {
      return Err(WriteFailed);
    }
    return Ok(());
  }

  /* ----- Round trips ----- */

  lemma Pow256Four()
    ensures Pow256(4) == TWO32
  {
    assert Pow256(1) == 256 && Pow256(2) == 0x1_0000;
  }

  lemma FullSplits(b: seq<Byte>, rest: seq<Byte>)
    ensures Full(b + rest, |b|) == Ok(b) && AfterFull(b + rest, |b|) == rest
  {
    assert (b + rest)[..|b|] == b && (b + rest)[|b|..] == rest;
  }

  lemma HeaderValue(size: nat)
    requires size < TWO32
    ensures Value(Little(size, 4)) == size
  {
    Pow256Four();
    ValueOfLittle(size, 4);
  }

  lemma FrameParts(b: seq<Byte>, rest: seq<Byte>)
    ensures Full(Frame(b) + rest, 4) == Ok(Little(|b| % TWO32, 4)) && AfterFull(Frame(b) + rest, 4) == b + rest
    ensures Value(Little(|b| % TWO32, 4)) == |b| % TWO32
  {
    HeaderThenBody(Little(|b| % TWO32, 4), b, rest);
    HeaderValue(|b| % TWO32);
  }

  lemma HeaderThenBody(header: seq<Byte>, b: seq<Byte>, rest: seq<Byte>)
    ensures Full((header + b) + rest, |header|) == Ok(header) && AfterFull((header + b) + rest, |header|) == b + rest
  {
    assert (header + b) + rest == header + (b + rest);
    FullSplits(header, b + rest);
  }

  // A written message is read back, with nothing else consumed, exactly when it is within the reader's limit.
  lemma RoundTrip(b: seq<Byte>, rest: seq<Byte>, maxMsgSize: nat)
    requires maxMsgSize < TWO32
    ensures Parse(Frame(b) + rest, maxMsgSize) == (Ok(b), rest) <==> |b| <= maxMsgSize
  {
    FrameParts(b, rest);
    if |b| <= maxMsgSize {
      FullSplits(b, rest);
    } else if |b| % TWO32 <= maxMsgSize {
      assert |Full(b + rest, |b| % TWO32).value| == |b| % TWO32 < |b|;
    }
  }

  // An oversized message is refused with only its four-byte header consumed.
  lemma OversizedKeepsPayload(b: seq<Byte>, rest: seq<Byte>, maxMsgSize: nat)
    requires maxMsgSize < |b| < TWO32
    ensures Parse(Frame(b) + rest, maxMsgSize) == (Err(TooLarge(|b|)), b + rest)
  {
    FrameParts(b, rest);
  }

  function FrameAll(msgs: seq<seq<Byte>>): seq<Byte> {
    if msgs == [] then [] else Frame(msgs[0]) + FrameAll(msgs[1..])
  }

  // n messages in a row, stopping at the first that does not parse.
  function ParseAll(contents: seq<Byte>, n: nat, maxMsgSize: nat): (seq<seq<Byte>>, seq<Byte>)
    decreases n
  {
    if n == 0 then ([], contents)
    else
      var (r, rest) := Parse(contents, maxMsgSize);
      if r.Err? then ([], rest)
      else
        var (more, left) := ParseAll(rest, n - 1, maxMsgSize);
        ([r.value] + more, left)
  }

  lemma FramesSplit(msgs: seq<seq<Byte>>, rest: seq<Byte>)
    ensures msgs == [] ==> FrameAll(msgs) + rest == rest
    ensures msgs != [] ==> FrameAll(msgs) + rest == Frame(msgs[0]) + (FrameAll(msgs[1..]) + rest)
  {
  }

  lemma FirstParsed(contents: seq<Byte>, n: nat, maxMsgSize: nat, b: seq<Byte>, rest: seq<Byte>, more: seq<seq<Byte>>, left: seq<Byte>)
    requires n > 0 && Parse(contents, maxMsgSize) == (Ok(b), rest) && ParseAll(rest, n - 1, maxMsgSize) == (more, left)
    ensures ParseAll(contents, n, maxMsgSize) == ([b] + more, left)
  {
  }

  lemma {:induction false} RoundTripAll(msgs: seq<seq<Byte>>, rest: seq<Byte>, maxMsgSize: nat)
    requires maxMsgSize < TWO32
    requires forall i :: 0 <= i < |msgs| ==> |msgs[i]| <= maxMsgSize
    ensures ParseAll(FrameAll(msgs) + rest, |msgs|, maxMsgSize) == (msgs, rest)
    decreases |msgs|
  {
    FramesSplit(msgs, rest);
    if msgs != [] {
      var tail := FrameAll(msgs[1..]) + rest;
      RoundTrip(msgs[0], tail, maxMsgSize);
      RoundTripAll(msgs[1..], rest, maxMsgSize);
      FirstParsed(FrameAll(msgs) + rest, |msgs|, maxMsgSize, msgs[0], tail, msgs[1..], rest);
      assert msgs == [msgs[0]] + msgs[1..];
    }
  }
}
