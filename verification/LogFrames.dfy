/** The container log stream: frames with an eight-byte header, decoded into log lines.

    A header holds the stream number, three zero bytes and the payload size as a 32-bit big-endian number. */
module LogFrames {
  newtype Byte = x: int | 0 <= x < 256

  const HEADER: nat := 8
  const CR: Byte := 13
  const LF: Byte := 10

  datatype Line = Line(stream: Byte, body: seq<Byte>)

  /** A frame as it is on the wire. */
  datatype Frame = Frame(header: seq<Byte>, payload: seq<Byte>)

  /** The header of a payload of `size` bytes. */
  function Header(stream: Byte, size: nat): seq<Byte> {
    [stream, 0, 0, 0, (size / 0x100_0000 % 256) as Byte, (size / 0x1_0000 % 256) as Byte, (size / 0x100 % 256) as Byte,
     (size % 256) as Byte]
  }

  /** strings.TrimRight(s, "\r\n"). */
  function TrimRight(s: seq<Byte>): seq<Byte> {
    if s != [] && (s[|s| - 1] == CR || s[|s| - 1] == LF) then TrimRight(s[..|s| - 1]) else s
  }

  /** What is left has no trailing line break, and only line breaks were taken away. */
  lemma {:induction false} TrimRightSpec(s: seq<Byte>)
    ensures var t := TrimRight(s);
            && t <= s
            && (t != [] ==> t[|t| - 1] != 13 && t[|t| - 1] != 10)
            && forall i | |t| <= i < |s| :: s[i] == 13 || s[i] == 10
  {
    if s != [] && (s[|s| - 1] == CR || s[|s| - 1] == LF) {
      TrimRightSpec(s[..|s| - 1]);
    }
  }

  /** The size field of the header at `pos`: a big-endian number. */
  function Size(s: seq<Byte>, pos: nat): nat
    requires pos + HEADER <= |s|
  {
    (s[pos + 4] as nat) * 0x100_0000 + (s[pos + 5] as nat) * 0x1_0000 + (s[pos + 6] as nat) * 0x100 + (s[pos + 7] as nat)
  }

  /** What one reader makes of a byte stream from `pos` on: it stops at the first incomplete header or payload. */
  function Decode(s: seq<Byte>, pos: nat): seq<Line>
    requires pos <= |s|
    decreases |s| - pos
  {
    if |s| < pos + HEADER then []
    else
      var next := pos + HEADER + Size(s, pos);
      if next == pos + HEADER then Decode(s, next)
      else if |s| < next then []
      else [Line(s[pos], TrimRight(s[pos + HEADER..next]))] + Decode(s, next)
  }

  /** The header says how long the payload is; its first byte names the stream, the padding is not looked at. */
  ghost predicate WellFormed(f: Frame) {
    |f.header| == 8 && Size(f.header, 0) == |f.payload|
  }

  function Encode(frames: seq<Frame>): seq<Byte> {
    if frames == [] then [] else frames[0].header + frames[0].payload + Encode(frames[1..])
  }

  /** The lines a list of frames stands for: the non-empty payloads, in order, without trailing line breaks. */
  function Lines(frames: seq<Frame>): seq<Line> {
    if frames == [] then [] else LineOf(frames[0]) + Lines(frames[1..])
  }

  function LineOf(f: Frame): seq<Line> {
    if f.payload == [] then [] else [Line(if f.header == [] then 0 else f.header[0], TrimRight(f.payload))]
  }

  /** Shifting and or-ing four bytes in 32 bits. */
  function Assemble(a: bv8, b: bv8, c: bv8, d: bv8): (n: nat)
    ensures n == (a as nat) * 0x100_0000 + (b as nat) * 0x1_0000 + (c as nat) * 0x100 + (d as nat)
  {
    (((a as bv32) << 24) | ((b as bv32) << 16) | ((c as bv32) << 8) | (d as bv32)) as nat
  }

  /** The bits of a byte. */
  function Bits(k: nat): (b: bv8)
    requires k < 256
    ensures b as nat == k
  {
    if k == 0 then 0 else Bits(k - 1) + 1
  }

  /** The reader's 32-bit shifts and ors assemble exactly the big-endian number. */
  function SizeBits(a: Byte, b: Byte, c: Byte, d: Byte): (n: nat)
    ensures n == (a as nat) * 0x100_0000 + (b as nat) * 0x1_0000 + (c as nat) * 0x100 + (d as nat)
  {
    Assemble(Bits(a as nat), Bits(b as nat), Bits(c as nat), Bits(d as nat))
  }

  lemma Digits(n: nat)
    requires n < 0x1_0000_0000
    ensures n == (n / 0x100_0000 % 256) * 0x100_0000 + (n / 0x1_0000 % 256) * 0x1_0000 + (n / 0x100 % 256) * 0x100 + n % 256
  {
  }

  /** Sizes decode exactly: every payload below 2^32 bytes has its header. */
  lemma SizeRoundTrip(stream: Byte, payload: seq<Byte>)
    requires |payload| < 0x1_0000_0000
    ensures WellFormed(Frame(Header(stream, |payload|), payload)) && Header(stream, |payload|)[0] == stream
  {
    Digits(|payload|);
  }

  lemma SizeAt(before: seq<Byte>, h: seq<Byte>, after: seq<Byte>)
    requires |h| == HEADER
    ensures var s := before + h + after;
            Size(s, |before|) == Size(h, 0) && s[|before|] == h[0]
  {
    var s := before + h + after;
    assert forall i | 0 <= i < HEADER :: s[|before| + i] == h[i];
  }

  /** The decoder at the start of a frame. */
  lemma DecodeFrame(before: seq<Byte>, f: Frame, after: seq<Byte>, s: seq<Byte>)
    requires WellFormed(f) && s == before + f.header + (f.payload + after)
    ensures Decode(s, |before|) == LineOf(f) + Decode(s, |before| + HEADER + |f.payload|)
  {
    SizeAt(before, f.header, f.payload + after);
    assert s[|before| + HEADER..|before| + HEADER + |f.payload|] == f.payload;
  }

  lemma Concat(a: seq<Byte>, b: seq<Byte>, c: seq<Byte>, d: seq<Byte>)
    ensures a + (b + c + d) == a + b + (c + d)
    ensures a + b + (c + d) == (a + b + c) + d
  {
    assert a + (b + c + d) == ((a + b) + c) + d;
    assert (a + b) + (c + d) == ((a + b) + c) + d;
  }

  lemma Wire(before: seq<Byte>, frames: seq<Frame>)
    requires frames != []
    ensures var f, after := frames[0], Encode(frames[1..]);
            && before + Encode(frames) == before + f.header + (f.payload + after)
            && before + Encode(frames) == (before + f.header + f.payload) + after
  {
    Concat(before, frames[0].header, frames[0].payload, Encode(frames[1..]));
  }

  /** Decoding inverts encoding, whatever has been read before. */
  lemma {:induction false} DecodeEncode(before: seq<Byte>, frames: seq<Frame>)
    requires forall i | 0 <= i < |frames| :: WellFormed(frames[i])
    ensures Decode(before + Encode(frames), |before|) == Lines(frames)
    decreases frames
  {
    if frames != [] {
      var f := frames[0];
      Wire(before, frames);
      DecodeFrame(before, f, Encode(frames[1..]), before + Encode(frames));
      DecodeEncode(before + f.header + f.payload, frames[1..]);
    }
  }

  /** A truncated stream yields a prefix of the lines, wherever it is cut. */
  lemma {:induction false} TruncationIsPrefix(s: seq<Byte>, n: nat, pos: nat)
    requires pos <= n <= |s|
    ensures Decode(s[..n], pos) <= Decode(s, pos)
    decreases n - pos
  {
    if pos + HEADER <= n {
      var next := pos + HEADER + Size(s, pos);
      assert Size(s[..n], pos) == Size(s, pos);
      if next <= n {
        assert s[..n][pos + HEADER..next] == s[pos + HEADER..next];
        TruncationIsPrefix(s, n, next);
      }
    }
  }

  lemma Regroup(a: seq<Line>, b: Line, c: seq<Line>)
    ensures a + ([b] + c) == (a + [b]) + c
  {
  }

  /** The reading loop. `alive` is how many times it finds its context not yet cancelled. Each round consumes at least a
      header; a cancelled or cut stream has published a prefix of the lines. */
  method Run(s: seq<Byte>, alive: nat) returns (published: seq<Line>)
    ensures published <= Decode(s, 0)
    ensures alive > |s| / HEADER ==> published == Decode(s, 0)
  {
    published := [];
    var pos := 0;
    var rounds := 0;
    while rounds < alive
      invariant rounds <= alive && HEADER * rounds <= pos <= |s|
      invariant Decode(s, 0) == published + Decode(s, pos)
      decreases alive - rounds
    {
      if |s| - pos < HEADER {
        return;
      }
      var header := s[pos..pos + HEADER];
      ghost var start := pos;
      pos := pos + HEADER;
      rounds := rounds + 1;
      var size := SizeBits(header[4], header[5], header[6], header[7]);
      assert size == Size(s, start);
      if size <= 0 {
        continue;
      }
      if |s| - pos < size {
        return;
      }
      var buf := s[pos..pos + size];
      pos := pos + size;
      Regroup(published, Line(header[0], TrimRight(buf)), Decode(s, pos));
      published := published + [Line(header[0], TrimRight(buf))];
    }
  }
}
