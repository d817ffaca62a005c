/**
 * Newline-delimited framing of the Control channel: any chunking of the byte
 * stream handles the same frames and fails on the same input
 * (src/control/agent-control-channel.ts:347-372, 549-567,
 * src/control/in-memory-control-transport.ts:91-104).
 */
module ControlFraming {
  newtype byte = x: int | 0 <= x < 256
  type Bytes = seq<byte>

  const NEWLINE: byte := 10

  datatype Option<T> = None | Some(value: T)

  /** Parses and handles one line; `None` when that throws. */
  type Handler<!S> = (S, Bytes) -> Option<S>

  /** A reader between two bytes: still open with an unfinished line, or closed after `state`. */
  datatype Reader<S> = Open(state: S, buffer: Bytes) | Closed(state: S)

  // -------------------------------------- The unsplit stream, byte by byte

  function FeedByte<S>(max: nat, handle: Handler<S>, r: Reader<S>, b: byte): Reader<S> {
    match r
    case Closed(_) => r
    case Open(state, buffer) =>
      if b != NEWLINE then (if |buffer| < max then Open(state, buffer + [b]) else Closed(state))
      else if buffer == [] then Closed(state)
      else match handle(state, buffer)
           case None => Closed(state)
           case Some(state') => Open(state', [])
  }

  function Feed<S>(max: nat, handle: Handler<S>, r: Reader<S>, bytes: Bytes): Reader<S>
    decreases |bytes|
  {
    if bytes == [] then r else FeedByte(max, handle, Feed(max, handle, r, bytes[..|bytes| - 1]), bytes[|bytes| - 1])
  }

  lemma {:induction false} FeedAppend<S>(max: nat, handle: Handler<S>, r: Reader<S>, a: Bytes, b: Bytes)
    ensures Feed(max, handle, r, a + b) == Feed(max, handle, Feed(max, handle, r, a), b)
    decreases |b|
  {
    if b == [] {
      assert a + b == a;
    } else {
      var init := b[..|b| - 1];
      assert (a + b)[..|a + b| - 1] == a + init;
      FeedAppend(max, handle, r, a, init);
    }
  }

  lemma {:induction false} FeedClosed<S>(max: nat, handle: Handler<S>, r: Reader<S>, bytes: Bytes)
    requires r.Closed?
    ensures Feed(max, handle, r, bytes) == r
    decreases |bytes|
  {
    if bytes != [] {
      FeedClosed(max, handle, r, bytes[..|bytes| - 1]);
    }
  }

  /** A stretch without a newline joins the buffer as a whole or exceeds the limit as a whole. */
  lemma {:induction false} FeedSegment<S>(max: nat, handle: Handler<S>, r: Reader<S>, segment: Bytes)
    requires r.Open? && |r.buffer| <= max && NEWLINE !in segment
    ensures Feed(max, handle, r, segment) ==
            if |r.buffer| + |segment| <= max then Open(r.state, r.buffer + segment) else Closed(r.state)
    decreases |segment|
  {
    if segment == [] {
      assert r.buffer + segment == r.buffer;
    } else {
      var init, b := segment[..|segment| - 1], segment[|segment| - 1];
      assert segment == init + [b];
      FeedSegment(max, handle, r, init);
      assert r.buffer + segment == (r.buffer + init) + [b];
    }
  }

  /** A complete line is handled exactly when it is neither empty nor too long; any other closes the channel. */
  lemma LineDecides<S>(max: nat, handle: Handler<S>, s: S, line: Bytes)
    requires NEWLINE !in line
    ensures Feed(max, handle, Open(s, []), line + [NEWLINE]) ==
            if 0 < |line| <= max && handle(s, line).Some? then Open(handle(s, line).value, []) else Closed(s)
  {
    FeedSegment(max, handle, Open(s, []), line);
    assert [] + line == line;
    assert (line + [NEWLINE])[..|line + [NEWLINE]| - 1] == line;
  }

  // ------------------------------------------------- The channel's reader

  function Concat(chunks: seq<Bytes>): Bytes {
    if chunks == [] then [] else Concat(chunks[..|chunks| - 1]) + chunks[|chunks| - 1]
  }

  lemma ConcatSnoc(chunks: seq<Bytes>, chunk: Bytes)
    ensures Concat(chunks + [chunk]) == Concat(chunks) + chunk
  {
    assert (chunks + [chunk])[..|chunks + [chunk]| - 1] == chunks;
  }

  /** The first newline at or after `offset`, or the end of the chunk. */
  method FindNewline(chunk: Bytes, offset: nat) returns (end: nat)
    requires offset <= |chunk|
    ensures offset <= end <= |chunk| && NEWLINE !in chunk[offset..end]
    ensures end < |chunk| ==> chunk[end] == NEWLINE
  {
    end := offset;
    while end < |chunk| && chunk[end] != NEWLINE
      invariant offset <= end <= |chunk| && forall i :: offset <= i < end ==> chunk[i] != NEWLINE
    {
      end := end + 1;
    }
  }

  class FrameReader<!S> {
    const maximumFrameBytes: nat
    const handle: Handler<S>
    var state: S
    var buffer: Bytes
    var closed: bool

    ghost function View(): Reader<S>
      reads this
    {
      if closed then Closed(state) else Open(state, buffer)
    }

    ghost predicate Valid()
      reads this
    {
      !closed ==> |buffer| <= maximumFrameBytes
    }

    constructor (maximumFrameBytes: nat, handle: Handler<S>, state: S)
      ensures Valid() && View() == Open(state, [])
      ensures this.maximumFrameBytes == maximumFrameBytes && this.handle == handle
    {
      this.maximumFrameBytes, this.handle := maximumFrameBytes, handle;
      this.state, buffer, closed := state, [], false;
    }

    /** Chunk-wise reading agrees with the byte-wise stream. */
    method Receive(chunk: Bytes)
      requires Valid()
      modifies this
      ensures Valid() && View() == Feed(maximumFrameBytes, handle, old(View()), chunk)
    {
      ghost var r0 := View();
      if closed {
        FeedClosed(maximumFrameBytes, handle, r0, chunk);
        return;
      }
      var offset := 0;
      assert chunk[..0] == [];
      while offset < |chunk|
        invariant 0 <= offset <= |chunk| && !closed && Valid()
        invariant View() == Feed(maximumFrameBytes, handle, r0, chunk[..offset])
      {
        var end := FindNewline(chunk, offset);
        var segment := chunk[offset..end];
        ghost var r := View();
        ReadSegment(maximumFrameBytes, handle, r0, chunk, offset, end, r);
        if |buffer| + |segment| > maximumFrameBytes {
          closed := true;
          return;
        }
        buffer := buffer + segment;
        if end == |chunk| {
          assert chunk[..end] == chunk;
          return;
        }
        if |buffer| == 0 {
          closed := true;
          return;
        }
        var line := buffer;
        buffer := [];
        match handle(state, line) {
          case None =>
            closed := true;
            return;
          case Some(state') =>
            state := state';
        }
        offset := end + 1;
      }
      assert chunk[..offset] == chunk;
    }
  }

  /** What the stream does over one more segment and, if there is one, its newline. */
  lemma ReadSegment<S>(max: nat, handle: Handler<S>, r0: Reader<S>, chunk: Bytes, offset: nat, end: nat, r: Reader<S>)
    requires offset <= end <= |chunk| && NEWLINE !in chunk[offset..end]
    requires end < |chunk| ==> chunk[end] == NEWLINE
    requires r == Feed(max, handle, r0, chunk[..offset]) && r.Open? && |r.buffer| <= max
    ensures var buffer := r.buffer + chunk[offset..end];
            if |buffer| > max then Feed(max, handle, r0, chunk) == Closed(r.state)
            else
              && Feed(max, handle, r0, chunk[..end]) == Open(r.state, buffer)
              && (end < |chunk| ==>
                    var r' := FeedByte(max, handle, Open(r.state, buffer), NEWLINE);
                    && Feed(max, handle, r0, chunk[..end + 1]) == r'
                    && (r'.Closed? ==> Feed(max, handle, r0, chunk) == r'))
  {
    hide FeedByte;
    var segment := chunk[offset..end];
    FeedSegment(max, handle, r, segment);
    FeedAppend(max, handle, r0, chunk[..offset], segment);
    assert chunk[..offset] + segment == chunk[..end];
    ClosedStays(max, handle, r0, chunk, end);
    if end < |chunk| {
      assert chunk[..end + 1][..end] == chunk[..end];
      ClosedStays(max, handle, r0, chunk, end + 1);
    }
  }

  lemma ClosedStays<S>(max: nat, handle: Handler<S>, r0: Reader<S>, chunk: Bytes, n: nat)
    requires n <= |chunk|
    ensures var r := Feed(max, handle, r0, chunk[..n]); r.Closed? ==> Feed(max, handle, r0, chunk) == r
  {
    var r := Feed(max, handle, r0, chunk[..n]);
    if r.Closed? {
      FeedAppend(max, handle, r0, chunk[..n], chunk[n..]);
      assert chunk[..n] + chunk[n..] == chunk;
      FeedClosed(max, handle, r, chunk[n..]);
    }
  }

  /** Delivers chunks one by one; only the bytes matter, not where they were cut. */
  method ReceiveAll<S>(reader: FrameReader<S>, chunks: seq<Bytes>)
    requires reader.Valid()
    modifies reader
    ensures reader.Valid()
    ensures reader.View() == Feed(reader.maximumFrameBytes, reader.handle, old(reader.View()), Concat(chunks))
  {
    ghost var r0 := reader.View();
    for i := 0 to |chunks|
      invariant reader.Valid()
      invariant reader.View() == Feed(reader.maximumFrameBytes, reader.handle, r0, Concat(chunks[..i]))
    {
      reader.Receive(chunks[i]);
      assert chunks[..i + 1] == chunks[..i] + [chunks[i]];
      ConcatSnoc(chunks[..i], chunks[i]);
      FeedAppend(reader.maximumFrameBytes, reader.handle, r0, Concat(chunks[..i]), chunks[i]);
    }
    assert chunks[..|chunks|] == chunks;
  }

  // -------------------------------------------------------- Fragmentation

  function SizeAt(sizes: seq<nat>, i: nat): (n: nat)
    requires sizes != []
    ensures n in sizes
  {
    sizes[i % |sizes|]
  }

  /** The chunks follow the repeating sizes; when nothing is left, the last one may be shorter. */
  ghost predicate CutBy(chunks: seq<Bytes>, sizes: seq<nat>, done: bool)
    requires sizes != []
  {
    forall i :: 0 <= i < |chunks| ==>
      0 < |chunks[i]| <= SizeAt(sizes, i) && (i < |chunks| - 1 || !done ==> |chunks[i]| == SizeAt(sizes, i))
  }

  lemma CutMore(chunks: seq<Bytes>, chunk: Bytes, sizes: seq<nat>, done: bool)
    requires sizes != [] && CutBy(chunks, sizes, false)
    requires 0 < |chunk| <= SizeAt(sizes, |chunks|) && (!done ==> |chunk| == SizeAt(sizes, |chunks|))
    ensures CutBy(chunks + [chunk], sizes, done)
  {
    hide SizeAt;
  }

  /** Cuts data into chunks of repeating sizes. */
  method Fragment(data: Bytes, sizes: seq<nat>) returns (chunks: seq<Bytes>)
    requires forall n :: n in sizes ==> n > 0
    ensures Concat(chunks) == data
    ensures sizes != [] && data != [] ==> CutBy(chunks, sizes, true)
    ensures sizes == [] || data == [] ==> chunks == [data]
  {
    hide SizeAt, CutBy;
    if |sizes| == 0 || |data| == 0 {
      ConcatSnoc([], data);
      assert [] + [data] == [data];
      return [data];
    }
    chunks := [];
    assert CutBy(chunks, sizes, false) by {
      NothingCut(sizes);
    }
    var offset, sequence := 0, 0;
    while offset < |data|
      invariant 0 <= offset <= |data| && sequence == |chunks|
      invariant Concat(chunks) == data[..offset]
      invariant CutBy(chunks, sizes, offset == |data|)
    {
      var requested := SizeAt(sizes, sequence);
      var end := if offset + requested < |data| then offset + requested else |data|;
      ConcatSnoc(chunks, data[offset..end]);
      assert data[..offset] + data[offset..end] == data[..end];
      CutMore(chunks, data[offset..end], sizes, end == |data|);
      chunks := chunks + [data[offset..end]];
      offset := end;
      sequence := sequence + 1;
    }
    assert data[..offset] == data;
  }

  lemma NothingCut(sizes: seq<nat>)
    requires sizes != []
    ensures CutBy([], sizes, false)
  {
  }

  // ---------------------------------------------------------- Round trip

  /** How frames become lines and back. */
  datatype Codec<!F> = Codec(encode: F -> Bytes, decode: Bytes -> Option<F>)

  /** A frame that passes local admission: its JSON is a non-empty line within the limit that parses back. */
  ghost predicate Admitted<F>(codec: Codec<F>, max: nat, f: F) {
    var line := codec.encode(f);
    0 < |line| <= max && NEWLINE !in line && codec.decode(line) == Some(f)
  }

  function Serialize<F>(codec: Codec<F>, f: F): Bytes {
    codec.encode(f) + [NEWLINE]
  }

  function Stream<F>(codec: Codec<F>, frames: seq<F>): Bytes {
    if frames == [] then [] else Stream(codec, frames[..|frames| - 1]) + Serialize(codec, frames[|frames| - 1])
  }

  /** Parses a line and passes the frame on. */
  function Handling<S, F>(codec: Codec<F>, step: (S, F) -> Option<S>): Handler<S> {
    (s, line) => match codec.decode(line) case None => None case Some(f) => step(s, f)
  }

  /** Handling frames directly, up to the first that is refused. */
  function HandleAll<S, F>(step: (S, F) -> Option<S>, s: S, frames: seq<F>): Reader<S> {
    if frames == [] then Open(s, []) else
      match HandleAll(step, s, frames[..|frames| - 1])
      case Closed(s') => Closed(s')
      case Open(s', _) => (match step(s', frames[|frames| - 1]) case None => Closed(s') case Some(s'') => Open(s'', []))
  }

  lemma {:induction false} HandledKeepsNoRest<S, F>(step: (S, F) -> Option<S>, s: S, frames: seq<F>)
    ensures HandleAll(step, s, frames).Open? ==> HandleAll(step, s, frames).buffer == []
  {
  }

  /** Reading a stream of admitted frames handles exactly those frames. */
  lemma {:induction false} StreamRoundTrip<S, F>(codec: Codec<F>, max: nat, step: (S, F) -> Option<S>, s: S,
                                                 frames: seq<F>)
    requires forall f :: f in frames ==> Admitted(codec, max, f)
    ensures Feed(max, Handling(codec, step), Open(s, []), Stream(codec, frames)) == HandleAll(step, s, frames)
    decreases |frames|
  {
    if frames != [] {
      var init, f := frames[..|frames| - 1], frames[|frames| - 1];
      assert f in frames;
      StreamRoundTrip(codec, max, step, s, init);
      FeedAppend(max, Handling(codec, step), Open(s, []), Stream(codec, init), Serialize(codec, f));
      FrameRoundTrip(codec, max, step, HandleAll(step, s, init), f);
      HandledKeepsNoRest(step, s, init);
    }
  }

  lemma FrameRoundTrip<S, F>(codec: Codec<F>, max: nat, step: (S, F) -> Option<S>, r: Reader<S>, f: F)
    requires Admitted(codec, max, f) && (r.Open? ==> r.buffer == [])
    ensures Feed(max, Handling(codec, step), r, Serialize(codec, f)) ==
            match r
            case Closed(_) => r
            case Open(s, _) => (match step(s, f) case None => Closed(s) case Some(s') => Open(s', []))
  {
    var handle, line := Handling(codec, step), codec.encode(f);
    if r.Closed? {
      FeedClosed(max, handle, r, Serialize(codec, f));
    } else {
      FeedSegment(max, handle, r, line);
      assert [] + line == line;
      assert Serialize(codec, f)[..|Serialize(codec, f)| - 1] == line;
    }
  }

  /** A stream of admitted frames, received in any chunks, is handled as exactly those frames. */
  method ReceiveChunked<S, F>(reader: FrameReader<S>, codec: Codec<F>, step: (S, F) -> Option<S>, s: S, frames: seq<F>,
                              chunks: seq<Bytes>)
    requires reader.Valid() && reader.View() == Open(s, []) && reader.handle == Handling(codec, step)
    requires forall f :: f in frames ==> Admitted(codec, reader.maximumFrameBytes, f)
    requires Concat(chunks) == Stream(codec, frames)
    modifies reader
    ensures reader.Valid() && reader.View() == HandleAll(step, s, frames)
  {
    ReceiveAll(reader, chunks);
    StreamRoundTrip(codec, reader.maximumFrameBytes, step, s, frames);
  }

  /** Frames written one by one, each cut into chunks of repeating sizes, are handled as exactly those frames. */
  method SendFrames<S, F>(reader: FrameReader<S>, codec: Codec<F>, step: (S, F) -> Option<S>, s: S, frames: seq<F>,
                          sizes: seq<nat>)
    requires reader.Valid() && reader.View() == Open(s, []) && reader.handle == Handling(codec, step)
    requires forall f :: f in frames ==> Admitted(codec, reader.maximumFrameBytes, f)
    requires forall n :: n in sizes ==> n > 0
    modifies reader
    ensures reader.Valid() && reader.View() == HandleAll(step, s, frames)
  {
    for i := 0 to |frames|
      invariant reader.Valid() && reader.View() == HandleAll(step, s, frames[..i])
    {
      var chunks := Fragment(Serialize(codec, frames[i]), sizes);
      ReceiveAll(reader, chunks);
      assert frames[..i + 1][..i] == frames[..i];
      HandledKeepsNoRest(step, s, frames[..i]);
      FrameRoundTrip(codec, reader.maximumFrameBytes, step, HandleAll(step, s, frames[..i]), frames[i]);
    }
    assert frames[..|frames|] == frames;
  }
}
