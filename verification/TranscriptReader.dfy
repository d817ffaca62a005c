/**
 * The reader agrees with a parse from scratch, however reads are sliced and
 * whatever is appended, replaced in the incomplete tail, rotated, or fails to
 * decode in between (src/pi-integration/session-manager-transcript.ts:114-298).
 */
module TranscriptReader {
  import opened TranscriptLines

  // ---------------------------------------------------------------- Invariant

  ghost predicate AtLineStart(content: Bytes, k: nat) {
    k <= |content| && (k > 0 ==> content[k - 1] == NEWLINE)
  }

  /** The retained entries are the parse of the consumed prefix. */
  ghost predicate ParsedTo(d: Decoder, r: Reader, content: Bytes) {
    && r.state.Some? && AtLineStart(content, r.cursor)
    && FullParse(d, content[..r.cursor]) == r.state.value && r.state.value.cursor == r.cursor && !r.state.value.stuck
  }

  ghost predicate AnchorOk(r: Reader, content: Bytes) {
    |r.anchor| <= r.cursor <= |content| && content[r.cursor - |r.anchor|..r.cursor] == r.anchor
  }

  /** The bytes read and not consumed follow the cursor; at a chunk's end so do the remembered ones. */
  ghost predicate ReadOk(r: Reader, content: Bytes) {
    match r.pending
    case None => r.readPosition == r.cursor + |r.partial|
    case Some(it) =>
      && r.cursor <= it.position <= |content| && content[r.cursor..it.position] == it.buffer
      && r.known.Some? && r.known.value.size == it.size
      && (!it.scanning ==> NEWLINE !in it.buffer && r.partial == it.buffer && r.readPosition == it.position)
  }

  /** A stat that still holds means everything was read. */
  ghost predicate KnownOk(r: Reader, f: File) {
    r.known.Some? ==>
      && r.known.value.file == r.file && r.known.value.stamp <= f.stamp
      && (r.known.value.stamp == f.stamp ==>
            && r.known.value.size == |f.content|
            && (r.pending.None? ==>
                 r.cursor <= |f.content| && r.readPosition == |f.content| && NEWLINE !in f.content[r.cursor..]))
  }

  ghost predicate ReaderOk(d: Decoder, r: Reader, disk: Disk) {
    && DiskOk(disk)
    && (r.state.None? ==> r.pending.None? && r.known.None?)
    && (r.state.Some? ==>
          && r.file in disk.files
          && var f := disk.files[r.file];
             ParsedTo(d, r, f.content) && AnchorOk(r, f.content) && ReadOk(r, f.content) && KnownOk(r, f))
  }

  // ------------------------------------------------------------- The disk moves

  /** Complete lines are never taken back. */
  ghost predicate LinesKept(a: Bytes, b: Bytes) {
    forall k: nat {:trigger AtLineStart(a, k)} :: AtLineStart(a, k) ==> k <= |b| && b[..k] == a[..k]
  }

  function Rewrite(disk: Disk, id: nat, content: Bytes, stamp: nat): Disk {
    disk.(files := disk.files[id := File(content, stamp)])
  }

  function Rotate(disk: Disk, id: nat, f: File): Disk {
    Disk(disk.files[id := f], id)
  }

  ghost predicate Moves(disk: Disk, disk': Disk) {
    || (exists id, content, stamp ::
          id in disk.files && disk' == Rewrite(disk, id, content, stamp) && disk.files[id].stamp < stamp
          && LinesKept(disk.files[id].content, content))
    || (exists id, f :: id !in disk.files && disk' == Rotate(disk, id, f))
  }

  predicate SamePrefix(n: nat, a: Bytes, b: Bytes) {
    n <= |a| ==> n <= |b| && b[..n] == a[..n]
  }

  /** While an iteration is under way, the bytes it has read stay; otherwise the incomplete tail may change freely. */
  ghost predicate TailKept(r: Reader, disk: Disk, disk': Disk) {
    r.pending.Some? && r.file in disk.files && r.file in disk'.files ==>
      SamePrefix(r.pending.value.position, disk.files[r.file].content, disk'.files[r.file].content)
  }

  lemma MovesOk(d: Decoder, r: Reader, disk: Disk, disk': Disk)
    requires ReaderOk(d, r, disk) && Moves(disk, disk') && TailKept(r, disk, disk')
    ensures ReaderOk(d, r, disk')
  {
    hide FullParse;
    if r.state.Some? {
      var a, b := disk.files[r.file].content, disk'.files[r.file].content;
      if a != b {
        assert AtLineStart(a, r.cursor);
        assert b[..r.cursor] == a[..r.cursor];
        assert b[r.cursor - |r.anchor|..r.cursor] == b[..r.cursor][r.cursor - |r.anchor|..];
        assert a[r.cursor - |r.anchor|..r.cursor] == a[..r.cursor][r.cursor - |r.anchor|..];
        if r.pending.Some? {
          var p := r.pending.value.position;
          assert a[r.cursor..p] == a[..p][r.cursor..] && b[r.cursor..p] == b[..p][r.cursor..];
        }
        assert r.cursor > 0 ==> b[..r.cursor][r.cursor - 1] == a[..r.cursor][r.cursor - 1];
      }
    }
  }

  // -------------------------------------------------------------- The reader moves

  lemma StartOk(d: Decoder, r: Reader, disk: Disk)
    requires ReaderOk(d, r, disk)
    ensures ReaderOk(d, Start(r, disk), disk) && Start(r, disk).state.Some?
    ensures Start(r, disk).pending.None? ==>
              Start(r, disk).state.value == FullParse(d, disk.files[disk.current].content)
  {
    var s := Start(r, disk);
    if s.pending.None? {
      var content := disk.files[disk.current].content;
      NoNewLine(d, content, r.cursor);
    }
  }

  /** Where the line in front of the buffer ends, and what taking it does to the parse. */
  lemma FrontLine(d: Decoder, r: Reader, content: Bytes)
    requires ParsedTo(d, r, content) && ReadOk(r, content) && r.pending.Some?
    requires IndexOfNewLine(r.pending.value.buffer) < |r.pending.value.buffer|
    ensures var (buffer, position) := (r.pending.value.buffer, r.pending.value.position);
            var end := r.cursor + IndexOfNewLine(buffer) + 1;
            && end <= position <= |content| && content[end - 1] == NEWLINE
            && buffer[IndexOfNewLine(buffer) + 1..] == content[end..position]
            && buffer[..IndexOfNewLine(buffer) + 1] == content[r.cursor..end]
            && FullParse(d, content[..end]) == Take(r.state.value, d(buffer[..IndexOfNewLine(buffer)]), end)
  {
    hide FullParse, IndexOfNewLine, Take;
    var it := r.pending.value;
    var k := IndexOfNewLine(it.buffer);
    LineInBuffer(content, r.cursor, it.position, k);
    NextLine(d, content, r.cursor, r.cursor + k);
  }

  lemma TakeLineOk(d: Decoder, r: Reader, disk: Disk, n: nat)
    requires ReaderOk(d, r, disk) && r.pending.Some? && r.state.Some? && n > 0
    requires r.pending.value.scanning && IndexOfNewLine(r.pending.value.buffer) < |r.pending.value.buffer|
    ensures ReaderOk(d, Advance(d, r, disk, n).reader, disk)
    ensures Advance(d, r, disk, n).Throws? ==>
              FullParse(d, disk.files[r.file].content) == r.state.value.(stuck := true)
                && Advance(d, r, disk, n).reader.state == r.state
  {
    hide FullParse, IndexOfNewLine, AnchorOf;
    var content := disk.files[r.file].content;
    var end := r.cursor + IndexOfNewLine(r.pending.value.buffer) + 1;
    FrontLine(d, r, content);
    AnchorAt(content, r.cursor, end);
    if FullParse(d, content[..end]).stuck {
      StuckStays(d, content, end);
    } else {
      var next := Advance(d, r, disk, n).reader;
      assert ParsedTo(d, next, content) && AnchorOk(next, content);
      assert ReadOk(next, content) && KnownOk(next, disk.files[r.file]);
    }
  }

  lemma LineInBuffer(content: Bytes, cursor: nat, position: nat, k: nat)
    requires cursor <= position <= |content| && k < position - cursor
    ensures var buffer := content[cursor..position];
            && buffer[..k] == content[cursor..cursor + k] && buffer[k] == content[cursor + k]
            && buffer[k + 1..] == content[cursor + k + 1..position]
            && buffer[..k + 1] == content[cursor..cursor + k + 1]
  {
  }

  lemma AnchorAt(content: Bytes, cursor: nat, end: nat)
    requires cursor <= end <= |content|
    ensures var a := AnchorOf(content[cursor..end]); |a| <= end && content[end - |a|..end] == a
  {
  }

  lemma AdvanceOk(d: Decoder, r: Reader, disk: Disk, n: nat)
    requires ReaderOk(d, r, disk) && r.pending.Some? && r.state.Some? && n > 0
    ensures ReaderOk(d, Advance(d, r, disk, n).reader, disk)
    ensures Advance(d, r, disk, n).Throws? ==>
              FullParse(d, disk.files[r.file].content) == r.state.value.(stuck := true)
                && Advance(d, r, disk, n).reader.state == r.state
  {
    hide FullParse, LinesKept;
    var it, content := r.pending.value, disk.files[r.file].content;
    if it.scanning {
      if IndexOfNewLine(it.buffer) < |it.buffer| {
        TakeLineOk(d, r, disk, n);
      }
    } else if it.position < it.size && it.position < |content| {
      var size := if it.size < |content| then it.size else |content|;
      var end := if it.position + n < size then it.position + n else size;
      assert content[r.cursor..end] == content[r.cursor..it.position] + content[it.position..end];
    } else if it.position == |content| {
      assert content[r.cursor..it.position] == content[r.cursor..];
    }
  }

  // --------------------------------------------------------------------- Runs

  datatype State = State(reader: Reader, disk: Disk)

  /** A change on disk, the start of a read, or one turn of the consumer; one read may return less than it asks for. */
  ghost predicate OpenStep(d: Decoder, s: State, t: State) {
    || (s.reader == t.reader && Moves(s.disk, t.disk))
    || (DiskOk(s.disk) && t == s.(reader := Start(s.reader, s.disk)))
    || (s.reader.pending.Some? && s.reader.state.Some? && s.reader.file in s.disk.files && s.disk == t.disk
        && exists n: nat :: 0 < n <= READ_CHUNK_BYTES && t.reader == Advance(d, s.reader, s.disk, n).reader)
  }

  /** As above, while no tail is replaced under way. */
  ghost predicate Step(d: Decoder, s: State, t: State) {
    OpenStep(d, s, t) && TailKept(s.reader, s.disk, t.disk)
  }

  predicate Fresh(s: State) {
    s.reader == NEW_READER && s.disk.current in s.disk.files
  }

  ghost predicate OpenRun(d: Decoder, ss: seq<State>) {
    ss != [] && Fresh(ss[0]) && forall i :: 0 <= i < |ss| - 1 ==> OpenStep(d, ss[i], ss[i + 1])
  }

  ghost predicate Run(d: Decoder, ss: seq<State>) {
    ss != [] && Fresh(ss[0]) && forall i :: 0 <= i < |ss| - 1 ==> Step(d, ss[i], ss[i + 1])
  }

  lemma StepOk(d: Decoder, s: State, t: State)
    requires ReaderOk(d, s.reader, s.disk) && Step(d, s, t)
    ensures ReaderOk(d, t.reader, t.disk)
  {
    hide ReaderOk, Moves, Start, Advance, TailKept;
    if s.reader == t.reader && Moves(s.disk, t.disk) {
      MovesOk(d, s.reader, s.disk, t.disk);
    } else if DiskOk(s.disk) && t == s.(reader := Start(s.reader, s.disk)) {
      StartOk(d, s.reader, s.disk);
    } else {
      var n: nat :| 0 < n <= READ_CHUNK_BYTES && t.reader == Advance(d, s.reader, s.disk, n).reader;
      AdvanceOk(d, s.reader, s.disk, n);
    }
  }

  lemma {:induction false} RunOk(d: Decoder, ss: seq<State>, i: nat)
    requires Run(d, ss) && i < |ss|
    ensures ReaderOk(d, ss[i].reader, ss[i].disk)
    decreases i
  {
    hide ReaderOk, Step;
    if i == 0 {
      NewReaderOk(d, ss[0].disk);
    } else {
      RunOk(d, ss, i - 1);
      assert Step(d, ss[i - 1], ss[i - 1 + 1]);
      StepOk(d, ss[i - 1], ss[i]);
    }
  }

  lemma NewReaderOk(d: Decoder, disk: Disk)
    requires DiskOk(disk)
    ensures ReaderOk(d, NEW_READER, disk)
  {
  }

  /**
   * In every run: what is retained is exactly the parse of the complete lines
   * before the cursor; at the end of every chunk and between reads the read
   * position is as far past the cursor as the remembered tail is long; and a
   * read that finds nothing new has retained the parse of the whole file.
   */
  lemma ReaderAgreesWithFullParse(d: Decoder, ss: seq<State>, i: nat)
    requires Run(d, ss) && i < |ss| && ss[i].reader.state.Some?
    ensures var (r, disk) := (ss[i].reader, ss[i].disk);
            && r.file in disk.files && r.cursor <= |disk.files[r.file].content|
            && FullParse(d, disk.files[r.file].content[..r.cursor]) == r.state.value && r.state.value.cursor == r.cursor
            && (r.pending.None? || !r.pending.value.scanning ==> r.readPosition - |r.partial| == r.cursor)
            && (DiskOk(disk) && Start(r, disk).pending.None? ==>
                 r.state.value == FullParse(d, disk.files[disk.current].content))
  {
    hide Run, Start, FullParse;
    var r, disk := ss[i].reader, ss[i].disk;
    RunOk(d, ss, i);
    StartOk(d, r, disk);
    if Start(r, disk).pending.None? {
      StartedNothing(r, disk);
    }
    if r.pending.Some? && !r.pending.value.scanning {
      assert |r.pending.value.buffer| == r.pending.value.position - r.cursor;
    }
  }

  lemma StartedNothing(r: Reader, disk: Disk)
    requires DiskOk(disk) && Start(r, disk).pending.None?
    ensures Start(r, disk) == r
  {
  }

  // ------------------------------------------------------- The rest of a read

  /** How much an iteration still has to do. */
  function Left(it: Iteration): nat {
    (if it.position < it.size then 4 * (it.size - it.position) else 0) + 2 * |it.buffer| + (if it.scanning then 1
        else 0)
  }

  lemma AdvanceSteps(d: Decoder, r: Reader, disk: Disk, n: nat)
    requires r.pending.Some? && r.state.Some? && r.file in disk.files && n > 0
    ensures var t := Advance(d, r, disk, n);
            && t.reader.file == r.file && t.reader.state.Some?
            && (t.Throws? ==> t.reader.pending.None?)
            && (!t.Throws? ==> t.reader.known == r.known)
            && (t.reader.pending.Some? ==> Left(t.reader.pending.value) < Left(r.pending.value))
  {
    hide Take, AnchorOf;
  }

  /** How many bytes a read at each position returns. */
  ghost predicate ChunkSizes(sizes: nat -> nat) {
    forall p :: 0 < sizes(p) <= READ_CHUNK_BYTES
  }

  /** An iteration drained on a file that stays as it is, to its end or its first failure. */
  ghost function Finish(d: Decoder, r: Reader, disk: Disk, sizes: nat -> nat): (end: Reader)
    requires (r.pending.Some? ==> r.state.Some?) && r.file in disk.files && ChunkSizes(sizes)
    ensures end.pending.None?
    decreases if r.pending.Some? then 1 + Left(r.pending.value) else 0
  {
    if r.pending.None? then r
    else
      AdvanceSteps(d, r, disk, sizes(r.pending.value.position));
      Finish(d, Advance(d, r, disk, sizes(r.pending.value.position)).reader, disk, sizes)
  }

  lemma {:induction false} FinishOk(d: Decoder, r: Reader, disk: Disk, sizes: nat -> nat)
    requires ReaderOk(d, r, disk) && r.file in disk.files && ChunkSizes(sizes)
    ensures ReaderOk(d, Finish(d, r, disk, sizes), disk)
    decreases if r.pending.Some? then 1 + Left(r.pending.value) else 0
  {
    hide ReaderOk, Advance, Left;
    HasState(d, r, disk);
    if r.pending.Some? {
      var n := sizes(r.pending.value.position);
      AdvanceOk(d, r, disk, n);
      AdvanceSteps(d, r, disk, n);
      FinishOk(d, Advance(d, r, disk, n).reader, disk, sizes);
    }
  }

  lemma HasState(d: Decoder, r: Reader, disk: Disk)
    requires ReaderOk(d, r, disk)
    ensures r.pending.Some? ==> r.state.Some?
  {
  }

  // ----------------------------------------------------------------- The object

  class SessionFileTranscriptReader {
    const decode: Decoder
    var reader: Reader

    constructor (decode: Decoder)
      ensures reader == NEW_READER && this.decode == decode
    {
      this.decode, reader := decode, NEW_READER;
    }

    /** Drains the shared cursor. */
    method Drain(disk: Disk, sizes: nat -> nat) returns (ok: bool)
      requires ReaderOk(decode, reader, disk) && ChunkSizes(sizes)
      modifies this
      ensures ReaderOk(decode, reader, disk) && reader.pending.None?
      ensures old(reader).pending.Some? ==>
                old(reader).file in disk.files && old(reader).state.Some?
                  && reader == Finish(decode, old(reader), disk, sizes)
      ensures old(reader).pending.None? ==> ok && reader == old(reader)
      ensures reader.file == old(reader).file && (old(reader).state.Some? ==> reader.state.Some?)
      ensures !ok ==>
                reader.state.Some?
                && FullParse(decode, disk.files[reader.file].content) == reader.state.value.(stuck := true)
      ensures ok && old(reader).pending.Some? ==> reader.known == old(reader).known
    {
      hide FullParse, ReadOk, ParsedTo, AnchorOk, KnownOk;
      while reader.pending.Some?
        invariant ReaderOk(decode, reader, disk)
        invariant old(reader).pending.Some? ==>
                    old(reader).file in disk.files && old(reader).state.Some? && reader.state.Some?
                    && Finish(decode, reader, disk, sizes) == Finish(decode, old(reader), disk, sizes)
        invariant old(reader).pending.None? ==> reader == old(reader)
        invariant reader.file == old(reader).file && (old(reader).state.Some? ==> reader.state.Some?)
        invariant old(reader).pending.Some? ==> reader.known == old(reader).known
        decreases if reader.pending.Some? then 1 + Left(reader.pending.value) else 0
      {
        var n := sizes(reader.pending.value.position);
        AdvanceOk(decode, reader, disk, n);
        AdvanceSteps(decode, reader, disk, n);
        var turn := Advance(decode, reader, disk, n);
        reader := turn.reader;
        if turn.Throws? {
          return false;
        }
      }
      return true;
    }

    /**
     * A synchronous read of a file that stays as it is: the parse of all its
     * complete lines, or an error after retaining those before the first line
     * that cannot be taken.
     */
    method Read(disk: Disk, sizes: nat -> nat) returns (transcript: Option<Transcript>)
      requires ReaderOk(decode, reader, disk) && ChunkSizes(sizes)
      modifies this
      ensures ReaderOk(decode, reader, disk) && reader.pending.None? && reader.state.Some?
      ensures transcript.Some? ==>
                transcript == reader.state && transcript.value == FullParse(decode, disk.files[disk.current].content)
      ensures transcript.None? ==>
                FullParse(decode, disk.files[reader.file].content) == reader.state.value.(stuck := true)
    {
      hide FullParse, ReadOk, ParsedTo, AnchorOk, KnownOk, Start;
      StartOk(decode, reader, disk);
      reader := Start(reader, disk);
      var ok := Drain(disk, sizes);
      if !ok {
        return None;
      }
      StartOk(decode, reader, disk);
      ghost var between := reader;
      reader := Start(reader, disk);
      ok := Drain(disk, sizes);
      if !ok {
        return None;
      }
      ghost var again := Start(reader, disk);
      StartOk(decode, reader, disk);
      NowKnown(between, reader, disk);
      return reader.state;
    }
  }

  lemma NowKnown(before: Reader, r: Reader, disk: Disk)
    requires DiskOk(disk) && r.state.Some? && r.pending.None? && before.pending.None? && before.state.Some?
    requires if Start(before, disk).pending.None? then r == Start(before, disk)
               else r.known == Start(before, disk).known
    ensures Start(r, disk) == r
  {
  }
}
