/**
 * The JSONL transcript reader as values: a byte cursor that advances only
 * across complete lines, an open that restarts an incomplete tail, and an
 * interruptible consumer (src/pi-integration/session-manager-transcript.ts:151-275).
 */
module TranscriptLines {
  newtype byte = x: int | 0 <= x < 256
  type Bytes = seq<byte>

  const NEWLINE: byte := 10
  const READ_CHUNK_BYTES: nat := 65536
  const CURSOR_ANCHOR_BYTES: nat := 128

  datatype Option<T> = None | Some(value: T)

  /** What decoding one line gives; `Bad` stands for every failure to decode, parse or admit it. */
  datatype Line = Blank | Header(session: string) | Entry(id: string) | Bad

  type Decoder = Bytes -> Line

  // ------------------------------------------------------- A parse from scratch

  /** `stuck` at the first line that cannot be taken; `cursor` is then its first byte. */
  datatype Transcript = Transcript(header: Option<string>, entries: seq<string>, cursor: nat, stuck: bool)

  const NOTHING := Transcript(None, [], 0, false)

  /** A session header is taken only at the start of the file. */
  function Take(t: Transcript, line: Line, end: nat): Transcript {
    match line
    case Blank => t.(cursor := end)
    case Header(session) => if t.cursor != 0 then t.(stuck := true) else Transcript(Some(session), [], end, false)
    case Entry(id) => t.(entries := t.entries + [id], cursor := end)
    case Bad => t.(stuck := true)
  }

  /** The parse of the complete lines of `bytes`, byte by byte. */
  function FullParse(d: Decoder, bytes: Bytes): (t: Transcript)
    ensures t.cursor <= |bytes|
  {
    if bytes == [] then NOTHING
    else
      var n := |bytes| - 1;
      var t := FullParse(d, bytes[..n]);
      if bytes[n] != NEWLINE || t.stuck then t else Take(t, d(bytes[t.cursor..n]), n + 1)
  }

  // The same parse by whole lines: split first, then look at each line.

  datatype Split = Split(lines: seq<Bytes>, rest: Bytes)

  function SplitLines(bytes: Bytes): Split {
    if bytes == [] then Split([], [])
    else
      var n := |bytes| - 1;
      var s := SplitLines(bytes[..n]);
      if bytes[n] == NEWLINE then Split(s.lines + [s.rest], []) else Split(s.lines, s.rest + [bytes[n]])
  }

  /** Every line decodes, and a session header only as the first. */
  ghost predicate AllTaken(d: Decoder, lines: seq<Bytes>) {
    forall i :: 0 <= i < |lines| ==> !d(lines[i]).Bad? && (d(lines[i]).Header? ==> i == 0)
  }

  function EntriesOf(d: Decoder, lines: seq<Bytes>): seq<string> {
    if lines == [] then []
    else
      var last := d(lines[|lines| - 1]);
      EntriesOf(d, lines[..|lines| - 1]) + if last.Entry? then [last.id] else []
  }

  function HeaderOf(d: Decoder, lines: seq<Bytes>): Option<string> {
    if lines != [] && d(lines[0]).Header? then Some(d(lines[0]).session) else None
  }

  /** `t` is what `lines` say, its cursor behind the last of them. */
  ghost predicate Says(d: Decoder, lines: seq<Bytes>, t: Transcript) {
    && AllTaken(d, lines) && t.entries == EntriesOf(d, lines) && t.header == HeaderOf(d, lines)
    && (t.cursor == 0 <==> lines == [])
  }

  /** The parse stopped in front of line `k`, the first that cannot be taken. */
  ghost predicate StopsAt(d: Decoder, lines: seq<Bytes>, k: int, t: Transcript) {
    && 0 <= k < |lines| && Says(d, lines[..k], t.(stuck := false))
    && (d(lines[k]).Bad? || (d(lines[k]).Header? && k > 0))
  }

  /**
   * The parse of a file is what its complete lines say, up to the first that
   * does not decode or is a misplaced header; the cursor stands behind them.
   */
  lemma {:induction false} ParseExactly(d: Decoder, bytes: Bytes)
    ensures var (t, s) := (FullParse(d, bytes), SplitLines(bytes));
            if t.stuck then exists k :: StopsAt(d, s.lines, k, t)
            else Says(d, s.lines, t) && bytes[t.cursor..] == s.rest
    decreases |bytes|
  {
    if bytes != [] {
      var n := |bytes| - 1;
      var init := bytes[..n];
      ParseExactly(d, init);
      var t, s := FullParse(d, init), SplitLines(init);
      if t.stuck {
        var k :| StopsAt(d, s.lines, k, t);
        assert SplitLines(bytes).lines[..k] == s.lines[..k];
        assert StopsAt(d, SplitLines(bytes).lines, k, FullParse(d, bytes));
      } else if bytes[n] == NEWLINE {
        assert bytes[t.cursor..n] == init[t.cursor..];
        LineSays(d, s.lines, s.rest, t, n + 1);
      } else {
        assert bytes[t.cursor..] == init[t.cursor..] + [bytes[n]];
      }
    }
  }

  lemma LineSays(d: Decoder, lines: seq<Bytes>, line: Bytes, t: Transcript, end: nat)
    requires Says(d, lines, t) && !t.stuck && end > 0
    ensures var t' := Take(t, d(line), end);
            if t'.stuck then StopsAt(d, lines + [line], |lines|, t')
            else Says(d, lines + [line], t') && t'.cursor == end
  {
    var all := lines + [line];
    assert all[..|all| - 1] == lines && all[..|lines|] == lines;
  }

  lemma {:induction false} NoNewLine(d: Decoder, bytes: Bytes, k: nat)
    requires k <= |bytes| && NEWLINE !in bytes[k..]
    ensures FullParse(d, bytes) == FullParse(d, bytes[..k])
    decreases |bytes|
  {
    if k < |bytes| {
      var n := |bytes| - 1;
      assert bytes[n] == bytes[k..][n - k];
      assert forall b :: b in bytes[..n][k..] ==> b in bytes[k..];
      assert bytes[..n][..k] == bytes[..k];
      NoNewLine(d, bytes[..n], k);
    } else {
      assert bytes[..k] == bytes;
    }
  }

  /** One more complete line. */
  lemma NextLine(d: Decoder, bytes: Bytes, cursor: nat, end: nat)
    requires cursor <= end < |bytes| && bytes[end] == NEWLINE && NEWLINE !in bytes[cursor..end]
    requires FullParse(d, bytes[..cursor]).cursor == cursor && !FullParse(d, bytes[..cursor]).stuck
    ensures FullParse(d, bytes[..end + 1]) == Take(FullParse(d, bytes[..cursor]), d(bytes[cursor..end]), end + 1)
  {
    var prefix := bytes[..end + 1];
    assert prefix[..end] == bytes[..end] && bytes[..end][..cursor] == bytes[..cursor]
           && bytes[..end][cursor..] == bytes[cursor..end];
    NoNewLine(d, bytes[..end], cursor);
    assert prefix[cursor..end] == bytes[cursor..end];
  }

  lemma {:induction false} StuckStays(d: Decoder, bytes: Bytes, k: nat)
    requires k <= |bytes| && FullParse(d, bytes[..k]).stuck
    ensures FullParse(d, bytes) == FullParse(d, bytes[..k])
    decreases |bytes|
  {
    if k < |bytes| {
      var n := |bytes| - 1;
      assert bytes[..n][..k] == bytes[..k];
      StuckStays(d, bytes[..n], k);
    } else {
      assert bytes[..k] == bytes;
    }
  }

  // ------------------------------------------------------------ Disk and reader

  /** `stamp` stands for the modification times: it grows with every change. */
  datatype File = File(content: Bytes, stamp: nat)

  /** Open descriptors keep reading the file they opened, whatever the path names now. */
  datatype Disk = Disk(files: map<nat, File>, current: nat)

  ghost predicate DiskOk(disk: Disk) {
    disk.current in disk.files
  }

  /** The generator between two turns: `buffer` is what was read and not consumed. */
  datatype Iteration = Iteration(size: nat, position: nat, buffer: Bytes, scanning: bool)

  datatype Known = Known(file: nat, size: nat, stamp: nat)

  /** `known` is the last stat taken over, forgotten after a failure; `file` the identity it had. */
  datatype Reader = Reader(
    state: Option<Transcript>, cursor: nat, file: nat, known: Option<Known>,
    partial: Bytes, readPosition: nat, anchor: Bytes, pending: Option<Iteration>)

  const NEW_READER := Reader(None, 0, 0, None, [], 0, [], None)

  function StatOf(disk: Disk): Known
    requires DiskOk(disk)
  {
    Known(disk.current, |disk.files[disk.current].content|, disk.files[disk.current].stamp)
  }

  function Reset(r: Reader): Reader {
    r.(state := Some(NOTHING), cursor := 0, readPosition := 0, partial := [], anchor := [])
  }

  predicate MustReset(r: Reader, now: Known) {
    || r.state.None? || r.file != now.file || now.size < r.readPosition
    || (r.known.Some? && r.known.value.size == now.size && r.known.value.stamp != now.stamp)
  }

  predicate AnchorMoved(r: Reader, content: Bytes) {
    r.cursor > 0 && r.anchor != []
      && !(|r.anchor| <= r.cursor <= |content| && content[r.cursor - |r.anchor|..r.cursor] == r.anchor)
  }

  /** Nothing to do when the stat is the known one; otherwise restart at the cursor, or from scratch. */
  function Start(r: Reader, disk: Disk): Reader
    requires DiskOk(disk)
  {
    var now := StatOf(disk);
    if r.pending.Some? || (r.state.Some? && r.known == Some(now)) then r
    else
      var a := if MustReset(r, now) then Reset(r) else r;
      var b := if AnchorMoved(a, disk.files[disk.current].content) then Reset(a) else a;
      b.(partial := [], readPosition := b.cursor, file := now.file, known := Some(now),
         pending := Some(Iteration(now.size, b.cursor, [], false)))
  }

  function IndexOfNewLine(bytes: Bytes): (k: nat)
    ensures k <= |bytes| && NEWLINE !in bytes[..k] && (k < |bytes| ==> bytes[k] == NEWLINE)
  {
    if bytes == [] || bytes[0] == NEWLINE then 0
    else
      var k := IndexOfNewLine(bytes[1..]);
      assert bytes[..k + 1] == [bytes[0]] + bytes[1..][..k];
      k + 1
  }

  function AnchorOf(line: Bytes): Bytes {
    if |line| <= CURSOR_ANCHOR_BYTES then line else line[|line| - CURSOR_ANCHOR_BYTES..]
  }

  /** Opening a file anew, at the cursor or from its start. */
  ghost predicate OpensAt(r: Reader, s: Reader, now: Known) {
    && s.pending == Some(Iteration(now.size, s.cursor, [], false))
    && s.partial == [] && s.readPosition == s.cursor && s.file == now.file && s.known == Some(now)
    && ((s.state == r.state && s.cursor == r.cursor && s.anchor == r.anchor)
        || (s.state == Some(NOTHING) && s.cursor == 0 && s.anchor == []))
  }

  /** The anchor, the end of the last line taken, is no longer in front of the cursor. */
  ghost predicate LostAnchor(r: Reader, content: Bytes) {
    && r.cursor > 0 && r.anchor != []
    && forall k: nat :: k <= |content| && k == r.cursor - |r.anchor| ==> !(r.anchor <= content[k..])
  }

  /**
   * Nothing is read again while the file is as known. Otherwise the reader goes
   * on at its cursor as long as the file is the same, did not shrink below what
   * was read, was not rewritten at the same size and has the anchor in place;
   * only else does it start over.
   */
  lemma StartExactly(r: Reader, disk: Disk)
    requires DiskOk(disk) && r.pending.None?
    ensures var (s, now) := (Start(r, disk), StatOf(disk));
            if r.state.Some? && r.known == Some(now) then s == r
            else
              && OpensAt(r, s, now)
              && (r.state.Some? && r.file == now.file && now.size >= r.readPosition
                  && !(r.known.Some? && r.known.value.size == now.size && r.known.value.stamp != now.stamp)
                  && !LostAnchor(r, disk.files[disk.current].content)
                  ==> s.state == r.state && s.cursor == r.cursor)
              && (r.state.None? || r.file != now.file || now.size < r.readPosition
                  || (r.known.Some? && r.known.value.size == now.size && r.known.value.stamp != now.stamp)
                  || LostAnchor(r, disk.files[disk.current].content)
                  ==> s.state == Some(NOTHING) && s.cursor == 0)
  {
    AnchorInPlace(r, disk.files[disk.current].content);
  }

  lemma AnchorInPlace(r: Reader, content: Bytes)
    ensures AnchorMoved(r, content) <==> LostAnchor(r, content)
  {
    if |r.anchor| <= r.cursor <= |content| {
      var k := r.cursor - |r.anchor|;
      assert content[k..][..|r.anchor|] == content[k..r.cursor];
      if r.anchor <= content[k..] {
        assert r.anchor == content[k..][..|r.anchor|];
      }
    }
  }

  datatype Turn = More(reader: Reader) | Done(reader: Reader) | Throws(reader: Reader)

  function Fail(r: Reader): Reader {
    r.(known := None, readPosition := r.cursor, partial := [], pending := None)
  }

  /**
   * The smallest turns of the consumer: read a chunk of at most `n` bytes, take
   * one line, end a chunk, or end. The source yields at some of them only.
   */
  function Advance(d: Decoder, r: Reader, disk: Disk, n: nat): Turn
    requires r.pending.Some? && r.state.Some? && r.file in disk.files && n > 0
  {
    var it := r.pending.value;
    if !it.scanning then
      var content := disk.files[r.file].content;
      if it.position >= it.size || it.position >= |content| then Done(r.(pending := None))
      else
        var size := if it.size < |content| then it.size else |content|;
        var end := if it.position + n < size then it.position + n else size;
        More(r.(pending :=
            Some(it.(position := end, buffer := it.buffer + content[it.position..end], scanning := true))))
    else
      var k := IndexOfNewLine(it.buffer);
      if k == |it.buffer| then
        More(r.(partial := it.buffer, readPosition := it.position, pending := Some(it.(scanning := false))))
      else
        var t := Take(r.state.value.(cursor := r.cursor), d(it.buffer[..k]), r.cursor + k + 1);
        if t.stuck then Throws(Fail(r))
        else More(r.(state := Some(t), cursor := t.cursor, anchor := AnchorOf(it.buffer[..k + 1]),
                     pending := Some(it.(buffer := it.buffer[k + 1..]))))
  }
}
