/**
 * An incomplete tail that is replaced between two chunks of one iteration:
 * when that does no harm, whatever the lines mean, and a run in which it does
 * (src/pi-integration/session-manager-transcript.ts:184-187, 204-255).
 */
module TranscriptTails {
  import opened TranscriptLines
  import opened TranscriptReader

  /** What an iteration still finds in the file. */
  function Ahead(it: Iteration, content: Bytes): Bytes {
    var size := Stop(it, content);
    if it.position < size then content[it.position..size] else []
  }

  function Stop(it: Iteration, content: Bytes): (n: nat)
    ensures n <= |content|
  {
    if it.size < |content| then it.size else |content|
  }

  lemma Slice(bytes: Bytes, p: nat, q: nat, i: nat, j: nat)
    requires p <= i <= j <= q <= |bytes|
    ensures bytes[p..q][i - p..j - p] == bytes[i..j]
  {
    var x, y := bytes[p..q][i - p..j - p], bytes[i..j];
    assert |x| == |y| && forall k :: 0 <= k < |x| ==> x[k] == bytes[i + k] == y[k];
  }

  // ------------------------------------------------------------- Line by line

  function LineStart(bytes: Bytes): (k: nat)
    ensures AtLineStart(bytes, k) && NEWLINE !in bytes[k..]
  {
    if bytes == [] || bytes[|bytes| - 1] == NEWLINE then |bytes|
    else
      var k := LineStart(bytes[..|bytes| - 1]);
      assert bytes[k..] == bytes[..|bytes| - 1][k..] + [bytes[|bytes| - 1]];
      k
  }

  lemma NoneIn(bytes: Bytes, m: nat, n: nat)
    requires m <= n <= |bytes| && NEWLINE !in bytes[m..n]
    ensures forall i :: m <= i < n ==> bytes[i] != NEWLINE
  {
    assert forall i :: m <= i < n ==> bytes[i] == bytes[m..n][i - m];
  }

  lemma LineStartIsLast(bytes: Bytes, k: nat)
    requires AtLineStart(bytes, k)
    ensures k <= LineStart(bytes)
  {
    var m := LineStart(bytes);
    assert bytes[m..] == bytes[m..|bytes|];
    NoneIn(bytes, m, |bytes|);
  }

  /** A decoder that takes every line. */
  ghost predicate Tame(d: Decoder) {
    forall line :: d(line).Blank? || d(line).Entry?
  }

  lemma {:induction false} TameParse(d: Decoder, bytes: Bytes)
    requires Tame(d)
    ensures !FullParse(d, bytes).stuck && FullParse(d, bytes).cursor == LineStart(bytes)
  {
    if bytes != [] {
      var n := |bytes| - 1;
      TameParse(d, bytes[..n]);
      var t := FullParse(d, bytes[..n]);
      var line := d(bytes[t.cursor..n]);
      assert line.Blank? || line.Entry?;
    }
  }

  // --------------------------------------------- What the iteration really reads

  /** What the iteration has read, then what the file holds now. */
  function Spliced(a: Bytes, b: Bytes, p: nat): Bytes
    requires p <= |a|
  {
    a[..p] + (if p <= |b| then b[p..] else [])
  }

  predicate SameFrom(p: nat, x: Bytes, y: Bytes) {
    (|x| <= p && |y| <= p) || (p <= |x| == |y| && x[p..] == y[p..])
  }

  lemma SplicedKept(a: Bytes, b: Bytes, p: nat)
    requires p <= |a| && LinesKept(a, b)
    ensures LinesKept(a, Spliced(a, b, p)) && SamePrefix(p, a, Spliced(a, b, p)) && SameFrom(p, b, Spliced(a, b, p))
  {
    var v := Spliced(a, b, p);
    forall k: nat | AtLineStart(a, k)
      ensures k <= |v| && v[..k] == a[..k]
    {
      assert k <= |b| && b[..k] == a[..k];
      if p < k {
        assert v[..k] == a[..p] + b[..k][p..];
        assert a[..k] == a[..p] + a[..k][p..];
      } else {
        assert v[..k] == a[..p][..k];
      }
    }
  }

  lemma SameAdvance(d: Decoder, r: Reader, x: Disk, y: Disk, p: nat, n: nat)
    requires r.pending.Some? && r.state.Some? && r.pending.value.position >= p && n > 0
    requires r.file in x.files && r.file in y.files && SameFrom(p, x.files[r.file].content, y.files[r.file].content)
    ensures Advance(d, r, x, n) == Advance(d, r, y, n)
    ensures Advance(d, r, x, n).reader.pending.Some? ==> Advance(d, r, x, n).reader.pending.value.position >= p
  {
    hide Take, AnchorOf, IndexOfNewLine;
    var it, a, b := r.pending.value, x.files[r.file].content, y.files[r.file].content;
    if !it.scanning && it.position < it.size && it.position < |a| {
      var size := Stop(it, a);
      var end := if it.position + n < size then it.position + n else size;
      Slice(a, p, |a|, it.position, end);
      Slice(b, p, |b|, it.position, end);
      assert a[p..] == a[p..|a|] && b[p..] == b[p..|b|];
    }
  }

  lemma {:induction false} SameFinish(d: Decoder, r: Reader, x: Disk, y: Disk, p: nat, sizes: nat -> nat)
    requires r.pending.Some? ==> r.state.Some? && r.pending.value.position >= p
    requires r.file in x.files && r.file in y.files && SameFrom(p, x.files[r.file].content, y.files[r.file].content)
    requires ChunkSizes(sizes)
    ensures Finish(d, r, x, sizes) == Finish(d, r, y, sizes)
    decreases if r.pending.Some? then 1 + Left(r.pending.value) else 0
  {
    hide Advance, Left, SameFrom;
    if r.pending.Some? {
      var n := sizes(r.pending.value.position);
      SameAdvance(d, r, x, y, p, n);
      AdvanceSteps(d, r, x, n);
      SameFinish(d, Advance(d, r, x, n).reader, x, y, p, sizes);
    }
  }

  // ------------------------------------------------------- Where a read ends

  /** The rest of an iteration consumes no further than the file reaches; taking every line, it leaves none complete. */
  lemma {:induction false} FinishEnds(d: Decoder, r: Reader, disk: Disk, sizes: nat -> nat)
    requires ReaderOk(d, r, disk) && r.pending.Some? && ChunkSizes(sizes)
    ensures r.state.Some? && r.file in disk.files
    ensures var (end, it, content) := (Finish(d, r, disk, sizes), r.pending.value, disk.files[r.file].content);
            && end.file == r.file && end.state.Some? && (end.known.Some? ==> end.known == r.known)
            && (end.cursor <= it.position || end.cursor <= Stop(it, content))
            && (Tame(d) && end.cursor <= Stop(it, content) ==> NEWLINE !in content[end.cursor..Stop(it, content)])
    decreases Left(r.pending.value)
  {
    hide ReaderOk, Advance, Left, Tame;
    PendingOk(d, r, disk);
    var n := sizes(r.pending.value.position);
    var turn := Advance(d, r, disk, n);
    AdvanceOk(d, r, disk, n);
    AdvanceSteps(d, r, disk, n);
    if turn.reader.pending.Some? {
      AdvanceReach(d, r, disk, n);
      FinishEnds(d, turn.reader, disk, sizes);
    } else {
      LastTurn(d, r, disk, n);
    }
  }

  lemma PendingOk(d: Decoder, r: Reader, disk: Disk)
    requires ReaderOk(d, r, disk) && r.pending.Some?
    ensures DiskOk(disk) && r.state.Some? && r.file in disk.files
    ensures r.cursor <= r.pending.value.position <= |disk.files[r.file].content|
    ensures AtLineStart(disk.files[r.file].content, r.cursor)
    ensures r.known.Some? && r.known.value.stamp <= disk.files[r.file].stamp
  {
  }

  lemma AdvanceReach(d: Decoder, r: Reader, disk: Disk, n: nat)
    requires r.pending.Some? && r.state.Some? && r.file in disk.files && n > 0
    requires Advance(d, r, disk, n).reader.pending.Some?
    ensures var (it, next) := (r.pending.value, Advance(d, r, disk, n).reader.pending.value);
            next.size == it.size
              && (next.position == it.position || next.position <= Stop(it, disk.files[r.file].content))
  {
    hide Take, AnchorOf, IndexOfNewLine;
  }

  lemma LastTurn(d: Decoder, r: Reader, disk: Disk, n: nat)
    requires ReaderOk(d, r, disk) && r.pending.Some? && r.state.Some? && n > 0
    requires Advance(d, r, disk, n).reader.pending.None?
    ensures var (end, it, content) := (Advance(d, r, disk, n).reader, r.pending.value, disk.files[r.file].content);
            && end.cursor == r.cursor <= it.position && end.state.Some? && end.file == r.file
            && (end.known.Some? ==> end.known == r.known)
            && (Tame(d) && end.cursor <= Stop(it, content) ==> NEWLINE !in content[end.cursor..Stop(it, content)])
  {
    hide FullParse, LinesKept, AnchorOf, IndexOfNewLine;
    var it, content := r.pending.value, disk.files[r.file].content;
    if it.scanning {
      var line := d(it.buffer[..IndexOfNewLine(it.buffer)]);
      assert Tame(d) ==> line.Blank? || line.Entry?;
    } else if r.cursor <= Stop(it, content) {
      Slice(content, r.cursor, it.position, r.cursor, Stop(it, content));
    }
  }

  // ------------------------------------------------------------- Doing no harm

  /** The same reader, had the lines meant what `d` says. */
  ghost function Under(d: Decoder, r: Reader, disk: Disk): Reader
    requires r.file in disk.files && r.cursor <= |disk.files[r.file].content|
  {
    r.(state := Some(FullParse(d, disk.files[r.file].content[..r.cursor])))
  }

  /** With lines meaning what `d` says, the iteration ends agreeing with the changed file. */
  ghost predicate Survives(d: Decoder, r: Reader, disk: Disk, changed: Disk, sizes: nat -> nat)
    requires r.file in disk.files && r.file in changed.files && r.cursor <= |disk.files[r.file].content|
    requires ChunkSizes(sizes)
  {
    var u := Under(d, r, disk);
    ReaderOk(d, u, disk) ==> ReaderOk(d, Finish(d, u, changed, sizes), changed)
  }

  /** The rest of the iteration on the changed file is its rest on the spliced one. */
  lemma FinishSpliced(d: Decoder, r: Reader, disk: Disk, content: Bytes, stamp: nat, sizes: nat -> nat)
    requires ReaderOk(d, r, disk) && r.pending.Some? && r.state.Some? && ChunkSizes(sizes)
    requires disk.files[r.file].stamp < stamp && LinesKept(disk.files[r.file].content, content)
    requires r.pending.value.position <= |disk.files[r.file].content|
    ensures var v := Spliced(disk.files[r.file].content, content, r.pending.value.position);
            var mixed := Rewrite(disk, r.file, v, stamp);
            && ReaderOk(d, r, mixed)
            && Finish(d, r, Rewrite(disk, r.file, content, stamp), sizes) == Finish(d, r, mixed, sizes)
            && ReaderOk(d, Finish(d, r, mixed, sizes), mixed)
  {
    hide ReaderOk, LinesKept, Finish;
    PendingOk(d, r, disk);
    var a, p := disk.files[r.file].content, r.pending.value.position;
    SplicedKept(a, content, p);
    var v := Spliced(a, content, p);
    var mixed := Rewrite(disk, r.file, v, stamp);
    assert Moves(disk, mixed);
    MovesOk(d, r, disk, mixed);
    SameFinish(d, r, Rewrite(disk, r.file, content, stamp), mixed, p, sizes);
    FinishOk(d, r, mixed, sizes);
  }

  /** With no newline ahead, nothing read past the last complete line is ever taken. */
  lemma NoNewlineAhead(d: Decoder, r: Reader, disk: Disk, content: Bytes, stamp: nat, sizes: nat -> nat)
    requires ReaderOk(d, r, disk) && r.pending.Some? && r.state.Some? && ChunkSizes(sizes)
    requires disk.files[r.file].stamp < stamp && LinesKept(disk.files[r.file].content, content)
    requires NEWLINE !in Ahead(r.pending.value, content)
    ensures var changed := Rewrite(disk, r.file, content, stamp); ReaderOk(d, Finish(d, r, changed, sizes), changed)
  {
    hide ReaderOk, LinesKept, Finish, LineStart;
    PendingOk(d, r, disk);
    var a, it := disk.files[r.file].content, r.pending.value;
    var p := it.position;
    FinishSpliced(d, r, disk, content, stamp, sizes);
    var v := Spliced(a, content, p);
    var mixed, changed := Rewrite(disk, r.file, v, stamp), Rewrite(disk, r.file, content, stamp);
    var end := Finish(d, r, mixed, sizes);
    FinishEnds(d, r, mixed, sizes);
    var m := LineStart(a[..p]);
    CursorStays(d, end, mixed, a, content, it, m);
    StillLineStart(a, content, p, m);
    assert v[..end.cursor] == a[..p][..m][..end.cursor] == content[..m][..end.cursor];
    SamePrefixOk(d, end, mixed, changed);
  }

  lemma StillLineStart(a: Bytes, b: Bytes, p: nat, m: nat)
    requires LinesKept(a, b) && p <= |a| && m <= p && AtLineStart(a[..p], m)
    ensures AtLineStart(a, m) && m <= |b| && b[..m] == a[..m] == a[..p][..m] && AtLineStart(b, m)
  {
    assert AtLineStart(a, m);
    assert m > 0 ==> b[..m][m - 1] == a[..m][m - 1];
  }

  lemma CursorStays(d: Decoder, end: Reader, mixed: Disk, a: Bytes, b: Bytes, it: Iteration, m: nat)
    requires it.position <= |a| && end.file in mixed.files
    requires mixed.files[end.file].content == Spliced(a, b, it.position)
    requires ReaderOk(d, end, mixed) && end.state.Some?
    requires end.cursor <= it.position || end.cursor <= Stop(it, Spliced(a, b, it.position))
    requires m <= it.position && NEWLINE !in a[..it.position][m..] && NEWLINE !in Ahead(it, b)
    ensures end.cursor <= m
  {
    hide FullParse;
    var v, p := Spliced(a, b, it.position), it.position;
    NoneIn(a[..p], m, p);
    assert a[..p][m..] == a[..p][m..p];
    assert forall i :: m <= i < p ==> v[i] == a[..p][i];
    if p < Stop(it, b) {
      NoneIn(b, p, Stop(it, b));
      assert forall i :: p <= i < Stop(it, b) ==> v[i] == b[i];
    }
  }

  lemma SamePrefixOk(d: Decoder, r: Reader, x: Disk, y: Disk)
    requires ReaderOk(d, r, x) && r.state.Some? && r.pending.None? && DiskOk(y) && r.file in y.files
    requires r.cursor <= |y.files[r.file].content|
    requires x.files[r.file].content[..r.cursor] == y.files[r.file].content[..r.cursor]
    requires r.known.Some? ==> r.known.value.stamp < y.files[r.file].stamp
    ensures ReaderOk(d, r, y)
  {
    hide FullParse;
    var a, b := x.files[r.file].content, y.files[r.file].content;
    assert b[r.cursor - |r.anchor|..r.cursor] == b[..r.cursor][r.cursor - |r.anchor|..];
    assert a[r.cursor - |r.anchor|..r.cursor] == a[..r.cursor][r.cursor - |r.anchor|..];
    assert r.cursor > 0 ==> b[..r.cursor][r.cursor - 1] == a[..r.cursor][r.cursor - 1];
  }

  // ------------------------------------------------------------- Doing harm

  /** Takes one line as an entry and every other line as blank. */
  function Only(line: Bytes): Decoder {
    other => if other == line then Entry("") else Blank
  }

  lemma OnlyIsTame(line: Bytes)
    ensures Tame(Only(line))
  {
  }

  /** Up to `j`, no line after `m` is the one that counts. */
  lemma {:induction false} NothingTaken(line: Bytes, b: Bytes, m: nat, q: nat, j: nat)
    requires m <= j <= q + 1 && m <= q < |b| && AtLineStart(b, m) && |line| == q - m && b[m..q] != line
    ensures FullParse(Only(line), b[..j]).entries == FullParse(Only(line), b[..m]).entries
    ensures FullParse(Only(line), b[..j]).cursor >= m
    decreases j
  {
    hide LineStart, Tame;
    OnlyIsTame(line);
    TameParse(Only(line), b[..j]);
    if j == m {
      LineStartIsLast(b[..m], m);
    } else {
      var n := j - 1;
      NothingTaken(line, b, m, q, n);
      assert b[..j][..n] == b[..n];
      var cursor := FullParse(Only(line), b[..n]).cursor;
      assert b[..j][cursor..n] == b[cursor..n];
    }
  }

  lemma MixedLineTaken(line: Bytes, v: Bytes, m: nat, q: nat)
    requires m <= q < |v| && AtLineStart(v, m) && v[q] == NEWLINE && NEWLINE !in v[m..q] && v[m..q] == line
    ensures FullParse(Only(line), v[..q + 1]).entries == FullParse(Only(line), v[..m]).entries + [""]
  {
    hide LineStart, Tame;
    OnlyIsTame(line);
    TameParse(Only(line), v[..m]);
    LineStartIsLast(v[..m], m);
    NextLine(Only(line), v, m, q);
  }

  /** Both files parsed up to `j`: at the same line, with different numbers of entries. */
  ghost predicate Apart(d: Decoder, v: Bytes, b: Bytes, j: nat, q: nat)
    requires j <= |v| && j <= |b|
  {
    var x, y := FullParse(d, v[..j]), FullParse(d, b[..j]);
    !x.stuck && !y.stuck && x.cursor == y.cursor > q && |x.entries| != |y.entries|
  }

  lemma OneMoreByte(d: Decoder, v: Bytes, b: Bytes, q: nat, n: nat)
    requires Tame(d) && q < n < |v| == |b| && v[q..] == b[q..] && Apart(d, v, b, n, q)
    ensures Apart(d, v, b, n + 1, q)
  {
    var cursor := FullParse(d, v[..n]).cursor;
    var line := v[cursor..n];
    assert line == v[q..][cursor - q..n - q] == b[cursor..n];
    assert v[n] == v[q..][n - q] == b[n];
    OneMore(d, v, n);
    OneMore(d, b, n);
    assert d(line).Blank? || d(line).Entry?;
  }

  lemma OneMore(d: Decoder, bytes: Bytes, n: nat)
    requires n < |bytes| && !FullParse(d, bytes[..n]).stuck
    ensures var t := FullParse(d, bytes[..n]);
            FullParse(d, bytes[..n + 1]) == if bytes[n] != NEWLINE then t else Take(t, d(bytes[t.cursor..n]), n + 1)
  {
    var more := bytes[..n + 1];
    assert more[..n] == bytes[..n];
    assert more[FullParse(d, bytes[..n]).cursor..n] == bytes[FullParse(d, bytes[..n]).cursor..n];
  }

  /** Where the bytes are the same again, a difference in the number of entries stays. */
  lemma {:induction false} DifferenceStays(d: Decoder, v: Bytes, b: Bytes, q: nat, j: nat)
    requires Tame(d) && q < j <= |v| == |b| && v[q..] == b[q..] && Apart(d, v, b, q + 1, q)
    ensures Apart(d, v, b, j, q)
    decreases j
  {
    hide Apart, Tame;
    if q + 1 < j {
      DifferenceStays(d, v, b, q, j - 1);
      OneMoreByte(d, v, b, q, j - 1);
    }
  }

  /** After the line that was completed by a newline from the new tail, the two parses are apart. */
  lemma MixedApart(v: Bytes, b: Bytes, m: nat, q: nat)
    requires m <= q < |v| == |b| && AtLineStart(v, m) && AtLineStart(b, m) && v[..m] == b[..m]
    requires v[q] == b[q] == NEWLINE && NEWLINE !in v[m..q] && v[m..q] != b[m..q]
    ensures Apart(Only(v[m..q]), v, b, q + 1, q)
  {
    hide LineStart, Tame;
    var line := v[m..q];
    OnlyIsTame(line);
    MixedLineTaken(line, v, m, q);
    NothingTaken(line, b, m, q, q + 1);
    TameParse(Only(line), v[..q + 1]);
    TameParse(Only(line), b[..q + 1]);
    LineStartIsLast(v[..q + 1], q + 1);
    LineStartIsLast(b[..q + 1], q + 1);
  }

  // ------------------------------------------------------- The exact condition

  lemma UnderOk(d0: Decoder, r: Reader, disk: Disk, d: Decoder)
    requires ReaderOk(d0, r, disk) && r.pending.Some? && r.file in disk.files
    requires r.cursor <= |disk.files[r.file].content| && Tame(d)
    ensures ReaderOk(d, Under(d, r, disk), disk)
  {
    hide LineStart, FullParse, Tame;
    var prefix := disk.files[r.file].content[..r.cursor];
    TameParse(d, prefix);
    LineStartIsLast(prefix, r.cursor);
  }

  /** A newline ahead of a replaced tail completes a line that the file does not hold. */
  lemma NewlineAhead(d0: Decoder, r: Reader, disk: Disk, content: Bytes, stamp: nat, sizes: nat -> nat)
    returns (d: Decoder)
    requires ReaderOk(d0, r, disk) && r.pending.Some? && r.state.Some? && ChunkSizes(sizes)
    requires r.file in disk.files && r.cursor <= |disk.files[r.file].content|
    requires disk.files[r.file].stamp < stamp && LinesKept(disk.files[r.file].content, content)
    requires !SamePrefix(r.pending.value.position, disk.files[r.file].content, content)
    requires NEWLINE in Ahead(r.pending.value, content)
    ensures !Survives(d, r, disk, Rewrite(disk, r.file, content, stamp), sizes)
  {
    hide ReaderOk, LinesKept, Finish, LineStart, FullParse, Tame, Apart;
    PendingOk(d0, r, disk);
    var a, it := disk.files[r.file].content, r.pending.value;
    var p, m := it.position, LineStart(a[..it.position]);
    var v := Spliced(a, content, p);
    var k := IndexOfNewLine(Ahead(it, content));
    var q := p + k;
    StillLineStart(a, content, p, m);
    SplicedAt(a, content, it, m, q);
    d := Only(v[m..q]);
    OnlyIsTame(v[m..q]);
    MixedApart(v, content, m, q);
    UnderOk(d0, r, disk, d);
    var u := Under(d, r, disk);
    FinishSpliced(d, u, disk, content, stamp, sizes);
    var mixed := Rewrite(disk, r.file, v, stamp);
    FinishEnds(d, u, mixed, sizes);
    var end := Finish(d, u, mixed, sizes);
    PastNewline(v, end.cursor, Stop(it, v), q, p);
    DifferenceStays(d, v, content, q, end.cursor);
    TwoParses(d, end, mixed, Rewrite(disk, r.file, content, stamp), q);
  }

  lemma TwoParses(d: Decoder, r: Reader, x: Disk, y: Disk, q: nat)
    requires ReaderOk(d, r, x) && r.state.Some? && r.file in x.files && r.file in y.files
    requires r.cursor <= |x.files[r.file].content| && r.cursor <= |y.files[r.file].content|
    requires Apart(d, x.files[r.file].content, y.files[r.file].content, r.cursor, q)
    ensures !ReaderOk(d, r, y)
  {
    hide FullParse, AnchorOk, ReadOk, KnownOk;
  }

  lemma PastNewline(v: Bytes, cursor: nat, stop: nat, q: nat, p: nat)
    requires p <= q < stop <= |v| && v[q] == NEWLINE
    requires cursor <= p || cursor <= stop
    requires cursor <= stop ==> NEWLINE !in v[cursor..stop]
    ensures q < cursor <= stop
  {
    if cursor <= stop {
      NoneIn(v, cursor, stop);
    }
  }

  lemma SplicedParts(a: Bytes, b: Bytes, p: nat, m: nat, q: nat)
    requires m <= p <= q <= |b| && p <= |a|
    ensures var v := Spliced(a, b, p);
            |v| == |b| && v[..m] == a[..m] && v[m..p] == a[m..p] && v[m..q] == a[..p][m..] + b[p..q] && v[q..] == b[q..]
  {
    var v := Spliced(a, b, p);
    assert forall i :: 0 <= i < p ==> v[i] == a[i];
    assert forall i :: p <= i < |b| ==> v[i] == b[i];
    var x, y := v[m..q], a[..p][m..] + b[p..q];
    assert |x| == |y| && forall k :: 0 <= k < |x| ==> x[k] == y[k];
  }

  lemma SplicedAt(a: Bytes, b: Bytes, it: Iteration, m: nat, q: nat)
    requires it.position <= |a| && m <= it.position && m <= |b| && AtLineStart(b, m) && b[..m] == a[..m]
    requires NEWLINE !in a[..it.position][m..]
    requires !SamePrefix(it.position, a, b) && NEWLINE in Ahead(it, b)
    requires q == it.position + IndexOfNewLine(Ahead(it, b))
    ensures var v := Spliced(a, b, it.position);
            && it.position <= q < Stop(it, b) == Stop(it, v) && |v| == |b| && v[..m] == b[..m] && AtLineStart(v, m)
            && v[q] == b[q] == NEWLINE && NEWLINE !in v[m..q] && v[m..q] != b[m..q] && v[q..] == b[q..]
  {
    hide IndexOfNewLine;
    var p, v, ahead := it.position, Spliced(a, b, it.position), Ahead(it, b);
    var k := IndexOfNewLine(ahead);
    Slice(b, p, Stop(it, b), p, q);
    assert ahead[..k] == b[p..q] && ahead[k] == b[q];
    SplicedParts(a, b, p, m, q);
    assert a[..p] == a[..m] + a[m..p] && b[..p] == b[..m] + b[m..p];
    Slice(v, m, q, m, p);
    Slice(b, m, q, m, p);
  }

  /**
   * A file that changes under way, keeping its complete lines, does no harm,
   * whatever the lines mean and however the rest is cut into reads, exactly
   * when it keeps the bytes read so far or holds no newline where the iteration
   * still reads.
   */
  lemma ReplacementHarmlessIff(d0: Decoder, r: Reader, disk: Disk, content: Bytes, stamp: nat, sizes: nat -> nat)
    requires ReaderOk(d0, r, disk) && r.pending.Some? && r.file in disk.files
    requires r.cursor <= |disk.files[r.file].content|
    requires disk.files[r.file].stamp < stamp && LinesKept(disk.files[r.file].content, content) && ChunkSizes(sizes)
    ensures (forall d :: Survives(d, r, disk, Rewrite(disk, r.file, content, stamp), sizes)) <==>
            SamePrefix(r.pending.value.position, disk.files[r.file].content, content)
              || NEWLINE !in Ahead(r.pending.value, content)
  {
    hide ReaderOk, LinesKept, Finish, Ahead, SamePrefix, ChunkSizes;
    PendingOk(d0, r, disk);
    var a, p := disk.files[r.file].content, r.pending.value.position;
    var changed := Rewrite(disk, r.file, content, stamp);
    if SamePrefix(p, a, content) || NEWLINE !in Ahead(r.pending.value, content) {
      forall d
        ensures Survives(d, r, disk, changed, sizes)
      {
        var u := Under(d, r, disk);
        if ReaderOk(d, u, disk) {
          if SamePrefix(p, a, content) {
            assert Moves(disk, changed);
            MovesOk(d, u, disk, changed);
            FinishOk(d, u, changed, sizes);
          } else {
            NoNewlineAhead(d, u, disk, content, stamp, sizes);
          }
        }
      }
    } else {
      var d := NewlineAhead(d0, r, disk, content, stamp, sizes);
    }
  }

  // --------------------------------------------------- A run in which it does

  /**
   * A line longer than one chunk, still unfinished when its first chunk is read,
   * and what its writer replaces it with before the second.
   */
  datatype Replacement = Replacement(head: Bytes, tail: Bytes, other: Bytes, rest: Bytes) {
    ghost predicate Fits() {
      && |head| == |other| == READ_CHUNK_BYTES && |rest| < |tail| && |rest| < READ_CHUNK_BYTES
      && NEWLINE !in head && NEWLINE !in tail && NEWLINE !in rest && NEWLINE !in other
    }

    function Before(): Disk {
      Disk(map[0 := File(head + tail, 0)], 0)
    }

    function After(): Disk {
      Disk(map[0 := File(other + rest + [NEWLINE], 1)], 0)
    }

    function Opened(): Reader {
      Reader(Some(NOTHING), 0, 0, Some(Known(0, |head + tail|, 0)), [], 0, [],
          Some(Iteration(|head + tail|, 0, [], false)))
    }

    function Chunk(): Reader {
      Opened().(pending := Some(Iteration(|head + tail|, |head|, head, true)))
    }

    function Scanned(): Reader {
      Opened().(partial := head, readPosition := |head|, pending := Some(Iteration(|head + tail|, |head|, head, false)))
    }

    function Mixed(): Reader {
      Scanned().(pending := Some(Iteration(|head + tail|, |head| + |rest| + 1, head + rest + [NEWLINE], true)))
    }
  }

  lemma NewlineAt(line: Bytes)
    requires NEWLINE !in line
    ensures IndexOfNewLine(line) == |line| && IndexOfNewLine(line + [NEWLINE]) == |line|
    ensures (line + [NEWLINE])[..|line|] == line
  {
    hide IndexOfNewLine;
    var longer := line + [NEWLINE];
    assert longer[|line|] == NEWLINE && longer[..|line|] == line;
    assert forall i :: 0 <= i < |line| ==> longer[i] == line[i];
  }

  lemma FirstChunk(d: Decoder, x: Replacement)
    requires x.Fits()
    ensures Start(NEW_READER, x.Before()) == x.Opened()
    ensures Advance(d, x.Opened(), x.Before(), READ_CHUNK_BYTES) == More(x.Chunk())
    ensures Advance(d, x.Chunk(), x.Before(), READ_CHUNK_BYTES) == More(x.Scanned())
  {
    hide IndexOfNewLine;
    assert (x.head + x.tail)[0..|x.head|] == x.head && [] + x.head == x.head;
    NewlineAt(x.head);
  }

  lemma SecondChunk(d: Decoder, x: Replacement)
    requires x.Fits()
    ensures Advance(d, x.Scanned(), x.After(), READ_CHUNK_BYTES) == More(x.Mixed())
  {
    var content := x.other + x.rest + [NEWLINE];
    assert content[|x.head|..|x.head| + |x.rest| + 1] == x.rest + [NEWLINE];
    assert x.head + (x.rest + [NEWLINE]) == x.head + x.rest + [NEWLINE];
  }

  lemma MixedTaken(d: Decoder, x: Replacement, id: string)
    requires x.Fits() && d(x.head + x.rest) == Entry(id)
    ensures Advance(d, x.Mixed(), x.After(), READ_CHUNK_BYTES).reader.state ==
              Some(Transcript(None, [id], |x.head| + |x.rest| + 1, false))
  {
    hide IndexOfNewLine;
    NewlineAt(x.head + x.rest);
    assert [] + [id] == [id];
  }

  lemma WhatTheFileHolds(d: Decoder, x: Replacement, actual: string)
    requires x.Fits() && d(x.other + x.rest) == Entry(actual)
    ensures FullParse(d, x.other + x.rest + [NEWLINE]) == Transcript(None, [actual], |x.head| + |x.rest| + 1, false)
  {
    var line := x.other + x.rest;
    var content := line + [NEWLINE];
    assert content[..0] == [] && content[0..|line|] == line && content[..|content|] == content;
    NextLine(d, content, 0, |line|);
    assert [] + [actual] == [actual];
  }

  lemma Replaces(x: Replacement)
    requires x.Fits()
    ensures Moves(x.Before(), x.After())
  {
    var a, b := x.head + x.tail, x.other + x.rest + [NEWLINE];
    assert LinesKept(a, b) by {
      assert forall i :: 0 <= i < |a| ==> a[i] in a;
    }
    assert x.After() == Rewrite(x.Before(), 0, b, 1);
  }

  lemma Turn(d: Decoder, r: Reader, disk: Disk, r': Reader)
    requires r.pending.Some? && r.state.Some? && r.file in disk.files
    requires Advance(d, r, disk, READ_CHUNK_BYTES).reader == r'
    ensures OpenStep(d, State(r, disk), State(r', disk))
  {
  }

  /** The reader takes an entry that never was in the file, from the old first chunk and the new rest. */
  lemma ReplacedTailIsMixed(d: Decoder, x: Replacement, id: string, actual: string) returns (ss: seq<State>)
    requires x.Fits() && d(x.head + x.rest) == Entry(id) && d(x.other + x.rest) == Entry(actual) && id != actual
    ensures OpenRun(d, ss)
    ensures var last := ss[|ss| - 1];
            last.reader.state.Some? && last.reader.state.value.entries == [id]
            && DiskOk(last.disk) && FullParse(d, last.disk.files[last.disk.current].content).entries == [actual]
  {
    hide Advance, Moves, OpenStep;
    FirstChunk(d, x);
    SecondChunk(d, x);
    MixedTaken(d, x, id);
    WhatTheFileHolds(d, x, actual);
    Replaces(x);
    var last := Advance(d, x.Mixed(), x.After(), READ_CHUNK_BYTES).reader;
    ss := [State(NEW_READER, x.Before()), State(x.Opened(), x.Before()), State(x.Chunk(), x.Before()),
        State(x.Scanned(), x.Before()),
           State(x.Scanned(), x.After()), State(x.Mixed(), x.After()), State(last, x.After())];
    Opens(d, x);
    Turn(d, x.Opened(), x.Before(), x.Chunk());
    Turn(d, x.Chunk(), x.Before(), x.Scanned());
    Changes(d, x.Scanned(), x.Before(), x.After());
    Turn(d, x.Scanned(), x.After(), x.Mixed());
    Turn(d, x.Mixed(), x.After(), last);
  }

  lemma Opens(d: Decoder, x: Replacement)
    requires x.Fits()
    ensures OpenStep(d, State(NEW_READER, x.Before()), State(x.Opened(), x.Before()))
  {
    FirstChunk(d, x);
  }

  lemma Changes(d: Decoder, r: Reader, disk: Disk, disk': Disk)
    requires Moves(disk, disk')
    ensures OpenStep(d, State(r, disk), State(r, disk'))
  {
  }
}
