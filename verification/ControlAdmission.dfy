/**
 * The Hello-to-channel handoff: bytes after the Hello line reach the channel
 * completely and in order, whenever it is activated
 * (src/control/agent-control-admission.ts:198-323).
 */
module ControlAdmission {
  import opened ControlFraming

  /** `None` when the line is not UTF-8 JSON or not a Hello. */
  type HelloParser<!H> = Bytes -> Option<H>

  class AdmissionTransport<!H> {
    const maximumFrameBytes: nat
    const parse: HelloParser<H>
    var helloBuffer: Bytes
    var helloSettled: bool
    var hello: Option<H>
    var buffered: seq<Bytes>
    var activated: bool
    /** Chunks passed to the channel's data handler, in order. */
    var forwarded: seq<Bytes>
    /** Every byte the connection delivered so far. */
    ghost var received: Bytes

    /** The stream splits at its first newline into the Hello line and the rest. */
    ghost predicate SplitsAt(rest: Bytes)
      reads this
    {
      && NEWLINE !in helloBuffer && received == helloBuffer + [NEWLINE] + rest
      && 0 < |helloBuffer| <= maximumFrameBytes && parse(helloBuffer) == hello
    }

    ghost predicate Valid()
      reads this
    {
      && (!helloSettled ==>
            hello.None? && received == helloBuffer && NEWLINE !in received && |received| <= maximumFrameBytes
            && buffered == [] && !activated)
      && (hello.Some? ==> helloSettled && SplitsAt(Concat(forwarded + buffered)))
      && (if activated then buffered == [] else forwarded == [])
    }

    constructor (maximumFrameBytes: nat, parse: HelloParser<H>)
      ensures Valid() && received == [] && !helloSettled && !activated
      ensures this.maximumFrameBytes == maximumFrameBytes && this.parse == parse
    {
      this.maximumFrameBytes, this.parse := maximumFrameBytes, parse;
      helloBuffer, helloSettled, hello, buffered, activated, forwarded, received := [], false, None, [], false, [], [];
    }

    method Receive(chunk: Bytes)
      requires Valid()
      modifies this
      ensures Valid() && received == old(received) + chunk && activated == old(activated)
      ensures old(hello).Some? ==> hello == old(hello)
      ensures old(helloSettled) ==> helloSettled && helloBuffer == old(helloBuffer)
      ensures helloSettled && !old(helloSettled) ==>
                HelloDecision(received) && (NEWLINE in received || |received| > maximumFrameBytes)
    {
      hide Concat;
      received := received + chunk;
      if !helloSettled {
        ReadHello(chunk);
      } else if activated {
        Forwards(forwarded, chunk);
        forwarded := forwarded + [chunk];
      } else {
        Forwards(buffered, chunk);
        buffered := buffered + [chunk];
      }
    }

    /** The part of `Receive` that runs until the Hello line is complete. */
    method ReadHello(chunk: Bytes)
      requires !helloSettled && hello.None? && !activated && buffered == [] && forwarded == []
      requires received == helloBuffer + chunk && NEWLINE !in helloBuffer && |helloBuffer| <= maximumFrameBytes
      modifies this`helloBuffer, this`helloSettled, this`hello, this`buffered
      ensures Valid()
      ensures helloSettled ==> HelloDecision(received) && (NEWLINE in received || |received| > maximumFrameBytes)
    {
      var newline := FindNewline(chunk, 0);
      var segment := chunk[..newline];
      FirstLine(helloBuffer, chunk, newline);
      if |helloBuffer| + |segment| > maximumFrameBytes {
        helloSettled := true;
        return;
      }
      helloBuffer := helloBuffer + segment;
      if newline == |chunk| {
        return;
      }
      helloSettled := true;
      assert IsFirstLine(received, |helloBuffer|);
      if |helloBuffer| == 0 {
        return;
      }
      hello := parse(helloBuffer);
      if hello.None? {
        return;
      }
      var remainder := chunk[newline + 1..];
      if |remainder| > 0 {
        buffered := [remainder];
      }
      ConcatSnoc([], remainder);
      assert [] + [remainder] == [remainder] && [] + remainder == remainder;
      assert forwarded + buffered == buffered;
    }

    /** Decided at the first moment the line is complete or too long: accepted exactly when it parses. */
    ghost predicate HelloDecision(stream: Bytes)
      reads this
    {
      hello.Some? <==> exists n: nat :: IsFirstLine(stream, n) && 0 < n <= maximumFrameBytes && parse(stream[..n]).Some?
    }

    /** The broker activates after a settled Hello, with the channel's handler installed. */
    method Activate()
      requires Valid() && hello.Some?
      modifies this
      ensures Valid() && activated && received == old(received) && hello == old(hello)
    {
      if activated {
        return;
      }
      activated := true;
      forwarded := forwarded + buffered;
      buffered := [];
      assert forwarded + buffered == forwarded;
    }

    /** Once active, the channel has been handed everything after the Hello line. */
    lemma HandsOverTheRest(line: Bytes, rest: Bytes)
      requires Valid() && activated && hello.Some?
      requires NEWLINE !in line && received == line + [NEWLINE] + rest
      ensures helloBuffer == line && parse(line) == hello && Concat(forwarded) == rest
    {
      assert forwarded + buffered == forwarded;
      SameSplit(line, rest, helloBuffer, Concat(forwarded));
    }
  }

  /** One more chunk extends the bytes of a queue; the other queue is empty. */
  lemma Forwards(chunks: seq<Bytes>, chunk: Bytes)
    ensures Concat(chunks + [chunk]) == Concat(chunks) + chunk
    ensures chunks + [] == chunks && [] + chunks == chunks
    ensures chunks + [chunk] + [] == [] + (chunks + [chunk]) == chunks + [chunk]
  {
    ConcatSnoc(chunks, chunk);
  }

  ghost predicate IsFirstLine(stream: Bytes, n: nat) {
    n < |stream| && stream[n] == NEWLINE && NEWLINE !in stream[..n]
  }

  lemma FirstLine(before: Bytes, chunk: Bytes, newline: nat)
    requires NEWLINE !in before && newline <= |chunk| && NEWLINE !in chunk[..newline]
    requires newline < |chunk| ==> chunk[newline] == NEWLINE
    ensures var (stream, line) := (before + chunk, before + chunk[..newline]);
            && NEWLINE !in line && stream[..|before| + newline] == line
            && (newline == |chunk| ==> stream == line)
            && (newline < |chunk| ==> stream == line + [NEWLINE] + chunk[newline + 1..])
            && forall n: nat :: IsFirstLine(stream, n) <==> newline < |chunk| && n == |before| + newline
  {
    hide IsFirstLine;
    var line := before + chunk[..newline];
    assert before + chunk[..newline] + chunk[newline..] == before + chunk;
    if newline == |chunk| {
      assert line == before + chunk;
      NoFirstLine(line);
    } else {
      var rest := chunk[newline + 1..];
      assert chunk[newline..] == [NEWLINE] + rest;
      assert before + chunk == line + [NEWLINE] + rest;
      OnlyFirstLine(line, rest);
    }
  }

  lemma NoFirstLine(stream: Bytes)
    requires NEWLINE !in stream
    ensures forall n: nat :: !IsFirstLine(stream, n)
  {
  }

  lemma OnlyFirstLine(line: Bytes, rest: Bytes)
    requires NEWLINE !in line
    ensures forall n: nat :: IsFirstLine(line + [NEWLINE] + rest, n) <==> n == |line|
  {
    var stream := line + [NEWLINE] + rest;
    assert forall i :: 0 <= i < |line| ==> stream[i] == line[i];
    assert stream[..|line|] == line;
    assert forall n :: |line| < n <= |stream| ==> stream[..n][|line|] == NEWLINE;
  }

  lemma SameSplit(a: Bytes, x: Bytes, b: Bytes, y: Bytes)
    requires NEWLINE !in a && NEWLINE !in b && a + [NEWLINE] + x == b + [NEWLINE] + y
    ensures a == b && x == y
  {
    var s := a + [NEWLINE] + x;
    assert s[|a|] == NEWLINE && s[|b|] == NEWLINE;
    assert forall i :: 0 <= i < |a| ==> s[i] == a[i] && s[i] != NEWLINE;
    assert forall i :: 0 <= i < |b| ==> s[i] == b[i] && s[i] != NEWLINE;
    assert a == s[..|a|] && b == s[..|b|];
    assert x == s[|a| + 1..] && y == s[|b| + 1..];
  }

  /** A stream that starts with the line shows it as soon as it shows a newline or more bytes than the line. */
  lemma PrefixOfHello(line: Bytes, rest: Bytes, prefix: Bytes)
    requires NEWLINE !in line && prefix <= line + [NEWLINE] + rest && (NEWLINE in prefix || |prefix| > |line|)
    ensures IsFirstLine(prefix, |line|) && prefix[..|line|] == line
  {
    var s := line + [NEWLINE] + rest;
    assert forall i :: 0 <= i < |line| ==> s[i] == line[i];
    assert s[|line|] == NEWLINE;
    if NEWLINE in prefix {
      var i :| 0 <= i < |prefix| && prefix[i] == NEWLINE;
      assert s[i] == NEWLINE;
    }
    assert prefix == s[..|prefix|];
  }

  lemma {:induction false} ConcatPrefix(chunks: seq<Bytes>, n: nat)
    requires n <= |chunks|
    ensures Concat(chunks[..n]) <= Concat(chunks)
    decreases |chunks|
  {
    if n < |chunks| {
      var init := chunks[..|chunks| - 1];
      assert init[..n] == chunks[..n] && chunks == init + [chunks[|chunks| - 1]];
      ConcatPrefix(init, n);
      ConcatSnoc(init, chunks[|chunks| - 1]);
    } else {
      assert chunks[..n] == chunks;
    }
  }

  /**
   * End to end: a Hello line and admitted frames, cut anywhere, with activation
   * attempted after chunk number `moment` and at the end, reach a channel's
   * reader as exactly those frames.
   */
  method EndToEnd<H, S, F>(t: AdmissionTransport<H>, reader: FrameReader<S>, line: Bytes, codec: Codec<F>,
                           step: (S, F) -> Option<S>, s: S, frames: seq<F>, chunks: seq<Bytes>, moment: nat)
    requires t.Valid() && t.received == [] && !t.helloSettled && !t.activated
    requires 0 < |line| <= t.maximumFrameBytes && NEWLINE !in line && t.parse(line).Some?
    requires reader.Valid() && reader.View() == Open(s, []) && reader.handle == Handling(codec, step)
    requires forall f :: f in frames ==> Admitted(codec, reader.maximumFrameBytes, f)
    requires Concat(chunks) == line + [NEWLINE] + Stream(codec, frames)
    modifies t, reader
    ensures t.hello == t.parse(line) && reader.Valid() && reader.View() == HandleAll(step, s, frames)
  {
    hide Stream;
    ghost var rest := Stream(codec, frames);
    for i := 0 to |chunks|
      invariant t.Valid() && t.received == Concat(chunks[..i]) && reader.Valid() && reader.View() == Open(s, [])
      invariant t.helloSettled ==> t.hello.Some?
    {
      assert chunks[..i + 1] == chunks[..i] + [chunks[i]];
      ConcatSnoc(chunks[..i], chunks[i]);
      ghost var settled := t.helloSettled;
      t.Receive(chunks[i]);
      ConcatPrefix(chunks, i + 1);
      if t.helloSettled && !settled {
        PrefixOfHello(line, rest, t.received);
      }
      if t.helloSettled && i == moment {
        t.Activate();
      }
    }
    assert chunks[..|chunks|] == chunks;
    assert t.received[|line|] == NEWLINE;
    t.Activate();
    t.HandsOverTheRest(line, rest);
    ReceiveChunked(reader, codec, step, s, frames, t.forwarded);
  }
}
