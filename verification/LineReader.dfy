/** The JSON read loop: newline-terminated lines over a stream delivered in arbitrary chunks. */
module LineReader {
  import opened Text

  /** Lines handed to the message handler, and the characters after the last newline. */
  datatype Reading = Reading(lines: seq<string>, rest: string)

  /** One carriage return at the end of a line belongs to its terminator. */
  function Trimmed(line: string): string {
    if line != "" && line[|line| - 1] == '\r' then line[..|line| - 1] else line
  }

  /** An empty line is not a message. */
  function Kept(line: string): seq<string> {
    if Trimmed(line) == "" then [] else [Trimmed(line)]
  }

  function Lines(stream: string): Reading
    decreases |stream|
  {
    var end := Find(stream, '\n');
    if end == |stream| then Reading([], stream)
    else
      var later := Lines(stream[end + 1..]);
      Reading(Kept(stream[..end]) + later.lines, later.rest)
  }

  /** The lines of a buffer after those already delivered. */
  function Continued(delivered: seq<string>, buffer: string): Reading {
    var more := Lines(buffer);
    Reading(delivered + more.lines, more.rest)
  }

  function Feed(r: Reading, chunk: string): Reading {
    Continued(r.lines, r.rest + chunk)
  }

  function FeedAll(chunks: seq<string>): Reading {
    if chunks == [] then Reading([], "") else Feed(FeedAll(chunks[..|chunks| - 1]), chunks[|chunks| - 1])
  }

  function Flatten(chunks: seq<string>): string {
    if chunks == [] then "" else Flatten(chunks[..|chunks| - 1]) + chunks[|chunks| - 1]
  }

  lemma LinesCons(first: string, later: string)
    requires '\n' !in first
    ensures Lines(first + "\n" + later) == Reading(Kept(first) + Lines(later).lines, Lines(later).rest)
  {
    Cut(first, '\n', later);
  }

  lemma CutStream(stream: string)
    requires '\n' in stream
    ensures var end := Find(stream, '\n'); stream == stream[..end] + "\n" + stream[end + 1..]
  {}

  /** Reading on after a chunk is reading the longer stream. */
  lemma {:induction false} LinesExtend(stream: string, chunk: string)
    ensures Lines(stream + chunk) == Feed(Lines(stream), chunk)
    decreases |stream|
  {
    if '\n' in stream {
      var end := Find(stream, '\n');
      var first, later := stream[..end], stream[end + 1..];
      CutStream(stream);
      assert stream + chunk == first + "\n" + (later + chunk);
      LinesCons(first, later + chunk);
      LinesExtend(later, chunk);
      Regroup(Kept(first), Lines(later).lines, Lines(Lines(later).rest + chunk).lines);
    } else {
      assert [] + Lines(stream + chunk).lines == Lines(stream + chunk).lines;
    }
  }

  lemma Regroup(a: seq<string>, b: seq<string>, c: seq<string>)
    ensures a + (b + c) == a + b + c
  {}

  /** The lines delivered depend on the stream alone, not on how it was cut. */
  lemma {:induction false} LinesIgnoreChunks(chunks: seq<string>)
    ensures FeedAll(chunks) == Lines(Flatten(chunks))
  {
    if chunks != [] {
      LinesIgnoreChunks(chunks[..|chunks| - 1]);
      LinesExtend(Flatten(chunks[..|chunks| - 1]), chunks[|chunks| - 1]);
    }
  }

  // ---- lines sent by the other end ----

  /** A document that survives framing. */
  predicate Framable(doc: string) {
    '\n' !in doc && doc != "" && doc[|doc| - 1] != '\r'
  }

  function SentLines(docs: seq<string>): string {
    if docs == [] then "" else docs[0] + "\n" + SentLines(docs[1..])
  }

  lemma {:induction false} ReadSentLines(docs: seq<string>)
    requires forall d | d in docs :: Framable(d)
    ensures Lines(SentLines(docs)) == Reading(docs, "")
  {
    if docs != [] {
      assert docs == [docs[0]] + docs[1..];
      assert Framable(docs[0]);
      ReadSentLines(docs[1..]);
      FramableComesFirst(docs[0], SentLines(docs[1..]));
    }
  }

  lemma FramableComesFirst(doc: string, later: string)
    requires Framable(doc)
    ensures Lines(doc + "\n" + later) == Reading([doc] + Lines(later).lines, Lines(later).rest)
  {
    LinesCons(doc, later);
    assert Kept(doc) == [doc];
  }

  /** One document comes back as itself exactly when it is framable. */
  lemma LineRoundTrip(doc: string)
    ensures Lines(doc + "\n") == Reading([doc], "") <==> Framable(doc)
  {
    if '\n' in doc {
      DeliveredHasNoNewline(doc + "\n");
      assert doc in [doc];
    } else {
      LinesCons(doc, "");
      assert doc + "\n" + "" == doc + "\n";
      KeptWhole(doc);
    }
  }

  lemma KeptWhole(doc: string)
    requires '\n' !in doc
    ensures Kept(doc) == [doc] <==> Framable(doc)
    ensures Kept(doc) + [] == Kept(doc)
  {
    if doc != "" && doc[|doc| - 1] == '\r' { assert |Trimmed(doc)| < |doc|; }
  }

  /** One carriage return before the newline is dropped with it: the line in front of them comes back whole. */
  lemma CarriageReturnIsDropped(line: string)
    requires '\n' !in line
    ensures Lines(line + "\r\n") == Reading(if line == "" then [] else [line], "")
  {
    var ended := line + "\r";
    assert ended + "\n" + "" == line + "\r\n";
    LinesCons(ended, "");
    assert ended[..|ended| - 1] == line;
    assert Kept(ended) + [] == Kept(ended);
  }

  lemma {:induction false} DeliveredHasNoNewline(stream: string)
    ensures forall line | line in Lines(stream).lines :: '\n' !in line
    decreases |stream|
  {
    if '\n' in stream { DeliveredHasNoNewline(stream[Find(stream, '\n') + 1..]); }
  }

  // ---- the read loop ----

  class JsonLineReader {
    var readBuffer: string
    var delivered: seq<string>
    ghost var received: string

    /** What was delivered and what is held are the reading of everything received; no newline is held back. */
    ghost predicate Valid()
      reads this
    {
      Reading(delivered, readBuffer) == Lines(received) && '\n' !in readBuffer
    }

    constructor ()
      ensures Valid() && received == "" && delivered == []
    {
      readBuffer, delivered, received := "", [], "";
    }

    /** Characters arrive; the outstanding read completes once for every newline in the buffer. */
    method OnReceive(chunk: string)
      requires Valid()
      modifies this
      ensures Valid() && received == old(received) + chunk
    {
      LinesExtend(received, chunk);
      readBuffer := readBuffer + chunk;
      received := received + chunk;
      while '\n' in readBuffer
        invariant received == old(received) + chunk
        invariant Lines(received) == Continued(delivered, readBuffer)
        decreases |readBuffer|
      {
        LineTaken(delivered, readBuffer);
        HandleLine();
      }
      NoLineLeft(delivered, readBuffer);
    }

    /** The completion handler: the first line leaves the buffer, and is a message unless it is empty. */
    method HandleLine()
      requires '\n' in readBuffer
      modifies `readBuffer, `delivered
      ensures readBuffer == old(readBuffer)[Find(old(readBuffer), '\n') + 1..]
      ensures delivered == old(delivered) + Kept(old(readBuffer)[..Find(old(readBuffer), '\n')])
    {
      var end := Find(readBuffer, '\n');
      var line := readBuffer[..end];
      readBuffer := readBuffer[end + 1..];
      if line != "" && line[|line| - 1] == '\r' {
        line := line[..|line| - 1];
      }
      if line != "" {
        delivered := delivered + [line];
      }
    }
  }

  lemma NoLineLeft(delivered: seq<string>, buffer: string)
    requires '\n' !in buffer
    ensures Continued(delivered, buffer) == Reading(delivered, buffer)
  {
    assert delivered + [] == delivered;
  }

  lemma LineTaken(delivered: seq<string>, buffer: string)
    requires '\n' in buffer
    ensures
      var end := Find(buffer, '\n');
      Continued(delivered, buffer) == Continued(delivered + Kept(buffer[..end]), buffer[end + 1..])
  {
    var end := Find(buffer, '\n');
    var line, later := buffer[..end], buffer[end + 1..];
    CutStream(buffer);
    LinesCons(line, later);
    Regroup(delivered, Kept(line), Lines(later).lines);
  }
}
