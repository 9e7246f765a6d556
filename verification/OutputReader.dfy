/** Bounded line reading of a child's output, independent of how the pipe cuts it
    (apps/resticpal-service/src/executor.rs, `read_bounded_line`, `read_json_output`,
    `PrefixCapturingReader`, `read_stderr_output`). */
module OutputReader {
  import opened Common
  import opened Status
  import opened FailureDetails

  const MAX_JSON_LINE_BYTES: nat := 1024 * 1024
  const MAX_STDERR_BYTES: nat := 64 * 1024
  const NEWLINE: byte := 10

  // ---------------------------------------------------------------- lines

  /** The bytes up to and including the first newline, or all of them. */
  function FirstLine(bytes: seq<byte>): seq<byte> {
    if bytes == [] then []
    else if bytes[0] == NEWLINE then [NEWLINE]
    else [bytes[0]] + FirstLine(bytes[1..])
  }

  lemma {:induction false} FirstLineIsPrefix(bytes: seq<byte>)
    ensures FirstLine(bytes) <= bytes
    ensures bytes != [] ==> FirstLine(bytes) != []
    ensures NEWLINE !in FirstLine(bytes) ==> FirstLine(bytes) == bytes
    ensures forall i :: 0 <= i < |FirstLine(bytes)| - 1 ==> FirstLine(bytes)[i] != NEWLINE
  {
    if bytes != [] && bytes[0] != NEWLINE {
      FirstLineIsPrefix(bytes[1..]);
    }
  }

  lemma {:induction false} FirstLineOfConcat(a: seq<byte>, b: seq<byte>)
    ensures NEWLINE in a ==> FirstLine(a + b) == FirstLine(a)
    ensures NEWLINE !in a ==> FirstLine(a + b) == a + FirstLine(b)
  {
    if a == [] {
      assert a + b == b;
    } else if a[0] != NEWLINE {
      FirstLineOfConcat(a[1..], b);
      assert (a + b)[1..] == a[1..] + b;
    }
  }

  function Lines(bytes: seq<byte>): seq<seq<byte>> {
    if bytes == [] then []
    else
      FirstLineIsPrefix(bytes);
      [FirstLine(bytes)] + Lines(bytes[|FirstLine(bytes)|..])
  }

  /** No newline before the last byte, and one there unless this is the last line. */
  predicate LineShape(line: seq<byte>, isLast: bool) {
    && line != []
    && (forall i :: 0 <= i < |line| - 1 ==> line[i] != NEWLINE)
    && (line[|line| - 1] == NEWLINE || isLast)
  }

  /** Splitting loses nothing, and a newline ends every line but possibly the last and occurs
      nowhere else. */
  lemma {:induction false} LinesPartition(bytes: seq<byte>)
    ensures Flatten(Lines(bytes)) == bytes
    ensures forall k :: 0 <= k < |Lines(bytes)| ==> LineShape(Lines(bytes)[k], k + 1 == |Lines(bytes)|)
  {
    if bytes != [] {
      FirstLineIsPrefix(bytes);
      var rest := bytes[|FirstLine(bytes)|..];
      LinesPartition(rest);
      assert bytes == FirstLine(bytes) + rest;
    }
  }

  // ---------------------------------------------------------------- what the lines mean

  datatype Summary = Summary(files: nat, bytes: nat, added: nat, snapshot: Option<string>)

  /** What the line parser makes of one line; the progress channel is lossy and left out. */
  datatype LineEvent =
    | Malformed
    | Ignored
    | Progress
    | SummaryLine(summary: Summary)
    | FailureItem(item: Item)
    | FailureItemOmitted
    | VssFallback
    | VssCleanupFailed

  datatype Parsed = Parsed(
    summary: Option<Summary>,
    invalidMessage: bool,
    details: Details,
    vssFallback: bool,
    vssCleanupFailed: bool)

  const NOTHING_PARSED := Parsed(None, false, NO_DETAILS, false, false)

  function ApplyEvent(p: Parsed, event: LineEvent): Parsed {
    match event
    case Malformed => p.(invalidMessage := true)
    case Ignored => p
    case Progress => p
    case SummaryLine(summary) => p.(summary := Some(summary))
    case FailureItem(item) => p.(details := Push(p.details, item))
    case FailureItemOmitted => p.(details := Omit(p.details))
    case VssFallback => p.(vssFallback := true)
    case VssCleanupFailed => p.(vssCleanupFailed := true)
  }

  /** A line is invalid by size exactly when it is longer than the limit. */
  function ApplyLine(p: Parsed, parse: seq<byte> -> LineEvent, line: seq<byte>): Parsed {
    ApplyEvent(p, if |line| > MAX_JSON_LINE_BYTES then Malformed else parse(line))
  }

  function ApplyLines(p: Parsed, parse: seq<byte> -> LineEvent, lines: seq<seq<byte>>): Parsed
    decreases |lines|
  {
    if lines == [] then p else ApplyLines(ApplyLine(p, parse, lines[0]), parse, lines[1..])
  }

  /** One more part taken from the front of what is unread. */
  lemma Regrouped(all: seq<byte>, taken: seq<byte>, part: seq<byte>, unread: seq<byte>, rest: seq<byte>)
    requires all == taken + unread && unread == part + rest
    requires FirstLine(all) == taken + FirstLine(unread)
    requires FirstLine(unread) == if NEWLINE in part then part else part + FirstLine(rest)
    ensures all == (taken + part) + rest
    ensures FirstLine(all) == if NEWLINE in part then taken + part else (taken + part) + FirstLine(rest)
  {
    hide FirstLine;
    ConcatAssociates(taken, part, rest);
    ConcatAssociates(taken, part, FirstLine(rest));
  }

  /** What the first line of a buffer says about the whole. */
  lemma FirstPart(buffer: seq<byte>, rest: seq<byte>)
    requires buffer != []
    ensures
      var part := FirstLine(buffer);
      && part != [] && part <= buffer && buffer + rest == part + (buffer[|part|..] + rest)
      && FirstLine(buffer + rest) == (if NEWLINE in part then part else part + FirstLine(buffer[|part|..] + rest))
      && (NEWLINE in part <==> part[|part| - 1] == NEWLINE)
  {
    var part := FirstLine(buffer);
    FirstLineIsPrefix(buffer);
    FirstLineOfConcat(buffer, rest);
    assert buffer == part + buffer[|part|..];
    ConcatAssociates(part, buffer[|part|..], rest);
    if NEWLINE !in part {
      assert NEWLINE !in buffer && buffer[|part|..] + rest == rest;
    } else {
      assert NEWLINE in buffer;
    }
  }

  // ---------------------------------------------------------------- the readers

  datatype ReadError = ReadFailed

  /** A pipe that delivers `chunks` and then ends, or fails; it keeps the first `limit` bytes. */
  class PrefixCapturingReader {
    var chunks: seq<seq<byte>>
    const failsAtEnd: bool
    const limit: nat
    var prefix: seq<byte>
    ghost const total: seq<byte>
    ghost var delivered: seq<byte>

    ghost predicate Valid()
      reads this
    {
      && total == delivered + Flatten(chunks)
      && (forall i :: 0 <= i < |chunks| ==> chunks[i] != [])
      && prefix == delivered[..Min(limit, |delivered|)]
    }

    constructor (chunks: seq<seq<byte>>, failsAtEnd: bool, limit: nat)
      requires forall i :: 0 <= i < |chunks| ==> chunks[i] != []
      ensures Valid() && this.chunks == chunks && total == Flatten(chunks)
      ensures this.failsAtEnd == failsAtEnd && this.limit == limit
    {
      this.chunks, this.failsAtEnd, this.limit := chunks, failsAtEnd, limit;
      prefix, delivered, total := [], [], Flatten(chunks);
    }

    /** An empty buffer means the end of the stream. */
    method Read() returns (buffer: Result<seq<byte>, ReadError>)
      requires Valid()
      modifies this
      ensures Valid()
      ensures old(chunks) == [] ==>
        chunks == [] && buffer == (if failsAtEnd then Err(ReadFailed) else Ok([]))
      ensures old(chunks) != [] ==> buffer == Ok(old(chunks)[0]) && chunks == old(chunks)[1..]
    {
      if chunks == [] {
        return if failsAtEnd then Err(ReadFailed) else Ok([]);
      }
      var read := chunks[0];
      chunks := chunks[1..];
      var remaining := if |prefix| < limit then limit - |prefix| else 0;
      prefix := prefix + read[..Min(|read|, remaining)];
      delivered := delivered + read;
      return Ok(read);
    }
  }

  /** The buffered reader over a pipe, with the one line buffer it reuses. */
  class JsonLineReader {
    const inner: PrefixCapturingReader
    var buffer: seq<byte>
    var line: seq<byte>

    ghost predicate Valid()
      reads this, inner
    {
      inner.Valid() && |line| <= MAX_JSON_LINE_BYTES
    }

    /** Everything not yet returned as part of a line. */
    ghost function Unread(): seq<byte>
      reads this, inner
    {
      buffer + Flatten(inner.chunks)
    }

    constructor (inner: PrefixCapturingReader)
      requires inner.Valid()
      ensures Valid() && this.inner == inner && buffer == [] && Unread() == Flatten(inner.chunks)
    {
      this.inner := inner;
      buffer, line := [], [];
    }

    method FillBuffer() returns (available: Result<seq<byte>, ReadError>)
      requires Valid()
      modifies this`buffer, inner
      ensures Valid() && Unread() == old(Unread())
      ensures available == Ok(buffer) || (Unread() == [] && inner.failsAtEnd && available.Err?)
      ensures available.Ok? && buffer == [] ==> Unread() == [] && !inner.failsAtEnd
      ensures available.Err? || buffer == [] ==> inner.chunks == []
    {
      if buffer != [] {
        return Ok(buffer);
      }
      available := inner.Read();
      if available.Ok? {
        buffer := available.value;
      }
    }

    /** Consumes the buffered bytes up to and including a newline; nothing at the end. */
    method TakePart() returns (part: Result<seq<byte>, ReadError>)
      requires Valid()
      modifies this`buffer, inner
      ensures Valid()
      ensures part.Err? ==> old(Unread()) == [] && inner.failsAtEnd && inner.chunks == []
      ensures part == Ok([]) ==> old(Unread()) == [] && !inner.failsAtEnd && inner.chunks == []
      ensures part.Ok? ==>
        && old(Unread()) == part.value + Unread()
        && FirstLine(old(Unread())) == (if NEWLINE in part.value then part.value else part.value + FirstLine(Unread()))
        && (part.value != [] ==> (NEWLINE in part.value <==> part.value[|part.value| - 1] == NEWLINE))
    {
      part := FillBuffer();
      if part.Ok? && buffer != [] {
        part := Ok(FirstLine(buffer));
        FirstPart(buffer, Flatten(inner.chunks));
        buffer := buffer[|FirstLine(buffer)|..];
      }
    }

    /** `Some(true)`: the line buffer holds the next line. `Some(false)`: the next line was
        longer than the limit and has been skipped. */
    method ReadBoundedLine() returns (r: Result<Option<bool>, ReadError>)
      requires Valid()
      modifies this, inner
      ensures Valid()
      ensures r.Err? ==> inner.failsAtEnd && inner.chunks == []
      ensures r == Ok(None) ==> old(Unread()) == [] && !inner.failsAtEnd && inner.chunks == []
      ensures r.Ok? && r.value.Some? ==>
        var first := FirstLine(old(Unread()));
        && first != [] && old(Unread()) == first + Unread()
        && (r.value.value <==> |first| <= MAX_JSON_LINE_BYTES)
        && (r.value.value ==> line == first)
    {
      hide FirstLine, Flatten;
      line := [];
      var oversized, readAny := false, false;
      ghost var all := Unread();
      ghost var taken, unread: seq<byte> := [], all;
      var ended := false;
      while !ended
        invariant Valid() && unread == Unread() && all == taken + unread
        invariant FirstLine(all) == if ended then taken else taken + FirstLine(unread)
        invariant readAny <==> taken != []
        invariant ended ==> readAny
        invariant oversized <==> |taken| > MAX_JSON_LINE_BYTES
        invariant !oversized ==> line == taken
        decreases !ended, |unread|
      {
        var available := TakePart();
        if available.Err? {
          return Err(ReadFailed);
        }
        var part := available.value;
        if part == [] {
          FirstLineIsPrefix(unread);
          assert all == taken && FirstLine(all) == taken;
          return Ok(if readAny then Some(!oversized) else None);
        }
        Regrouped(all, taken, part, unread, Unread());
        readAny := true;
        var fits := !oversized && |line| + |part| <= MAX_JSON_LINE_BYTES;
        line := if fits then line + part else line;
        oversized := !fits;
        ended := part[|part| - 1] == NEWLINE;
        taken, unread := taken + part, Unread();
      }
      return Ok(Some(!oversized));
    }
  }

  /** The parsed result of the whole output, whatever the cuts; an I/O error discards it. */
  method ReadJsonOutput(reader: JsonLineReader, parse: seq<byte> -> LineEvent)
    returns (r: Result<Parsed, ReadError>)
    requires reader.Valid()
    modifies reader, reader.inner
    ensures reader.Valid() && reader.inner.chunks == []
    ensures r == if reader.inner.failsAtEnd then Err(ReadFailed)
                 else Ok(ApplyLines(NOTHING_PARSED, parse, Lines(old(reader.Unread()))))
  {
    var parsed := NOTHING_PARSED;
    while true
      invariant reader.Valid()
      invariant ApplyLines(parsed, parse, Lines(reader.Unread()))
             == ApplyLines(NOTHING_PARSED, parse, Lines(old(reader.Unread())))
      decreases |reader.Unread()|
    {
      ghost var unread := reader.Unread();
      var next := reader.ReadBoundedLine();
      if next.Err? {
        return Err(ReadFailed);
      }
      if next.value.None? {
        return Ok(parsed);
      }
      assert Lines(unread) == [FirstLine(unread)] + Lines(reader.Unread());
      if next.value.value {
        parsed := ApplyEvent(parsed, parse(reader.line));
      } else {
        parsed := parsed.(invalidMessage := true);
      }
    }
  }

  /** For every way of cutting standard error into reads, the parsed result is the fold over its
      newline-split lines and the captured diagnostic text is its first 64 KiB. */
  method ReadStderrOutput(chunks: seq<seq<byte>>, failsAtEnd: bool, parse: seq<byte> -> LineEvent)
    returns (r: Result<Parsed, ReadError>, captured: seq<byte>)
    requires forall i :: 0 <= i < |chunks| ==> chunks[i] != []
    ensures r == if failsAtEnd then Err(ReadFailed)
                 else Ok(ApplyLines(NOTHING_PARSED, parse, Lines(Flatten(chunks))))
    ensures captured == Flatten(chunks)[..Min(MAX_STDERR_BYTES, |Flatten(chunks)|)]
  {
    var pipe := new PrefixCapturingReader(chunks, failsAtEnd, MAX_STDERR_BYTES);
    var reader := new JsonLineReader(pipe);
    r := ReadJsonOutput(reader, parse);
    captured := pipe.prefix;
  }

  // ---------------------------------------------------------------- what the fold collects

  /** The collector's share of the lines. */
  function EventsOf(parse: seq<byte> -> LineEvent, lines: seq<seq<byte>>): seq<Event>
    decreases |lines|
  {
    if lines == [] then []
    else
      var rest := EventsOf(parse, lines[1..]);
      if |lines[0]| > MAX_JSON_LINE_BYTES then rest
      else match parse(lines[0])
        case FailureItem(item) => [Listed(item)] + rest
        case FailureItemOmitted => [Unlisted] + rest
        case _ => rest
  }

  lemma {:induction false} CollectFirst(d: Details, e: Event, rest: seq<Event>)
    ensures Collect(d, [e] + rest) == Collect(match e case Listed(item) => Push(d, item) case Unlisted => Omit(d), rest)
  {
    if rest == [] {
      assert [e] + rest == [e] && [e][..0] == [];
    } else {
      CollectFirst(d, e, rest[..|rest| - 1]);
      assert ([e] + rest)[..|rest|] == [e] + rest[..|rest| - 1];
    }
  }

  lemma {:induction false} FoldCollects(p: Parsed, parse: seq<byte> -> LineEvent, lines: seq<seq<byte>>)
    ensures ApplyLines(p, parse, lines).details == Collect(p.details, EventsOf(parse, lines))
    decreases |lines|
  {
    if lines != [] {
      var next := ApplyLine(p, parse, lines[0]);
      FoldCollects(next, parse, lines[1..]);
      var rest := EventsOf(parse, lines[1..]);
      if |lines[0]| <= MAX_JSON_LINE_BYTES {
        match parse(lines[0]) {
          case FailureItem(item) => CollectFirst(p.details, Listed(item), rest);
          case FailureItemOmitted => CollectFirst(p.details, Unlisted, rest);
          case _ =>
        }
      }
    }
  }

  /** The two streams' details, merged, are the first hundred distinct safe names of standard
      output followed by standard error. */
  lemma MergedStreamsKeepFirst(parse: seq<byte> -> LineEvent, stdout: seq<byte>, stderr: seq<byte>)
    ensures
      var out := ApplyLines(NOTHING_PARSED, parse, Lines(stdout)).details;
      var err := ApplyLines(NOTHING_PARSED, parse, Lines(stderr)).details;
      var names := ItemsOf(EventsOf(parse, Lines(stdout)) + EventsOf(parse, Lines(stderr)));
      Merge(out, err).items == Take(AddNew([], names)) && Bounded(Merge(out, err))
  {
    FoldCollects(NOTHING_PARSED, parse, Lines(stdout));
    FoldCollects(NOTHING_PARSED, parse, Lines(stderr));
    var a, b := EventsOf(parse, Lines(stdout)), EventsOf(parse, Lines(stderr));
    MergeIsConcatenation(a, b);
    CollectKeepsFirst(a + b);
  }
}
