/** A finished backup from the bytes on its two pipes to what a reader of the history is shown
    (apps/resticpal-service/src/executor.rs, runtime/lifecycle.rs, history.rs). */
module BackupRun {
  import opened Common
  import opened FailureDetails
  import opened Outcomes
  import opened OutputReader
  import opened BackupOutcomes
  import History

  /** A pipe: the reads it delivers, none of them empty, and whether it then fails instead of ending. */
  datatype Pipe = Pipe(chunks: seq<seq<byte>>, failsAtEnd: bool)

  predicate Delivers(pipe: Pipe) {
    forall i :: 0 <= i < |pipe.chunks| ==> pipe.chunks[i] != []
  }

  function LinesOf(pipe: Pipe): seq<seq<byte>> {
    Lines(Flatten(pipe.chunks))
  }

  /** Some line of acceptable length says this. */
  ghost predicate Says(parse: seq<byte> -> LineEvent, lines: seq<seq<byte>>, event: LineEvent) {
    exists i :: 0 <= i < |lines| && |lines[i]| <= MAX_JSON_LINE_BYTES && parse(lines[i]) == event
  }

  ghost predicate Summarizes(parse: seq<byte> -> LineEvent, lines: seq<seq<byte>>) {
    exists i :: 0 <= i < |lines| && |lines[i]| <= MAX_JSON_LINE_BYTES && parse(lines[i]).SummaryLine?
  }

  /** The pipe was read to its end and says this. */
  ghost predicate PipeSays(parse: seq<byte> -> LineEvent, pipe: Pipe, event: LineEvent) {
    !pipe.failsAtEnd && Says(parse, LinesOf(pipe), event)
  }

  /** What the pipe contributes to the collected names; nothing if it failed. */
  function PipeEvents(parse: seq<byte> -> LineEvent, pipe: Pipe): seq<Event> {
    if pipe.failsAtEnd then [] else EventsOf(parse, LinesOf(pipe))
  }

  function ParsedPipe(parse: seq<byte> -> LineEvent, pipe: Pipe): Result<Parsed, ReadError> {
    if pipe.failsAtEnd then Err(ReadFailed) else Ok(ApplyLines(NOTHING_PARSED, parse, LinesOf(pipe)))
  }

  // ---------------------------------------------------------------- what the fold over the lines finds

  lemma {:induction false} FoldFinds(p: Parsed, parse: seq<byte> -> LineEvent, lines: seq<seq<byte>>)
    ensures
      var r := ApplyLines(p, parse, lines);
      && (r.vssFallback <==> p.vssFallback || Says(parse, lines, VssFallback))
      && (r.vssCleanupFailed <==> p.vssCleanupFailed || Says(parse, lines, VssCleanupFailed))
      && (r.summary.Some? <==> p.summary.Some? || Summarizes(parse, lines))
    decreases |lines|
  {
    if lines != [] {
      FoldFinds(ApplyLine(p, parse, lines[0]), parse, lines[1..]);
      SaysFirst(parse, lines, VssFallback);
      SaysFirst(parse, lines, VssCleanupFailed);
      SummarizesFirst(parse, lines);
    }
  }

  lemma SaysFirst(parse: seq<byte> -> LineEvent, lines: seq<seq<byte>>, event: LineEvent)
    requires lines != []
    ensures Says(parse, lines, event) <==>
            (|lines[0]| <= MAX_JSON_LINE_BYTES && parse(lines[0]) == event) || Says(parse, lines[1..], event)
  {
    if Says(parse, lines[1..], event) {
      var i :| 0 <= i < |lines[1..]| && |lines[1..][i]| <= MAX_JSON_LINE_BYTES && parse(lines[1..][i]) == event;
      assert lines[i + 1] == lines[1..][i];
    }
    if Says(parse, lines, event) {
      var i :| 0 <= i < |lines| && |lines[i]| <= MAX_JSON_LINE_BYTES && parse(lines[i]) == event;
      assert i > 0 ==> lines[1..][i - 1] == lines[i];
    }
  }

  lemma SummarizesFirst(parse: seq<byte> -> LineEvent, lines: seq<seq<byte>>)
    requires lines != []
    ensures Summarizes(parse, lines) <==>
            (|lines[0]| <= MAX_JSON_LINE_BYTES && parse(lines[0]).SummaryLine?) || Summarizes(parse, lines[1..])
  {
    if Summarizes(parse, lines[1..]) {
      var i :| 0 <= i < |lines[1..]| && |lines[1..][i]| <= MAX_JSON_LINE_BYTES && parse(lines[1..][i]).SummaryLine?;
      assert lines[i + 1] == lines[1..][i];
    }
    if Summarizes(parse, lines) {
      var i :| 0 <= i < |lines| && |lines[i]| <= MAX_JSON_LINE_BYTES && parse(lines[i]).SummaryLine?;
      assert i > 0 ==> lines[1..][i - 1] == lines[i];
    }
  }

  /** What reading one pipe yields. */
  lemma PipeFacts(parse: seq<byte> -> LineEvent, pipe: Pipe)
    ensures
      var r := ParsedPipe(parse, pipe);
      && (r.Ok? <==> !pipe.failsAtEnd)
      && (r.Ok? && r.value.vssFallback <==> PipeSays(parse, pipe, VssFallback))
      && (r.Ok? && r.value.vssCleanupFailed <==> PipeSays(parse, pipe, VssCleanupFailed))
      && (r.Ok? && r.value.summary.Some? <==> !pipe.failsAtEnd && Summarizes(parse, LinesOf(pipe)))
      && (r.Ok? ==> r.value.details == Collect(NO_DETAILS, PipeEvents(parse, pipe)) && Bounded(r.value.details))
  {
    FoldFinds(NOTHING_PARSED, parse, LinesOf(pipe));
    FoldCollects(NOTHING_PARSED, parse, LinesOf(pipe));
    CollectKeepsFirst(EventsOf(parse, LinesOf(pipe)));
  }

  // ---------------------------------------------------------------- the names of both pipes

  /** Merging in what a failed pipe contributes changes nothing. */
  lemma MergeNothing(d: Details)
    requires d.omitted <= U64_MAX
    ensures Merge(d, NO_DETAILS) == d
  {
  }

  /** The names of both pipes, as the collector and the merge leave them. */
  function BothPipes(parse: seq<byte> -> LineEvent, out: Pipe, err: Pipe): Details {
    Merge(Collect(NO_DETAILS, PipeEvents(parse, out)), Collect(NO_DETAILS, PipeEvents(parse, err)))
  }

  lemma BothPipesKeepFirst(parse: seq<byte> -> LineEvent, out: Pipe, err: Pipe)
    ensures BothPipes(parse, out, err).items ==
            Take(AddNew([], ItemsOf(PipeEvents(parse, out) + PipeEvents(parse, err))))
  {
    hide Merge, PipeEvents, Take, AddNew, ItemsOf;
    MergeIsConcatenation(PipeEvents(parse, out), PipeEvents(parse, err));
    CollectKeepsFirst(PipeEvents(parse, out) + PipeEvents(parse, err));
  }

  lemma MergedPipes(parse: seq<byte> -> LineEvent, out: Pipe, err: Pipe)
    requires !out.failsAtEnd
    ensures
      var stdout, stderr := ParsedPipe(parse, out), ParsedPipe(parse, err);
      BothPipes(parse, out, err) ==
      if stderr.Ok? then Merge(stdout.value.details, stderr.value.details) else stdout.value.details
  {
    PipeFacts(parse, out);
    PipeFacts(parse, err);
    MergeNothing(Collect(NO_DETAILS, PipeEvents(parse, out)));
  }

  // ---------------------------------------------------------------- the whole way

  /** A snapshot was kept: the exit status says so and the output carried its summary. */
  ghost predicate KeptSnapshot(parse: seq<byte> -> LineEvent, out: Pipe, exit: Option<int>) {
    (exit == Some(0) || exit == Some(3)) && !out.failsAtEnd && Summarizes(parse, LinesOf(out))
  }

  ghost predicate FellBack(parse: seq<byte> -> LineEvent, out: Pipe, err: Pipe, known: bool) {
    PipeSays(parse, out, VssFallback) || known || PipeSays(parse, err, VssFallback)
  }

  ghost predicate LeftSnapshotBehind(parse: seq<byte> -> LineEvent, out: Pipe, err: Pipe) {
    PipeSays(parse, out, VssCleanupFailed) || PipeSays(parse, err, VssCleanupFailed)
  }

  lemma NoSnapshotOutcome(exit: Option<int>, stdout: Result<Parsed, ReadError>, stderr: Result<Parsed, ReadError>,
                          classified: Option<string>, known: bool, result: RetentionResult, saveFailed: bool)
    requires !((exit == Some(0) || exit == Some(3)) && stdout.Ok? && stdout.value.summary.Some?)
    ensures
      var outcome := AfterRetention(FinishOutcome(exit, stdout, stderr, classified, known), result, saveFailed);
      !IsSuccess(outcome.kind) && outcome.details == NO_DETAILS
  {
  }

  /** However the pipes cut their output, each yields the fold over its lines, and standard error its first 64 KiB. */
  method ReadBothPipes(out: Pipe, err: Pipe, parse: seq<byte> -> LineEvent)
    returns (stdout: Result<Parsed, ReadError>, stderr: Result<Parsed, ReadError>, captured: seq<byte>)
    requires Delivers(out) && Delivers(err)
    ensures stdout == ParsedPipe(parse, out) && stderr == ParsedPipe(parse, err)
    ensures captured == Flatten(err.chunks)[..Min(MAX_STDERR_BYTES, |Flatten(err.chunks)|)]
  {
    var pipe := new PrefixCapturingReader(out.chunks, out.failsAtEnd, 0);
    var reader := new JsonLineReader(pipe);
    stdout := ReadJsonOutput(reader, parse);
    stderr, captured := ReadStderrOutput(err.chunks, err.failsAtEnd, parse);
  }

  method StoreFailure(store: History.BackupHistoryStore, outcome: BackupOutcome, startedAt: int, now: int)
    returns (record: History.Record, found: Option<Details>)
    requires store.Valid() && !IsSuccess(outcome.kind) && outcome.details == NO_DETAILS
    modifies store
    ensures store.Valid() && |store.runs| == |old(store.runs)| + 1 && record.row.id == |store.runs|
    ensures found.Some? <==> record.row.id in History.IdsOf(History.Newest(store.runs, History.MAX_STORED_RUNS))
    ensures record.row.outcome.Failed? || record.row.outcome.Cancelled?
    ensures found.Some? ==> found.value == NO_DETAILS
  {
    History.NormalizeKeepsCollected(NO_DETAILS);
    record := store.Append(CompletedRunOf(outcome, startedAt, now));
    found := store.ReadFailureDetails(record.row.id);
  }

  /** From bytes to the history and back, for every way the two pipes cut their output, for every exit status and every
      retention result. A run that kept a snapshot is a success whose code tells the reader exactly whether the shadow
      copy was missing, sources were incomplete or a shadow copy was left behind, and whose names are the first hundred
      distinct safe ones of standard output followed by standard error; any other run is no success and names
      nothing. */
  method StoreFinishedRun(store: History.BackupHistoryStore, out: Pipe, err: Pipe, parse: seq<byte> -> LineEvent,
                          exit: Option<int>, classify: seq<byte> -> Option<string>, known: bool,
                          result: RetentionResult, saveFailed: bool, startedAt: int, now: int)
    returns (record: History.Record, found: Option<Details>)
    requires store.Valid() && Delivers(out) && Delivers(err) && KnownRetention(result)
    modifies store
    ensures store.Valid() && |store.runs| == |old(store.runs)| + 1 && record.row.id == |store.runs|
    ensures found.Some? <==> record.row.id in History.IdsOf(History.Newest(store.runs, History.MAX_STORED_RUNS))
    ensures KeptSnapshot(parse, out, exit) <==>
            record.row.outcome.Succeeded? || record.row.outcome.SucceededWithWarnings?
    ensures KeptSnapshot(parse, out, exit) ==>
      && (HasVssFallback(record.row.errorCode) <==> FellBack(parse, out, err, known))
      && (HasPartialSource(record.row.errorCode) <==> exit == Some(3))
      && (HasVssCleanupFailure(record.row.errorCode) <==> LeftSnapshotBehind(parse, out, err))
    ensures found.Some? ==>
      var merged := BothPipes(parse, out, err);
      var named := KeptSnapshot(parse, out, exit)
                   && (exit == Some(3) || FellBack(parse, out, err, known) || LeftSnapshotBehind(parse, out, err));
      && found.value.items == (if named then merged.items else [])
      && found.value.omitted == (if named then Min(merged.omitted, I64_MAX - |merged.items|) else 0)
  {
    hide FinishOutcome, AfterRetention, RetentionWarning, ParsedPipe, BothPipes, PipeSays, Summarizes, Merge;
    hide HasVssFallback, HasPartialSource, HasVssCleanupFailure, KnownRetention, History.Newest, History.IdsOf;
    var stdout, stderr, captured := ReadBothPipes(out, err, parse);
    PipeFacts(parse, out);
    PipeFacts(parse, err);
    if stdout.Ok? && stdout.value.summary.Some? && exit.Some? && (exit.value == 0 || exit.value == 3) {
      MergedPipes(parse, out, err);
      record, found := StoreAndShow(store, exit.value, stdout.value, stderr, classify(captured), known, result,
                                    saveFailed, startedAt, now);
    } else {
      NoSnapshotOutcome(exit, stdout, stderr, classify(captured), known, result, saveFailed);
      var outcome := AfterRetention(FinishOutcome(exit, stdout, stderr, classify(captured), known), result, saveFailed);
      record, found := StoreFailure(store, outcome, startedAt, now);
    }
  }
}
