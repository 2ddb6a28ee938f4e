/**
 `capture_usage_stream` and `StreamLogFinalizer` (src/routes/logs.rs): a stream forwarded untouched
 while token usage is read off it, and the log row written once when it ends or is dropped.

 `lossy` is the decoding of a chunk (`String::from_utf8_lossy`), `parse` reads JSON text and
 `elapsed(i)` is the clock when line `i` is looked at.
 */
module UsageCapture {
  import opened Wrappers
  import opened Json
  import opened Usages
  import opened EventLines

  type Bytes = seq<bv8>
  datatype Chunk = Data(bytes: Bytes) | Broken

  // ---- the scanner on values ----------------------------------------------------------------------

  /** The scanner between chunks: the unfinished line, lines seen, usage so far, first line with output. */
  datatype Scan = Scan(buffer: string, seen: nat, usage: Option<Usage>, firstOutput: Option<nat>)

  const START := Scan("", 0, None, None)

  function ScanLine(s: Scan, line: string, parse: Parse): Scan {
    match CapturedValue(line, parse)
    case None => s.(seen := s.seen + 1)
    case Some(value) =>
      var u := UsageFromJson(value);
      s.(seen := s.seen + 1,
         firstOutput := if s.firstOutput.None? && HasOutputDelta(value) then Some(s.seen) else s.firstOutput,
         usage := if u.None? then s.usage
                  else Some(if s.usage.Some? then s.usage.value.Merge(u.value) else u.value))
  }

  function ScanLines(s: Scan, lines: seq<string>, parse: Parse): Scan
    decreases lines
  {
    if lines == [] then s else ScanLines(ScanLine(s, lines[0], parse), lines[1..], parse)
  }

  /** One chunk: the complete lines of buffer and chunk are scanned, the rest is kept. */
  function Feed(s: Scan, text: string, parse: Parse): Scan {
    ScanLines(s, Lines(s.buffer + text), parse).(buffer := Rest(s.buffer + text))
  }

  function FeedAll(s: Scan, texts: seq<string>, parse: Parse): Scan
    decreases texts
  {
    if texts == [] then s else FeedAll(Feed(s, texts[0], parse), texts[1..], parse)
  }

  function Concat(texts: seq<string>): string {
    if texts == [] then "" else texts[0] + Concat(texts[1..])
  }

  lemma {:induction false} ScanLinesAppend(s: Scan, a: seq<string>, b: seq<string>, parse: Parse)
    ensures ScanLines(s, a + b, parse) == ScanLines(ScanLines(s, a, parse), b, parse)
    decreases a
  {
    if a == [] {
      assert a + b == b;
    } else {
      assert (a + b)[1..] == a[1..] + b;
      ScanLinesAppend(ScanLine(s, a[0], parse), a[1..], b, parse);
    }
  }

  /** Scanning lines never looks at the buffer. */
  lemma {:induction false} ScanIgnoresBuffer(s: Scan, lines: seq<string>, buffer: string, parse: Parse)
    ensures ScanLines(s.(buffer := buffer), lines, parse) == ScanLines(s, lines, parse).(buffer := buffer)
    decreases lines
  {
    if lines != [] {
      ScanIgnoresBuffer(ScanLine(s, lines[0], parse), lines[1..], buffer, parse);
    }
  }

  lemma FeedFeed(s: Scan, a: string, b: string, parse: Parse)
    ensures Feed(Feed(s, a, parse), b, parse) == Feed(s, a + b, parse)
  {
    var whole := s.buffer + a;
    var cut := ScanLines(s, Lines(whole), parse);
    var more := Lines(Rest(whole) + b);
    assert s.buffer + (a + b) == whole + b;
    LinesAppend(whole, b);
    ScanLinesAppend(s, Lines(whole), more, parse);
    ScanIgnoresBuffer(cut, more, Rest(whole), parse);
    assert Feed(s, a, parse) == cut.(buffer := Rest(whole));
    assert Feed(s, a + b, parse) == ScanLines(cut, more, parse).(buffer := Rest(Rest(whole) + b));
  }

  /** Chunk by chunk is the same as all at once. */
  lemma {:induction false} FeedAllIsFeed(s: Scan, texts: seq<string>, parse: Parse)
    requires s.buffer == Rest(s.buffer)
    ensures FeedAll(s, texts, parse) == Feed(s, Concat(texts), parse)
    decreases texts
  {
    if texts == [] {
      RestIsIdempotent(s.buffer);
      assert s.buffer + "" == s.buffer;
    } else {
      RestIsIdempotent(s.buffer + texts[0]);
      FeedAllIsFeed(Feed(s, texts[0], parse), texts[1..], parse);
      FeedFeed(s, texts[0], Concat(texts[1..]), parse);
    }
  }

  /**
   What the scanner reports depends on the text alone: any two ways of cutting it into chunks end with
   the same usage, the same line counted as the first output, and the same unfinished line.
   */
  lemma ChunkingIsInvisible(texts: seq<string>, texts': seq<string>, parse: Parse)
    requires Concat(texts) == Concat(texts')
    ensures FeedAll(START, texts, parse) == FeedAll(START, texts', parse)
    ensures '\n' !in FeedAll(START, texts, parse).buffer
  {
    FeedAllIsFeed(START, texts, parse);
    FeedAllIsFeed(START, texts', parse);
    LinesAndRest("" + Concat(texts));
  }

  // ---- what a scan means --------------------------------------------------------------------------

  /** The usage reports among the values, in order. */
  function Reports(values: seq<Value>): seq<Usage> {
    if values == [] then []
    else if UsageFromJson(values[0]).Some? then [UsageFromJson(values[0]).value] + Reports(values[1..])
    else Reports(values[1..])
  }

  predicate Outputs(line: string, parse: Parse) {
    CapturedValue(line, parse).Some? && HasOutputDelta(CapturedValue(line, parse).value)
  }

  lemma {:induction false} UsageOfScan(s: Scan, lines: seq<string>, parse: Parse)
    ensures ScanLines(s, lines, parse).usage == MergeAll(s.usage, Reports(Values(lines, Capturing(parse))))
    decreases lines
  {
    if lines != [] {
      UsageOfScan(ScanLine(s, lines[0], parse), lines[1..], parse);
      var read := Capturing(parse);
      if read(lines[0]).Some? {
        var v := read(lines[0]).value;
        var rest := Values(lines[1..], read);
        assert Values(lines, read)[1..] == rest;
        if UsageFromJson(v).Some? {
          assert Reports(Values(lines, read))[1..] == Reports(rest);
        }
      }
    }
  }

  /** `first`, counted from `base`, is the first of the lines that carries output. */
  ghost predicate IsFirstOutput(first: Option<nat>, base: nat, lines: seq<string>, parse: Parse) {
    match first
    case None => forall j :: 0 <= j < |lines| ==> !Outputs(lines[j], parse)
    case Some(i) => && base <= i < base + |lines| && Outputs(lines[i - base], parse)
                    && forall j :: 0 <= j < i - base ==> !Outputs(lines[j], parse)
  }

  lemma FirstOutputCons(first: Option<nat>, base: nat, line: string, lines: seq<string>, parse: Parse)
    requires !Outputs(line, parse) && IsFirstOutput(first, base + 1, lines, parse)
    ensures IsFirstOutput(first, base, [line] + lines, parse)
  {
    var all := [line] + lines;
    assert forall j :: 0 < j < |all| ==> all[j] == lines[j - 1];
  }

  lemma {:induction false} OutputSeen(s: Scan, lines: seq<string>, parse: Parse)
    ensures ScanLines(s, lines, parse).seen == s.seen + |lines|
    ensures s.firstOutput.Some? ==> ScanLines(s, lines, parse).firstOutput == s.firstOutput
    decreases lines
  {
    if lines != [] {
      OutputSeen(ScanLine(s, lines[0], parse), lines[1..], parse);
    }
  }

  lemma {:induction false} FirstOutputOfScan(s: Scan, lines: seq<string>, parse: Parse)
    requires s.firstOutput.None?
    ensures IsFirstOutput(ScanLines(s, lines, parse).firstOutput, s.seen, lines, parse)
    decreases lines
  {
    if lines != [] {
      var next := ScanLine(s, lines[0], parse);
      assert lines == [lines[0]] + lines[1..];
      if Outputs(lines[0], parse) {
        OutputSeen(next, lines[1..], parse);
      } else {
        FirstOutputOfScan(next, lines[1..], parse);
        FirstOutputCons(ScanLines(next, lines[1..], parse).firstOutput, s.seen, lines[0], lines[1..], parse);
      }
    }
  }

  /** The usage of a scanned text: each field is the one reported last by a complete data line. */
  lemma ScannedUsage(text: string, parse: Parse)
    ensures var reports := Reports(Values(Lines(text), Capturing(parse)));
            Feed(START, text, parse).usage.GetOr(NO_USAGE)
            == Usage(LastReported(reports, PROMPT), LastReported(reports, COMPLETION),
                     LastReported(reports, CACHED), LastReported(reports, CACHE_CREATION))
  {
    FeedFromStart(text, parse);
    UsageOfScan(START, Lines(text), parse);
    MergeKeepsLastReported(Reports(Values(Lines(text), Capturing(parse))));
  }

  lemma FeedFromStart(text: string, parse: Parse)
    ensures Feed(START, text, parse) == ScanLines(START, Lines(text), parse).(buffer := Rest(text))
  {
    assert "" + text == text;
  }

  /** The first-token line of a scanned text is its first complete line that carries output. */
  lemma ScannedFirstOutput(text: string, parse: Parse)
    ensures IsFirstOutput(Feed(START, text, parse).firstOutput, 0, Lines(text), parse)
  {
    FeedFromStart(text, parse);
    FirstOutputOfScan(START, Lines(text), parse);
  }

  // ---- the stream ---------------------------------------------------------------------------------

  /** The columns of the request log that `finalize_stream_log` writes. */
  datatype StreamLog = StreamLog(firstTokenMs: Option<int>, latencyMs: int, usage: Usage)

  /** `UPDATE request_logs SET c = COALESCE(?, c), ...`: an absent value keeps the column. */
  function FinalizeStreamLog(row: StreamLog, firstTokenMs: Option<int>, totalMs: int, usage: Usage): StreamLog {
    StreamLog(Coalesce(firstTokenMs, row.firstTokenMs), totalMs, row.usage.Merge(usage))
  }

  /** The decoded text of the chunks that arrived. */
  function Texts(chunks: seq<Chunk>, lossy: Bytes -> string): seq<string> {
    if chunks == [] then []
    else
      var init := Texts(chunks[..|chunks| - 1], lossy);
      match chunks[|chunks| - 1]
      case Data(bytes) => init + [lossy(bytes)]
      case Broken => init
  }

  lemma {:induction false} FeedAllSnoc(s: Scan, texts: seq<string>, text: string, parse: Parse)
    ensures FeedAll(s, texts + [text], parse) == Feed(FeedAll(s, texts, parse), text, parse)
    decreases texts
  {
    if texts == [] {
      assert (texts + [text])[1..] == [];
    } else {
      assert (texts + [text])[1..] == texts[1..] + [text];
      FeedAllSnoc(Feed(s, texts[0], parse), texts[1..], text, parse);
    }
  }

  /** The scan of the first `i` chunks. */
  function ScanOf(source: seq<Chunk>, i: nat, lossy: Bytes -> string, parse: Parse): Scan
    requires i <= |source|
  {
    FeedAll(START, Texts(source[..i], lossy), parse)
  }

  lemma ScanOfNext(source: seq<Chunk>, i: nat, lossy: Bytes -> string, parse: Parse)
    requires i < |source|
    ensures ScanOf(source, i + 1, lossy, parse)
         == match source[i]
            case Data(bytes) => Feed(ScanOf(source, i, lossy, parse), lossy(bytes), parse)
            case Broken => ScanOf(source, i, lossy, parse)
  {
    assert source[..i + 1][..i] == source[..i];
    if source[i].Data? {
      FeedAllSnoc(START, Texts(source[..i], lossy), lossy(source[i].bytes), parse);
    }
  }

  // ---- bytes --------------------------------------------------------------------------------------

  /** The bytes of the chunks that arrived. */
  function BytesOf(chunks: seq<Chunk>): Bytes {
    if chunks == [] then []
    else
      var init := BytesOf(chunks[..|chunks| - 1]);
      match chunks[|chunks| - 1]
      case Data(bytes) => init + bytes
      case Broken => init
  }

  /** No chunk boundary falls inside a character: decoding commutes with every one of these cuts. */
  ghost predicate CutBetweenCharacters(chunks: seq<Chunk>, lossy: Bytes -> string) {
    forall i :: 0 <= i < |chunks| && chunks[i].Data? ==>
      var before := BytesOf(chunks[..i]);
      lossy(before + chunks[i].bytes) == lossy(before) + lossy(chunks[i].bytes)
  }

  lemma {:induction false} ConcatSnoc(texts: seq<string>, text: string)
    ensures Concat(texts + [text]) == Concat(texts) + text
  {
    if texts != [] {
      assert (texts + [text])[1..] == texts[1..] + [text];
      ConcatSnoc(texts[1..], text);
    }
  }

  lemma {:induction false} DecodedChunks(chunks: seq<Chunk>, lossy: Bytes -> string)
    requires lossy([]) == "" && CutBetweenCharacters(chunks, lossy)
    ensures Concat(Texts(chunks, lossy)) == lossy(BytesOf(chunks))
  {
    if chunks != [] {
      var init, last := chunks[..|chunks| - 1], chunks[|chunks| - 1];
      assert forall i :: 0 <= i < |init| ==> init[..i] == chunks[..i] && init[i] == chunks[i];
      DecodedChunks(init, lossy);
      if last.Data? {
        ConcatSnoc(Texts(init, lossy), lossy(last.bytes));
      }
    }
  }

  /**
   The scan depends on the bytes alone: two streams of which the same bytes arrived, each cut anywhere between
   characters, end with the same usage, the same line as first output and the same unfinished line.
   */
  lemma CutsAreInvisible(a: seq<Chunk>, b: seq<Chunk>, lossy: Bytes -> string, parse: Parse)
    requires lossy([]) == "" && CutBetweenCharacters(a, lossy) && CutBetweenCharacters(b, lossy)
    requires BytesOf(a) == BytesOf(b)
    ensures ScanOf(a, |a|, lossy, parse) == ScanOf(b, |b|, lossy, parse)
  {
    DecodedChunks(a, lossy);
    DecodedChunks(b, lossy);
    ChunkingIsInvisible(Texts(a, lossy), Texts(b, lossy), parse);
    assert a[..|a|] == a && b[..|b|] == b;
  }

  /** What a poll comes to. */
  datatype Polled = Pending | Item(chunk: Chunk) | Finished

  datatype Phase = Unpolled | Streaming | Failed | Ended

  class CapturedStream {
    const source: seq<Chunk>
    const lossy: Bytes -> string
    const parse: Parse
    const elapsed: nat -> int
    const initial: StreamLog

    var pulled: nat
    var phase: Phase
    var buffer: string
    var seen: nat
    var usage: Option<Usage>
    var firstTokenMs: Option<int>
    var row: StreamLog
    ghost var polled: bool
    ghost var updates: nat
    ghost var total: int

    /** The scan of every chunk pulled so far. */
    ghost function Scanned(): Scan
      reads this
      requires pulled <= |source|
    {
      ScanOf(source, pulled, lossy, parse)
    }

    ghost function FirstTokenMs(): Option<int>
      reads this
      requires pulled <= |source|
    {
      if Scanned().firstOutput.Some? then Some(elapsed(Scanned().firstOutput.value)) else None
    }

    /**
     In every reachable state: the fields are the scan of the chunks pulled so far, and the row has been
     written once, with that scan, if the stream was polled and has ended, and otherwise not at all.
     */
    ghost predicate Valid()
      reads this
    {
      && pulled <= |source|
      && (phase == Unpolled ==> pulled == 0 && !polled)
      && (phase == Streaming || phase == Failed ==> polled)
      && (phase == Streaming || phase == Failed ==>
            && buffer == Scanned().buffer && seen == Scanned().seen
            && usage == Scanned().usage && firstTokenMs == FirstTokenMs())
      && updates == (if polled && phase == Ended then 1 else 0)
      && row == (if updates == 1
                 then FinalizeStreamLog(initial, FirstTokenMs(), total, Scanned().usage.GetOr(NO_USAGE))
                 else initial)
    }

    constructor (source: seq<Chunk>, lossy: Bytes -> string, parse: Parse, elapsed: nat -> int, row: StreamLog)
      ensures Valid() && phase == Unpolled && !polled
      ensures this.source == source && this.initial == row
      ensures this.lossy == lossy && this.parse == parse && this.elapsed == elapsed
    {
      this.source, this.lossy, this.parse, this.elapsed := source, lossy, parse, elapsed;
      this.initial, this.row := row, row;
      pulled, phase, buffer, seen, usage, firstTokenMs := 0, Unpolled, "", 0, None, None;
      polled, updates, total := false, 0, 0;
    }

    /** `StreamLogFinalizer::drop`. */
    method Finalize(totalMs: int)
      requires Valid() && (phase == Streaming || phase == Failed)
      modifies this
      ensures Valid() && phase == Ended && polled && updates == 1
      ensures pulled == old(pulled)
      ensures row == FinalizeStreamLog(initial, FirstTokenMs(), totalMs, Scanned().usage.GetOr(NO_USAGE))
    {
      row := FinalizeStreamLog(row, firstTokenMs, totalMs, usage.GetOr(NO_USAGE));
      total := totalMs;
      updates := updates + 1;
      phase := Ended;
    }

    /** What is done with one line. */
    method ScanOneLine(line: string, ghost s: Scan)
      requires seen == s.seen && usage == s.usage
      requires firstTokenMs == if s.firstOutput.Some? then Some(elapsed(s.firstOutput.value)) else None
      modifies this`seen, this`usage, this`firstTokenMs
      ensures var s' := ScanLine(s, line, parse);
              && seen == s'.seen && usage == s'.usage
              && firstTokenMs == if s'.firstOutput.Some? then Some(elapsed(s'.firstOutput.value)) else None
    {
      var value := CapturedValue(line, parse);
      if value.Some? {
        if firstTokenMs.None? && HasOutputDelta(value.value) {
          firstTokenMs := Some(elapsed(seen));
        }
        var u := UsageFromJson(value.value);
        if u.Some? {
          usage := Some(if usage.None? then u.value else usage.value.Merge(u.value));
        }
      }
      seen := seen + 1;
    }

    /** The inner loop: take complete lines off the buffer until none is left. */
    method ScanBuffer(text: string)
      requires pulled <= |source|
      requires buffer == Scanned().buffer && seen == Scanned().seen
      requires usage == Scanned().usage && firstTokenMs == FirstTokenMs()
      modifies this`buffer, this`seen, this`usage, this`firstTokenMs
      ensures var s := Feed(Scanned(), text, parse);
              && buffer == s.buffer && seen == s.seen && usage == s.usage
              && firstTokenMs == if s.firstOutput.Some? then Some(elapsed(s.firstOutput.value)) else None
    {
      ghost var was := Scanned();
      ghost var s := was;
      buffer := buffer + text;
      ghost var whole := buffer;
      while FirstBreak(buffer).Some?
        invariant ScanLines(s, Lines(buffer), parse) == ScanLines(was, Lines(whole), parse)
        invariant Rest(buffer) == Rest(whole)
        invariant seen == s.seen && usage == s.usage
        invariant firstTokenMs == if s.firstOutput.Some? then Some(elapsed(s.firstOutput.value)) else None
        decreases |buffer|
      {
        var pos := FirstBreak(buffer).value;
        var line := buffer[..pos];
        CutAtBreak(buffer);
        buffer := buffer[pos + 1..];
        ScanOneLine(line, s);
        s := ScanLine(s, line, parse);
      }
      assert Lines(buffer) == [];
    }

    /**
     One poll: the next chunk exactly as it came, or the end. `ready` says whether the upstream has something
     to say, `now` is the clock if the stream ends here.
     */
    method Poll(ready: bool, now: int) returns (polledTo: Polled)
      requires Valid()
      modifies this
      ensures Valid()
      ensures match old(phase)
              case Ended => polledTo == Finished && phase == Ended && row == old(row)
                            && pulled == old(pulled) && polled == old(polled) && updates == old(updates)
              case Failed => polledTo == Finished && phase == Ended && pulled == old(pulled)
              case _ =>
                if !ready then polledTo == Pending && phase == Streaming && pulled == old(pulled)
                else if old(pulled) < |source| then
                  && polledTo == Item(source[old(pulled)]) && pulled == old(pulled) + 1
                  && phase == (if source[old(pulled)].Broken? then Failed else Streaming)
                else polledTo == Finished && pulled == old(pulled) && phase == Ended
      ensures old(phase) != Ended ==> polled
    {
      if phase == Ended {
        return Finished;
      }
      if phase == Failed {
        Finalize(now);
        return Finished;
      }
      if phase == Unpolled {
        assert source[..0] == [];
        buffer, seen, usage, firstTokenMs, phase := "", 0, None, None, Streaming;
        polled := true;
      }
      if !ready {
        return Pending;
      }
      if pulled == |source| {
        Finalize(now);
        return Finished;
      }
      polledTo := Item(source[pulled]);
      Pull();
    }

    /** One turn of the outer loop, up to its `yield`. */
    method Pull()
      requires Valid() && phase == Streaming && pulled < |source|
      modifies this
      ensures Valid() && pulled == old(pulled) + 1
      ensures phase == (if source[old(pulled)].Broken? then Failed else Streaming)
    {
      var chunk := source[pulled];
      ScanOfNext(source, pulled, lossy, parse);
      if chunk.Data? {
        ScanBuffer(lossy(chunk.bytes));
      } else {
        phase := Failed;
      }
      pulled := pulled + 1;
    }

    /** The consumer lets go of the stream. */
    method Drop(now: int)
      requires Valid()
      modifies this
      ensures Valid() && phase == Ended && pulled == old(pulled)
      ensures old(phase) != Ended ==> polled == (old(phase) != Unpolled)
      ensures old(phase) == Ended ==> polled == old(polled) && row == old(row)
    {
      if phase == Streaming || phase == Failed {
        Finalize(now);
      }
      phase := Ended;
    }
  }

  // ---- one report, from the bytes to the row ---------------------------------------------------------

  lemma OneLine(v: Value, render: Value -> string, parse: Parse)
    requires ReadsBack(render, parse, v)
    ensures var s := Feed(START, "data: " + render(v) + "\n", parse);
            s.usage == UsageFromJson(v) && s.firstOutput == if HasOutputDelta(v) then Some(0) else None
  {
    var line := "data: " + render(v);
    var text := line + "\n";
    DataLineReadsBack(v, render, parse);
    assert text == line + "\n" + "";
    LineFirst(line, "");
    assert Lines("") == [] && Lines(text) == [line] && [line][1..] == [];
    FeedFromStart(text, parse);
    assert ScanLines(START, [line], parse) == ScanLines(ScanLine(START, line, parse), [], parse);
  }

  lemma OneChunk(bytes: Bytes, lossy: Bytes -> string, parse: Parse)
    ensures ScanOf([Data(bytes)], 1, lossy, parse) == Feed(START, lossy(bytes), parse)
  {
    var chunks, texts := [Data(bytes)], [lossy(bytes)];
    assert chunks[..1] == chunks && chunks[..0] == [];
    assert Texts([], lossy) == [] && Texts(chunks, lossy) == texts;
    assert texts[1..] == [];
    assert FeedAll(START, texts, parse) == FeedAll(Feed(START, texts[0], parse), [], parse);
  }

  /** What `finalize_stream_log` leaves in each column. */
  lemma FinalColumns(row: StreamLog, firstTokenMs: Option<int>, totalMs: int, u: Usage)
    ensures var left := FinalizeStreamLog(row, firstTokenMs, totalMs, u);
            && left.latencyMs == totalMs
            && left.firstTokenMs == (if firstTokenMs.Some? then firstTokenMs else row.firstTokenMs)
            && left.usage.prompt == (if u.prompt.Some? then u.prompt else row.usage.prompt)
            && left.usage.completion == (if u.completion.Some? then u.completion else row.usage.completion)
            && left.usage.cached == (if u.cached.Some? then u.cached else row.usage.cached)
            && left.usage.cacheCreation == (if u.cacheCreation.Some? then u.cacheCreation else row.usage.cacheCreation)
  {
  }

  /** A stream of one data line, captured to its end: what the row holds then, column by column. */
  method CaptureOneLine(v: Value, render: Value -> string, parse: Parse, bytes: Bytes, lossy: Bytes -> string,
                        elapsed: nat -> int, row: StreamLog, totalMs: int)
    returns (forwarded: Polled, left: StreamLog)
    requires ReadsBack(render, parse, v) && lossy(bytes) == "data: " + render(v) + "\n"
    ensures forwarded == Item(Data(bytes))
    ensures left.latencyMs == totalMs
    ensures left.firstTokenMs == if HasOutputDelta(v) then Some(elapsed(0)) else row.firstTokenMs
    ensures var u := UsageFromJson(v).GetOr(NO_USAGE);
            && left.usage.prompt == (if u.prompt.Some? then u.prompt else row.usage.prompt)
            && left.usage.completion == (if u.completion.Some? then u.completion else row.usage.completion)
            && left.usage.cached == (if u.cached.Some? then u.cached else row.usage.cached)
            && left.usage.cacheCreation == (if u.cacheCreation.Some? then u.cacheCreation else row.usage.cacheCreation)
  {
    var stream := new CapturedStream([Data(bytes)], lossy, parse, elapsed, row);
    forwarded := stream.Poll(true, 0);
    OneLine(v, render, parse);
    OneChunk(bytes, lossy, parse);
    stream.Finalize(totalMs);
    left := stream.row;
    assert stream.Scanned() == Feed(START, lossy(bytes), parse);
    FinalColumns(row, stream.FirstTokenMs(), totalMs, UsageFromJson(v).GetOr(NO_USAGE));
  }

  /** The row a chat completion's report leaves. */
  method CaptureChatReport(rest: map<string, Value>, prompt: int, completion: int, cached: int,
                           render: Value -> string, parse: Parse, bytes: Bytes, lossy: Bytes -> string,
                           elapsed: nat -> int, row: StreamLog, totalMs: int)
    returns (left: StreamLog)
    requires I64(prompt).Some? && I64(completion).Some? && I64(cached).Some?
    requires var v := Report(rest, ChatReportFields(prompt, completion, cached));
             ReadsBack(render, parse, v) && lossy(bytes) == "data: " + render(v) + "\n"
    ensures left.usage == Usage(Some(prompt), Some(completion), Some(cached), row.usage.cacheCreation)
  {
    ChatReport(rest, prompt, completion, cached);
    var v := Report(rest, ChatReportFields(prompt, completion, cached));
    var _, captured := CaptureOneLine(v, render, parse, bytes, lossy, elapsed, row, totalMs);
    left := captured;
  }

  /** The row an Anthropic message's report leaves. */
  method CaptureAnthropicReport(rest: map<string, Value>, input: int, output: int, read: int, written: int,
                                render: Value -> string, parse: Parse, bytes: Bytes, lossy: Bytes -> string,
                                elapsed: nat -> int, row: StreamLog, totalMs: int)
    returns (left: StreamLog)
    requires I64(input).Some? && I64(output).Some? && I64(read).Some? && I64(written).Some?
    requires var v := Report(rest, AnthropicReportFields(input, output, read, written));
             ReadsBack(render, parse, v) && lossy(bytes) == "data: " + render(v) + "\n"
    ensures left.usage == Usage(Some(input + read + written), Some(output), Some(read), Some(written))
  {
    AnthropicReport(rest, input, output, read, written);
    var v := Report(rest, AnthropicReportFields(input, output, read, written));
    var _, captured := CaptureOneLine(v, render, parse, bytes, lossy, elapsed, row, totalMs);
    left := captured;
  }
}
