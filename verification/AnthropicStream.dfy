/**
 `stream_response` (src/routes/messages.rs): an OpenAI-style event stream rewritten into Anthropic
 events. `polls` is how many events the consumer takes before it lets go; a consumer that reads to the
 end polls more often than there are events.
 */
module AnthropicStream {
  import opened Wrappers
  import opened Sequences
  import opened Json
  import opened Usages
  import opened EventLines
  import opened UsageCapture
  import opened ChatChunks

  datatype Out =
    | MessageStart
    | ContentBlockStart
    | TextDelta(text: string)
    | ContentBlockStop
    | MessageDelta(stopReason: string)
    | MessageStop

  // ---- the output, from the values of the data lines ------------------------------------------------

  function DeltaContent(v: Value): Option<string> {
    v.StrAt(["choices", "0", "delta", "content"])
  }

  function FinishReason(v: Value): Option<string> {
    v.StrAt(["choices", "0", "finish_reason"])
  }

  function Deltas(values: seq<Value>): seq<Out> {
    if values == [] then []
    else if DeltaContent(values[0]).Some? then
      [TextDelta(DeltaContent(values[0]).value)] + Deltas(values[1..])
    else Deltas(values[1..])
  }

  /** The last finish reason decides; without one the turn ended normally. */
  function StopReason(values: seq<Value>): string {
    if values == [] then "end_turn"
    else match FinishReason(values[|values| - 1])
      case Some(reason) => if reason == "length" then "max_tokens" else "end_turn"
      case None => StopReason(values[..|values| - 1])
  }

  /** The usage of the last value that reports any: here a later report replaces the earlier ones. */
  function LastUsage(values: seq<Value>): Option<Usage> {
    if values == [] then None
    else Coalesce(UsageFromJson(values[|values| - 1]), LastUsage(values[..|values| - 1]))
  }

  function Opening(): seq<Out> {
    [MessageStart, ContentBlockStart]
  }

  function Closing(values: seq<Value>): seq<Out> {
    [ContentBlockStop, MessageDelta(StopReason(values)), MessageStop]
  }

  function Full(values: seq<Value>): seq<Out> {
    Opening() + Deltas(values) + Closing(values)
  }

  /** The text decoded from the chunks before the first failing one. */
  function TextBeforeError(chunks: seq<Chunk>, lossy: Bytes -> string): string {
    if chunks == [] || chunks[0].Broken? then ""
    else lossy(chunks[0].bytes) + TextBeforeError(chunks[1..], lossy)
  }

  /** The values of the complete data lines of a text. */
  function ValuesOf(text: string, parse: Parse): seq<Value> {
    Values(Lines(text), Forwarding(parse))
  }

  // ---- bytes --------------------------------------------------------------------------------------------

  predicate Unbroken(chunks: seq<Chunk>) {
    forall c :: c in chunks ==> c.Data?
  }

  /** The chunks before the first failing one. */
  function BeforeError(chunks: seq<Chunk>): (r: seq<Chunk>)
    ensures Unbroken(r)
  {
    if chunks == [] || chunks[0].Broken? then [] else [chunks[0]] + BeforeError(chunks[1..])
  }

  lemma {:induction false} NothingAfterError(chunks: seq<Chunk>, lossy: Bytes -> string)
    ensures TextBeforeError(BeforeError(chunks), lossy) == TextBeforeError(chunks, lossy)
  {
    if chunks != [] && chunks[0].Data? {
      NothingAfterError(chunks[1..], lossy);
      assert BeforeError(chunks)[1..] == BeforeError(chunks[1..]);
    }
  }

  lemma {:induction false} TextSnoc(chunks: seq<Chunk>, last: Chunk, lossy: Bytes -> string)
    requires Unbroken(chunks) && last.Data?
    ensures TextBeforeError(chunks + [last], lossy) == TextBeforeError(chunks, lossy) + lossy(last.bytes)
  {
    if chunks == [] {
      assert [last][1..] == [];
    } else {
      assert (chunks + [last])[1..] == chunks[1..] + [last];
      assert chunks[0] in chunks && (chunks + [last])[0] == chunks[0];
      TextSnoc(chunks[1..], last, lossy);
    }
  }

  lemma CutsOfInit(init: seq<Chunk>, last: Chunk, lossy: Bytes -> string)
    requires CutBetweenCharacters(init + [last], lossy) && last.Data?
    ensures CutBetweenCharacters(init, lossy)
    ensures BytesOf(init + [last]) == BytesOf(init) + last.bytes
    ensures lossy(BytesOf(init) + last.bytes) == lossy(BytesOf(init)) + lossy(last.bytes)
  {
    var chunks := init + [last];
    assert chunks[..|init|] == init && chunks[|init|] == last;
    forall i | 0 <= i < |init| && init[i].Data?
      ensures lossy(BytesOf(init[..i]) + init[i].bytes) == lossy(BytesOf(init[..i])) + lossy(init[i].bytes)
    {
      assert chunks[..i] == init[..i] && chunks[i] == init[i];
    }
  }

  lemma {:induction false} TextIsDecodedBytes(chunks: seq<Chunk>, lossy: Bytes -> string)
    requires Unbroken(chunks) && lossy([]) == "" && CutBetweenCharacters(chunks, lossy)
    ensures TextBeforeError(chunks, lossy) == lossy(BytesOf(chunks))
  {
    if chunks != [] {
      var init, last := chunks[..|chunks| - 1], chunks[|chunks| - 1];
      assert chunks == init + [last];
      assert last in chunks;
      CutsOfInit(init, last, lossy);
      TextIsDecodedBytes(init, lossy);
      TextSnoc(init, last, lossy);
    }
  }

  /**
   The events depend on the bytes alone: two upstreams that send the same bytes before they fail or end, each cut
   anywhere between characters, are rewritten alike.
   */
  lemma SameBytesSameEvents(a: seq<Chunk>, b: seq<Chunk>, lossy: Bytes -> string, parse: Parse)
    requires lossy([]) == ""
    requires CutBetweenCharacters(BeforeError(a), lossy) && CutBetweenCharacters(BeforeError(b), lossy)
    requires BytesOf(BeforeError(a)) == BytesOf(BeforeError(b))
    ensures ValuesOf(TextBeforeError(a, lossy), parse) == ValuesOf(TextBeforeError(b, lossy), parse)
    ensures Full(ValuesOf(TextBeforeError(a, lossy), parse)) == Full(ValuesOf(TextBeforeError(b, lossy), parse))
  {
    NothingAfterError(a, lossy);
    NothingAfterError(b, lossy);
    TextIsDecodedBytes(BeforeError(a), lossy);
    TextIsDecodedBytes(BeforeError(b), lossy);
  }

  // ---- well-formedness, by an automaton of its own ------------------------------------------------------

  datatype Grammar = Begin | Opened | InBlock | BlockClosed | Finishing | Complete | Bad

  /** message_start content_block_start delta* content_block_stop message_delta message_stop. */
  function Advance(g: Grammar, o: Out): Grammar {
    match (g, o)
    case (Begin, MessageStart) => Opened
    case (Opened, ContentBlockStart) => InBlock
    case (InBlock, TextDelta(_)) => InBlock
    case (InBlock, ContentBlockStop) => BlockClosed
    case (BlockClosed, MessageDelta(_)) => Finishing
    case (Finishing, MessageStop) => Complete
    case _ => Bad
  }

  function Run(g: Grammar, outs: seq<Out>): Grammar
    decreases outs
  {
    if outs == [] then g else Run(Advance(g, outs[0]), outs[1..])
  }

  lemma {:induction false} RunAppend(g: Grammar, a: seq<Out>, b: seq<Out>)
    ensures Run(g, a + b) == Run(Run(g, a), b)
    decreases a
  {
    if a == [] {
      assert a + b == b;
    } else {
      assert (a + b)[1..] == a[1..] + b;
      RunAppend(Advance(g, a[0]), a[1..], b);
    }
  }

  lemma {:induction false} BadStaysBad(outs: seq<Out>)
    ensures Run(Bad, outs) == Bad
    decreases outs
  {
    if outs != [] {
      BadStaysBad(outs[1..]);
    }
  }

  lemma {:induction false} DeltasStayInBlock(values: seq<Value>)
    ensures Run(InBlock, Deltas(values)) == InBlock
  {
    if values != [] {
      DeltasStayInBlock(values[1..]);
      if DeltaContent(values[0]).Some? {
        assert Deltas(values)[1..] == Deltas(values[1..]);
      }
    }
  }

  /** A stream read to the end is a complete message, and wherever it stops it has not gone wrong. */
  lemma AlwaysWellFormed(values: seq<Value>, k: nat)
    ensures Run(Begin, Full(values)) == Complete
    ensures Run(Begin, Prefix(Full(values), k)) != Bad
  {
    var full, head := Full(values), Opening() + Deltas(values);
    RunAppend(Begin, head, Closing(values));
    RunAppend(Begin, Opening(), Deltas(values));
    assert Run(Begin, Opening()) == InBlock by {
      assert Opening()[1..] == [ContentBlockStart];
      assert [ContentBlockStart][1..] == [];
    }
    DeltasStayInBlock(values);
    ClosingCompletes(values);
    if k <= |full| {
      assert full == full[..k] + full[k..];
      RunAppend(Begin, full[..k], full[k..]);
      BadStaysBad(full[k..]);
    }
  }

  lemma ClosingCompletes(values: seq<Value>)
    ensures Run(InBlock, Closing(values)) == Complete
  {
    var c := Closing(values);
    assert c[1..] == [MessageDelta(StopReason(values)), MessageStop];
    assert c[1..][1..] == [MessageStop];
    assert Run(Finishing, [MessageStop]) == Run(Complete, [MessageStop][1..]) == Complete;
    assert Run(BlockClosed, c[1..]) == Run(Finishing, [MessageStop]);
  }

  // ---- conservation of text ---------------------------------------------------------------------------

  function DeltaText(outs: seq<Out>): string {
    if outs == [] then ""
    else (match outs[0] case TextDelta(t) => t case _ => "") + DeltaText(outs[1..])
  }

  /** The upstream's content, value by value. */
  function UpstreamText(values: seq<Value>): string {
    if values == [] then "" else DeltaContent(values[0]).GetOr("") + UpstreamText(values[1..])
  }

  lemma {:induction false} DeltaTextAppend(a: seq<Out>, b: seq<Out>)
    ensures DeltaText(a + b) == DeltaText(a) + DeltaText(b)
  {
    if a == [] {
      assert a + b == b;
    } else {
      assert (a + b)[1..] == a[1..] + b;
      DeltaTextAppend(a[1..], b);
    }
  }

  lemma {:induction false} DeltasCarryText(values: seq<Value>)
    ensures DeltaText(Deltas(values)) == UpstreamText(values)
  {
    if values != [] {
      DeltasCarryText(values[1..]);
      if DeltaContent(values[0]).Some? {
        assert Deltas(values)[1..] == Deltas(values[1..]);
      }
    }
  }

  /** The message's text is exactly the upstream's text. */
  lemma TextIsConserved(values: seq<Value>)
    ensures DeltaText(Full(values)) == UpstreamText(values)
  {
    DeltasCarryText(values);
    DeltaTextAppend(Opening() + Deltas(values), Closing(values));
    DeltaTextAppend(Opening(), Deltas(values));
    assert Opening()[1..] == [ContentBlockStart] && [ContentBlockStart][1..] == [];
    var c := Closing(values);
    assert c[1..] == [MessageDelta(StopReason(values)), MessageStop];
    assert c[1..][1..] == [MessageStop];
    assert c[1..][1..][1..] == [];
  }

  /** Value `i` is the last that gives a finish reason. */
  ghost predicate LastFinish(values: seq<Value>, i: int) {
    && 0 <= i < |values| && FinishReason(values[i]).Some?
    && forall j :: i < j < |values| ==> FinishReason(values[j]).None?
  }

  /** The stop reason follows the last finish reason given, and is end_turn when there is none. */
  lemma {:induction false} StopReasonIsLast(values: seq<Value>, i: int)
    requires LastFinish(values, i)
    ensures StopReason(values) == if FinishReason(values[i]) == Some("length") then "max_tokens" else "end_turn"
  {
    if i < |values| - 1 {
      assert LastFinish(values[..|values| - 1], i);
      StopReasonIsLast(values[..|values| - 1], i);
    }
  }

  lemma {:induction false} StopReasonByDefault(values: seq<Value>)
    requires forall j :: 0 <= j < |values| ==> FinishReason(values[j]).None?
    ensures StopReason(values) == "end_turn"
  {
    if values != [] {
      StopReasonByDefault(values[..|values| - 1]);
    }
  }

  // ---- chat streams, from the upstream's text to the client's events -------------------------------------

  function BuiltAll(chunks: seq<ChatChunk>): seq<Value> {
    Map(chunks, (c: ChatChunk) => Built(c))
  }

  /** The content of the chunks, in order. */
  function ChatContent(chunks: seq<ChatChunk>): string {
    if chunks == [] then ""
    else (if DeltaField(chunks[0], "content").Some? then DeltaField(chunks[0], "content").value else "")
         + ChatContent(chunks[1..])
  }

  /** The last finish reason that is not null. */
  function ChatFinish(chunks: seq<ChatChunk>): Option<string> {
    if chunks == [] then None
    else if chunks[|chunks| - 1].finish.Some? then chunks[|chunks| - 1].finish
    else ChatFinish(chunks[..|chunks| - 1])
  }

  lemma ChunkLookups(c: ChatChunk)
    ensures DeltaContent(Built(c)) == DeltaField(c, "content") && FinishReason(Built(c)) == c.finish
  {
    InDelta(c, "content");
    InFinish(c);
  }

  lemma {:induction false} ContentIsUpstreamText(chunks: seq<ChatChunk>)
    ensures UpstreamText(BuiltAll(chunks)) == ChatContent(chunks)
  {
    if chunks != [] {
      ChunkLookups(chunks[0]);
      ContentIsUpstreamText(chunks[1..]);
      assert BuiltAll(chunks)[1..] == BuiltAll(chunks[1..]);
    }
  }

  predicate FinishAgrees(values: seq<Value>, finish: Option<string>) {
    StopReason(values) == if finish == Some("length") then "max_tokens" else "end_turn"
  }

  lemma FinishAgreesSnoc(values: seq<Value>, finish: Option<string>, last: ChatChunk)
    requires FinishAgrees(values, finish)
    ensures FinishAgrees(values + [Built(last)], if last.finish.Some? then last.finish else finish)
  {
    ChunkLookups(last);
    SummariesSnoc(values, Built(last));
  }

  lemma OneMoreFinish(init: seq<ChatChunk>, last: ChatChunk)
    requires FinishAgrees(BuiltAll(init), ChatFinish(init))
    ensures FinishAgrees(BuiltAll(init + [last]), ChatFinish(init + [last]))
  {
    FinishAgreesSnoc(BuiltAll(init), ChatFinish(init), last);
    FinishSnoc(init, last);
    BuiltSnoc(init, last);
  }

  lemma BuiltSnoc(init: seq<ChatChunk>, last: ChatChunk)
    ensures BuiltAll(init + [last]) == BuiltAll(init) + [Built(last)]
  {
  }

  lemma {:induction false} FinishIsStopReason(chunks: seq<ChatChunk>)
    ensures FinishAgrees(BuiltAll(chunks), ChatFinish(chunks))
  {
    if chunks == [] {
      assert BuiltAll(chunks) == [];
    } else {
      var init, last := chunks[..|chunks| - 1], chunks[|chunks| - 1];
      FinishIsStopReason(init);
      OneMoreFinish(init, last);
      assert chunks == init + [last];
    }
  }

  lemma FinishSnoc(init: seq<ChatChunk>, last: ChatChunk)
    ensures ChatFinish(init + [last]) == if last.finish.Some? then last.finish else ChatFinish(init)
  {
  }

  /** A chat stream becomes a message with exactly its content as text and its finish reason as stop reason. */
  lemma ChatStreamIsRewritten(chunks: seq<ChatChunk>, render: Value -> string, parse: Parse)
    requires forall c :: c in chunks ==> ReadsBack(render, parse, Built(c))
    ensures var values := ValuesOf(PrintData(BuiltAll(chunks), render), parse);
            && values == BuiltAll(chunks)
            && DeltaText(Full(values)) == ChatContent(chunks)
            && StopReason(values) == if ChatFinish(chunks) == Some("length") then "max_tokens" else "end_turn"
  {
    forall v | v in BuiltAll(chunks) ensures ReadsBack(render, parse, v) {
      var i :| 0 <= i < |chunks| && Built(chunks[i]) == v;
    }
    ScanInvertsData(BuiltAll(chunks), render, parse);
    ContentIsUpstreamText(chunks);
    FinishIsStopReason(chunks);
    TextIsConserved(BuiltAll(chunks));
  }

  // ---- usage: replaced here, merged by the capturing scanner ---------------------------------------------

  lemma {:induction false} LastUsageIsLastReport(values: seq<Value>)
    ensures var reports := Reports(values);
            LastUsage(values) == if reports == [] then None else Some(reports[|reports| - 1])
  {
    if values != [] {
      var init, last := values[..|values| - 1], values[|values| - 1];
      LastUsageIsLastReport(init);
      assert values == init + [last];
      ReportsAppend(init, [last]);
      assert [last][1..] == [];
    }
  }

  lemma {:induction false} ReportsAppend(a: seq<Value>, b: seq<Value>)
    ensures Reports(a + b) == Reports(a) + Reports(b)
  {
    if a == [] {
      assert a + b == b;
    } else {
      assert (a + b)[1..] == a[1..] + b;
      ReportsAppend(a[1..], b);
    }
  }

  /** No field was reported earlier and then left out of the last report. */
  predicate LastReportIsComplete(reports: seq<Usage>)
    requires reports != []
  {
    var last := reports[|reports| - 1];
    forall u :: u in reports ==>
      && (u.prompt.Some? ==> last.prompt.Some?) && (u.completion.Some? ==> last.completion.Some?)
      && (u.cached.Some? ==> last.cached.Some?) && (u.cacheCreation.Some? ==> last.cacheCreation.Some?)
  }

  lemma {:induction false} LastReportedField(reports: seq<Usage>, field: Usage -> Option<int>)
    requires reports != []
    ensures field(reports[|reports| - 1]).Some? ==>
            LastReported(reports, field) == field(reports[|reports| - 1])
    ensures LastReported(reports, field).None? <==> forall u :: u in reports ==> field(u).None?
  {
    if |reports| > 1 {
      LastReportedField(reports[1..], field);
      assert forall u :: u in reports <==> u == reports[0] || u in reports[1..];
    } else {
      assert reports[1..] == [];
    }
  }

  /**
   Replacing instead of merging loses nothing exactly when the last report repeats every field reported
   before; a report split over two events is recorded in part.
   */
  lemma ReplacingEqualsMergingIff(reports: seq<Usage>)
    requires reports != []
    ensures MergeAll(None, reports) == Some(reports[|reports| - 1]) <==> LastReportIsComplete(reports)
  {
    MergeKeepsLastReported(reports);
    LastReportedField(reports, PROMPT);
    LastReportedField(reports, COMPLETION);
    LastReportedField(reports, CACHED);
    LastReportedField(reports, CACHE_CREATION);
    var last := reports[|reports| - 1];
    assert last in reports;
    assert LastReportIsComplete(reports) <==>
           && ((forall u :: u in reports ==> PROMPT(u).None?) || last.prompt.Some?)
           && ((forall u :: u in reports ==> COMPLETION(u).None?) || last.completion.Some?)
           && ((forall u :: u in reports ==> CACHED(u).None?) || last.cached.Some?)
           && ((forall u :: u in reports ==> CACHE_CREATION(u).None?) || last.cacheCreation.Some?);
  }

  /** One event reports the prompt, a later one the completion: merging records both, replacing loses the prompt. */
  lemma SplitReportLosesPrompt()
    ensures var values := [Report(map[], map["prompt_tokens" := Integer(10)]),
                           Report(map[], map["completion_tokens" := Integer(5)])];
            && LastUsage(values) == Some(NO_USAGE.(completion := Some(5)))
            && MergeAll(None, Reports(values)) == Some(NO_USAGE.(prompt := Some(10), completion := Some(5)))
  {
    var p, c := map["prompt_tokens" := Integer(10)], map["completion_tokens" := Integer(5)];
    var v, w := Report(map[], p), Report(map[], c);
    ReportRead(map[], p, Counts(Some(10), None, None, None, None, None, None, None, None));
    ReportRead(map[], c, Counts(None, None, Some(5), None, None, None, None, None, None));
    assert [v, w][..1] == [v] && [v, w][1..] == [w] && [w][1..] == [];
    assert LastUsage([v]) == UsageFromJson(v);
    assert Reports([w]) == [UsageFromJson(w).value];
    var a, b := UsageFromJson(v).value, UsageFromJson(w).value;
    assert Reports([v, w]) == [a, b];
    MergeTwo(a, b);
  }

  lemma MergeTwo(a: Usage, b: Usage)
    ensures MergeAll(None, [a, b]) == Some(a.Merge(b))
  {
    assert [a, b][1..] == [b] && [b][1..] == [];
    assert MergeAll(Some(a), [b]) == Some(a.Merge(b));
  }

  // ---- the generator ----------------------------------------------------------------------------------

  /** The position of the first delta with text: its moment is the first-token time. */
  function FirstTextDelta(deltas: seq<Out>): (first: Option<nat>)
    ensures first.None? ==> forall i :: 0 <= i < |deltas| ==> deltas[i].TextDelta? ==> deltas[i].text == ""
    ensures first.Some? ==> && first.value < |deltas|
                            && deltas[first.value].TextDelta? && deltas[first.value].text != ""
                            && forall i :: 0 <= i < first.value ==> deltas[i].TextDelta? ==> deltas[i].text == ""
  {
    if deltas == [] then None
    else
      var earlier := FirstTextDelta(deltas[..|deltas| - 1]);
      if earlier.Some? then earlier
      else if deltas[|deltas| - 1].TextDelta? && deltas[|deltas| - 1].text != "" then Some(|deltas| - 1)
      else None
  }

  /** What the generator has to show after the values `done`. */
  ghost predicate Generated(done: seq<Value>, out: seq<Out>, stopReason: string, usage: Option<Usage>,
                            firstTokenMs: Option<int>, elapsed: nat -> int)
  {
    && out == Opening() + Deltas(done)
    && stopReason == StopReason(done)
    && usage == LastUsage(done)
    && firstTokenMs == match FirstTextDelta(Deltas(done)) case Some(i) => Some(elapsed(i)) case None => None
  }

  /** The log row once the stream was read to its end. */
  function FinalRow(row: StreamLog, values: seq<Value>, elapsed: nat -> int, totalMs: int): StreamLog {
    FinalizeStreamLog(row, match FirstTextDelta(Deltas(values)) case Some(i) => Some(elapsed(i)) case None => None,
                      totalMs, LastUsage(values).GetOr(NO_USAGE))
  }

  lemma {:induction false} DeltasAppend(a: seq<Value>, b: seq<Value>)
    ensures Deltas(a + b) == Deltas(a) + Deltas(b)
  {
    if a == [] {
      assert a + b == b;
    } else {
      assert (a + b)[1..] == a[1..] + b;
      DeltasAppend(a[1..], b);
    }
  }

  lemma DeltasSnoc(done: seq<Value>, v: Value)
    ensures Deltas(done + [v])
         == Deltas(done) + if DeltaContent(v).Some? then [TextDelta(DeltaContent(v).value)] else []
  {
    DeltasAppend(done, [v]);
    assert [v][1..] == [];
  }

  /** Stopping while the values `done` have been turned into events leaves a prefix of the whole output. */
  lemma StoppedEarly(done: seq<Value>, more: seq<Value>, polls: nat)
    requires polls == |Opening() + Deltas(done)|
    ensures Opening() + Deltas(done) == Prefix(Full(done + more), polls)
    ensures polls < |Opening() + Deltas(done + more)| + 1
  {
    DeltasAppend(done, more);
  }

  /** What is still to come: the values of the unread text follow those already handled. */
  ghost predicate Ahead(values: seq<Value>, done: seq<Value>, unread: string, parse: Parse) {
    values == done + ValuesOf(unread, parse)
  }

  lemma TakeLine(values: seq<Value>, done: seq<Value>, buffer: string, rest: string, future: string,
                 line: string, parse: Parse)
    requires FirstBreak(buffer).Some?
    requires line == buffer[..FirstBreak(buffer).value] && rest == buffer[FirstBreak(buffer).value + 1..]
    requires Ahead(values, done, buffer + future, parse)
    ensures match ForwardedValue(line, parse)
            case Some(v) => Ahead(values, done + [v], rest + future, parse)
            case None => Ahead(values, done, rest + future, parse)
  {
    var _, _ := CutBoth(buffer, future);
    ValuesCons(line, Lines(rest + future), Forwarding(parse));
  }

  /** The text still unread: the buffer and the chunks from `next` on. */
  ghost predicate Unread(values: seq<Value>, done: seq<Value>, buffer: string, chunks: seq<Chunk>, next: nat,
                         lossy: Bytes -> string, parse: Parse)
    requires next <= |chunks|
  {
    Ahead(values, done, buffer + TextBeforeError(chunks[next..], lossy), parse)
  }

  lemma UnreadAtFirst(values: seq<Value>, chunks: seq<Chunk>, lossy: Bytes -> string, parse: Parse)
    requires values == ValuesOf(TextBeforeError(chunks, lossy), parse)
    ensures Unread(values, [], "", chunks, 0, lossy, parse)
  {
    assert chunks[0..] == chunks;
    assert "" + TextBeforeError(chunks, lossy) == TextBeforeError(chunks, lossy);
  }

  lemma UnreadChunk(values: seq<Value>, done: seq<Value>, buffer: string, chunks: seq<Chunk>, next: nat,
                    lossy: Bytes -> string, parse: Parse)
    requires next < |chunks| && chunks[next].Data?
    requires Unread(values, done, buffer, chunks, next, lossy, parse)
    ensures Unread(values, done, buffer + lossy(chunks[next].bytes), chunks, next + 1, lossy, parse)
  {
    assert chunks[next..][1..] == chunks[next + 1..];
    var text, more := lossy(chunks[next].bytes), TextBeforeError(chunks[next + 1..], lossy);
    assert buffer + (text + more) == buffer + text + more;
  }

  lemma FirstTextSnoc(deltas: seq<Out>, d: Out)
    ensures FirstTextDelta(deltas + [d])
         == if FirstTextDelta(deltas).Some? then FirstTextDelta(deltas)
            else if d.TextDelta? && d.text != "" then Some(|deltas|) else None
  {
  }

  lemma SummariesSnoc(done: seq<Value>, v: Value)
    ensures StopReason(done + [v])
         == match FinishReason(v)
            case Some(reason) => if reason == "length" then "max_tokens" else "end_turn"
            case None => StopReason(done)
    ensures LastUsage(done + [v]) == Coalesce(UsageFromJson(v), LastUsage(done))
  {
    assert (done + [v])[..|done|] == done;
  }

  lemma FirstTokenSnoc(done: seq<Value>, v: Value)
    ensures FirstTextDelta(Deltas(done + [v]))
         == if FirstTextDelta(Deltas(done)).Some? then FirstTextDelta(Deltas(done))
            else if DeltaContent(v).GetOr("") != "" then Some(|Deltas(done)|) else None
  {
    DeltasSnoc(done, v);
    if DeltaContent(v).Some? {
      FirstTextSnoc(Deltas(done), TextDelta(DeltaContent(v).value));
    } else {
      assert Deltas(done + [v]) == Deltas(done);
    }
  }

  lemma GeneratedNext(done: seq<Value>, v: Value, out: seq<Out>, stopReason: string, usage: Option<Usage>,
                      firstTokenMs: Option<int>, elapsed: nat -> int)
    requires Generated(done, out, stopReason, usage, firstTokenMs, elapsed)
    ensures Generated(
        done + [v],
        out + if DeltaContent(v).Some? then [TextDelta(DeltaContent(v).value)] else [],
        match FinishReason(v)
          case Some(r) => if r == "length" then "max_tokens" else "end_turn"
          case None => stopReason,
        Coalesce(UsageFromJson(v), usage),
        if firstTokenMs.None? && DeltaContent(v).GetOr("") != "" then Some(elapsed(|out| - 2)) else firstTokenMs,
        elapsed)
  {
    DeltasSnoc(done, v);
    SummariesSnoc(done, v);
    FirstTokenSnoc(done, v);
  }

  /**
   The generator: its local variables are the fields. `elapsed(i)` is the clock when delta `i` is made.
   `out` holds the events yielded so far, of which the consumer takes `polls`.
   */
  class Generator {
    const lossy: Bytes -> string
    const parse: Parse
    const elapsed: nat -> int
    const polls: nat
    var out: seq<Out>
    var buffer: string
    var stopReason: string
    var usage: Option<Usage>
    var firstTokenMs: Option<int>
    var row: StreamLog
    ghost var done: seq<Value>

    constructor (lossy: Bytes -> string, parse: Parse, elapsed: nat -> int, polls: nat, row: StreamLog)
      ensures this.lossy == lossy && this.parse == parse && this.elapsed == elapsed && this.polls == polls
      ensures this.row == row && out == []
    {
      this.lossy, this.parse, this.elapsed, this.polls, this.row := lossy, parse, elapsed, polls, row;
      out, buffer, stopReason, usage, firstTokenMs, done := [], "", "end_turn", None, None, [];
    }

    ghost predicate Generating()
      reads this
    {
      Generated(done, out, stopReason, usage, firstTokenMs, elapsed)
    }

    /** What one value does: usage, then a delta if there is content, then the stop reason. */
    method Update(u: Option<Usage>, text: Option<string>, reason: Option<string>)
      requires |out| >= 2
      modifies this`out, this`stopReason, this`usage, this`firstTokenMs
      ensures usage == Coalesce(u, old(usage))
      ensures out == old(out) + if text.Some? then [TextDelta(text.value)] else []
      ensures stopReason == match reason
                            case Some(r) => if r == "length" then "max_tokens" else "end_turn"
                            case None => old(stopReason)
      ensures firstTokenMs == if old(firstTokenMs).None? && text.GetOr("") != "" then Some(elapsed(|old(out)| - 2))
                              else old(firstTokenMs)
    {
      if u.Some? {
        usage := u;
      }
      if text.Some? {
        if firstTokenMs.None? && text.value != "" {
          firstTokenMs := Some(elapsed(|out| - 2));
        }
        out := out + [TextDelta(text.value)];
      }
      if reason.Some? {
        stopReason := if reason.value == "length" then "max_tokens" else "end_turn";
      }
    }

    method Emit(value: Value)
      requires Generating()
      modifies this`out, this`stopReason, this`usage, this`firstTokenMs, this`done
      ensures Generating() && done == old(done) + [value]
      ensures |old(out)| <= |out| <= |old(out)| + 1
    {
      GeneratedNext(done, value, out, stopReason, usage, firstTokenMs, elapsed);
      Update(UsageFromJson(value), DeltaContent(value), FinishReason(value));
      done := done + [value];
    }

    /** The inner loop. It stops early when the consumer has taken its last event. */
    method TakeLines(ghost values: seq<Value>, ghost future: string) returns (stopped: bool)
      requires Generating() && |out| < polls && Ahead(values, done, buffer + future, parse)
      modifies this`out, this`buffer, this`stopReason, this`usage, this`firstTokenMs, this`done
      ensures !stopped ==> Generating() && |out| < polls && Ahead(values, done, buffer + future, parse)
      ensures !stopped ==> FirstBreak(buffer).None?
      ensures stopped ==> out == Prefix(Full(values), polls) && polls <= |Opening() + Deltas(values)|
    {
      while FirstBreak(buffer).Some?
        invariant Generating() && |out| < polls && Ahead(values, done, buffer + future, parse)
        decreases |buffer|
      {
        var pos := FirstBreak(buffer).value;
        var line := buffer[..pos];
        TakeLine(values, done, buffer, buffer[pos + 1..], future, line, parse);
        buffer := buffer[pos + 1..];
        var value := ForwardedValue(line, parse);
        if value.Some? {
          Emit(value.value);
          if |out| == polls {
            StoppedEarly(done, ValuesOf(buffer + future, parse), polls);
            return true;
          }
        }
      }
      return false;
    }

    /**
     The whole generator, polled `polls` times. The log row is finalised only if the consumer polls past
     the last delta; `capture_usage_stream` does it whenever the stream is dropped.
     */
    method StreamResponse(chunks: seq<Chunk>, totalMs: int)
      requires out == []
      modifies this
      ensures var values := ValuesOf(TextBeforeError(chunks, lossy), parse);
              && out == Prefix(Full(values), polls)
              && row == if polls > |Opening() + Deltas(values)| then FinalRow(old(row), values, elapsed, totalMs)
                        else old(row)
    {
      ghost var values := ValuesOf(TextBeforeError(chunks, lossy), parse);
      var stopped := Open(values);
      if stopped {
        return;
      }
      stopped := ReadChunks(values, chunks);
      if stopped {
        return;
      }
      row := FinalizeStreamLog(row, firstTokenMs, totalMs, usage.GetOr(NO_USAGE));
      Close(values);
    }

    /** The outer loop: it ends at the last chunk or at the first one that fails. */
    method ReadChunks(ghost values: seq<Value>, chunks: seq<Chunk>) returns (stopped: bool)
      requires Generating() && |out| < polls && done == [] && buffer == ""
      requires values == ValuesOf(TextBeforeError(chunks, lossy), parse)
      modifies this`out, this`buffer, this`stopReason, this`usage, this`firstTokenMs, this`done
      ensures stopped ==> out == Prefix(Full(values), polls) && polls <= |Opening() + Deltas(values)|
      ensures !stopped ==> Generating() && |out| < polls && done == values
    {
      var next := 0;
      UnreadAtFirst(values, chunks, lossy, parse);
      while next < |chunks| && chunks[next].Data?
        invariant next <= |chunks| && |out| < polls && Generating()
        invariant FirstBreak(buffer).None? && Unread(values, done, buffer, chunks, next, lossy, parse)
      {
        UnreadChunk(values, done, buffer, chunks, next, lossy, parse);
        buffer := buffer + lossy(chunks[next].bytes);
        stopped := TakeLines(values, TextBeforeError(chunks[next + 1..], lossy));
        if stopped {
          return;
        }
        next := next + 1;
      }
      NothingAhead(values, done, buffer, chunks, next, lossy, parse);
      return false;
    }

    /** The opening events, as far as the consumer takes them. */
    method Open(ghost values: seq<Value>) returns (stopped: bool)
      requires out == []
      modifies this
      ensures stopped ==> out == Prefix(Full(values), polls) && polls <= 2
      ensures !stopped ==> Generating() && |out| < polls && done == [] && buffer == ""
      ensures row == old(row)
    {
      if polls == 0 {
        return true;
      }
      out := [MessageStart];
      if |out| == polls {
        return true;
      }
      out := out + [ContentBlockStart];
      if |out| == polls {
        return true;
      }
      buffer, stopReason, usage, firstTokenMs, done := "", "end_turn", None, None, [];
      assert Opening() + [] == out;
      return false;
    }

    /** The closing events, as far as the consumer takes them. */
    method Close(ghost values: seq<Value>)
      requires Generating() && |out| < polls && done == values
      modifies this`out
      ensures out == Prefix(Full(values), polls)
    {
      var closing := [ContentBlockStop, MessageDelta(stopReason), MessageStop];
      var left := polls - |out|;
      out := out + if left < 3 then closing[..left] else closing;
    }
  }

  lemma NothingAhead(values: seq<Value>, done: seq<Value>, buffer: string, chunks: seq<Chunk>, next: nat,
                     lossy: Bytes -> string, parse: Parse)
    requires next <= |chunks| && (next == |chunks| || chunks[next].Broken?) && FirstBreak(buffer).None?
    requires Unread(values, done, buffer, chunks, next, lossy, parse)
    ensures values == done
  {
  }

  /** A chat stream of one chunk of bytes, read to its end. */
  method RewriteChatStream(chunks: seq<ChatChunk>, render: Value -> string, parse: Parse, bytes: Bytes,
                           lossy: Bytes -> string, elapsed: nat -> int, row: StreamLog, totalMs: int)
    returns (out: seq<Out>, left: StreamLog)
    requires forall c :: c in chunks ==> ReadsBack(render, parse, Built(c))
    requires lossy(bytes) == PrintData(BuiltAll(chunks), render)
    ensures DeltaText(out) == ChatContent(chunks) && Run(Begin, out) == Complete
    ensures |out| >= 2 && out[|out| - 2]
         == MessageDelta(if ChatFinish(chunks) == Some("length") then "max_tokens" else "end_turn")
    ensures left.latencyMs == totalMs && (ChatContent(chunks) == "" ==> left.firstTokenMs == row.firstTokenMs)
    ensures var u := LastUsage(BuiltAll(chunks)).GetOr(NO_USAGE);
            && left.usage.prompt == (if u.prompt.Some? then u.prompt else row.usage.prompt)
            && left.usage.completion == (if u.completion.Some? then u.completion else row.usage.completion)
            && left.usage.cached == (if u.cached.Some? then u.cached else row.usage.cached)
            && left.usage.cacheCreation == (if u.cacheCreation.Some? then u.cacheCreation else row.usage.cacheCreation)
  {
    ChatStreamIsRewritten(chunks, render, parse);
    ghost var values := BuiltAll(chunks);
    AlwaysWellFormed(values, 0);
    DeltasAreNoMore(values);
    var generator := new Generator(lossy, parse, elapsed, |chunks| + 6, row);
    generator.StreamResponse([Data(bytes)], totalMs);
    OneChunkOfText(bytes, lossy);
    out, left := generator.out, generator.row;
    NoTextNoFirst(values);
    FinalColumns(row, match FirstTextDelta(Deltas(values)) case Some(i) => Some(elapsed(i)) case None => None, totalMs,
                 LastUsage(values).GetOr(NO_USAGE));
  }

  /** Without text there is no first token. */
  lemma NoTextNoFirst(values: seq<Value>)
    ensures DeltaText(Deltas(values)) == "" ==> FirstTextDelta(Deltas(values)).None?
    ensures DeltaText(Deltas(values)) == DeltaText(Full(values))
  {
    var first := FirstTextDelta(Deltas(values));
    if first.Some? {
      TextHasDelta(Deltas(values), first.value);
    }
    DeltasCarryText(values);
    TextIsConserved(values);
  }

  lemma {:induction false} TextHasDelta(outs: seq<Out>, i: nat)
    requires i < |outs| && outs[i].TextDelta? && outs[i].text != ""
    ensures DeltaText(outs) != ""
  {
    if i > 0 {
      TextHasDelta(outs[1..], i - 1);
    }
  }

  lemma {:induction false} DeltasAreNoMore(values: seq<Value>)
    ensures |Deltas(values)| <= |values|
  {
    if values != [] {
      DeltasAreNoMore(values[1..]);
    }
  }

  lemma OneChunkOfText(bytes: Bytes, lossy: Bytes -> string)
    ensures TextBeforeError([Data(bytes)], lossy) == lossy(bytes)
  {
  }
}
