/** Token usage reported by an upstream, and how partial reports are combined (src/routes/logs.rs). */
module Usages {
  import opened Wrappers
  import opened Json

  datatype Usage = Usage(
    prompt: Option<int>,
    completion: Option<int>,
    cached: Option<int>,
    cacheCreation: Option<int>)
  {
    function Merge(newer: Usage): Usage {
      Usage(Coalesce(newer.prompt, prompt),
            Coalesce(newer.completion, completion),
            Coalesce(newer.cached, cached),
            Coalesce(newer.cacheCreation, cacheCreation))
    }
  }

  const NO_USAGE := Usage(None, None, None, None)

  function UsageFromJson(value: Value): Option<Usage> {
    var cacheRead := value.IntAt(["usage", "cache_read_input_tokens"]);
    var cacheCreation := value.IntAt(["usage", "cache_creation_input_tokens"]);
    var input := value.IntAt(["usage", "input_tokens"]);
    var anthropicPrompt :=
      if input.Some? then Some(input.value + cacheRead.GetOr(0) + cacheCreation.GetOr(0)) else None;
    var usage := Usage(
      Coalesce(value.IntAt(["usage", "prompt_tokens"]), anthropicPrompt),
      Coalesce(value.IntAt(["usage", "completion_tokens"]), value.IntAt(["usage", "output_tokens"])),
      Coalesce(value.IntAt(["usage", "prompt_tokens_details", "cached_tokens"]),
      Coalesce(value.IntAt(["usage", "input_tokens_details", "cached_tokens"]),
      Coalesce(value.IntAt(["usage", "prompt_cache_hit_tokens"]), cacheRead))),
      cacheCreation);
    if usage != NO_USAGE then Some(usage) else None
  }

  function HasOutputDelta(value: Value): bool {
    || value.StrAt(["choices", "0", "delta", "content"]).GetOr("") != ""
    || value.StrAt(["choices", "0", "delta", "reasoning_content"]).GetOr("") != ""
    || value.StrAt(["choices", "0", "delta", "reasoning"]).GetOr("") != ""
    || value.Pointer(["choices", "0", "delta", "tool_calls"]).Some?
  }

  // ---- reports as upstreams build them --------------------------------------------------------------

  /** A report among whatever else an upstream sends. */
  function Report(rest: map<string, Value>, usage: map<string, Value>): Value {
    Object(rest["usage" := Object(usage)])
  }

  function Details(tokens: int): Value {
    Object(map["cached_tokens" := Integer(tokens)])
  }

  /** A count as a 64-bit integer, or nothing. */
  function I64(n: int): Option<int> {
    if -9223372036854775808 <= n <= 9223372036854775807 then Some(n) else None
  }

  lemma CountAt(rest: map<string, Value>, usage: map<string, Value>, key: string)
    ensures Report(rest, usage).IntAt(["usage", key])
         == if key in usage && usage[key].Integer? then I64(usage[key].n) else None
  {
    var v, inner := Report(rest, usage), Object(usage);
    assert ["usage", key][1..] == [key] && [key][1..] == [];
    assert v.Get("usage") == Some(inner);
    assert v.Pointer(["usage", key]) == inner.Pointer([key]);
    if key in usage {
      assert inner.Get(key) == Some(usage[key]);
      assert inner.Pointer([key]) == usage[key].Pointer([]);
    } else {
      assert inner.Get(key) == None;
    }
  }

  lemma DetailAt(rest: map<string, Value>, usage: map<string, Value>, key: string)
    requires key in usage ==> usage[key].Object?
    ensures Report(rest, usage).IntAt(["usage", key, "cached_tokens"])
         == if key in usage && "cached_tokens" in usage[key].fields && usage[key].fields["cached_tokens"].Integer?
            then I64(usage[key].fields["cached_tokens"].n) else None
  {
    var v, inner := Report(rest, usage), Object(usage);
    var path := ["usage", key, "cached_tokens"];
    assert path[1..] == [key, "cached_tokens"] && path[1..][1..] == ["cached_tokens"];
    assert v.Get("usage") == Some(inner);
    assert v.Pointer(path) == inner.Pointer(path[1..]);
    if key in usage {
      assert inner.Get(key) == Some(usage[key]);
      assert inner.Pointer(path[1..]) == usage[key].Pointer(["cached_tokens"]);
      OneStep(usage[key], "cached_tokens");
    } else {
      assert inner.Get(key) == None;
    }
  }

  lemma OneStep(v: Value, key: string)
    requires v.Object?
    ensures v.Pointer([key]) == v.Get(key)
  {
  }

  function Count(usage: map<string, Value>, key: string): Option<int> {
    if key in usage && usage[key].Integer? then I64(usage[key].n) else None
  }

  function Detail(usage: map<string, Value>, key: string): Option<int>
    requires key in usage ==> usage[key].Object?
  {
    if key in usage then Count(usage[key].fields, "cached_tokens") else None
  }

  /** The counts of a report under the names upstreams use. */
  datatype Counts = Counts(
    promptTokens: Option<int>, inputTokens: Option<int>, completionTokens: Option<int>, outputTokens: Option<int>,
    promptCached: Option<int>, inputCached: Option<int>, cacheHits: Option<int>,
    cacheRead: Option<int>, cacheCreation: Option<int>)

  predicate Holds(usage: map<string, Value>, c: Counts) {
    && ("prompt_tokens_details" in usage ==> usage["prompt_tokens_details"].Object?)
    && ("input_tokens_details" in usage ==> usage["input_tokens_details"].Object?)
    && Count(usage, "prompt_tokens") == c.promptTokens && Count(usage, "input_tokens") == c.inputTokens
    && Count(usage, "completion_tokens") == c.completionTokens && Count(usage, "output_tokens") == c.outputTokens
    && Detail(usage, "prompt_tokens_details") == c.promptCached
    && Detail(usage, "input_tokens_details") == c.inputCached
    && Count(usage, "prompt_cache_hit_tokens") == c.cacheHits
    && Count(usage, "cache_read_input_tokens") == c.cacheRead
    && Count(usage, "cache_creation_input_tokens") == c.cacheCreation
  }

  /** What the lookups of `UsageFromJson` find. */
  predicate Finds(v: Value, c: Counts) {
    && v.IntAt(["usage", "prompt_tokens"]) == c.promptTokens && v.IntAt(["usage", "input_tokens"]) == c.inputTokens
    && v.IntAt(["usage", "completion_tokens"]) == c.completionTokens
    && v.IntAt(["usage", "output_tokens"]) == c.outputTokens
    && v.IntAt(["usage", "prompt_tokens_details", "cached_tokens"]) == c.promptCached
    && v.IntAt(["usage", "input_tokens_details", "cached_tokens"]) == c.inputCached
    && v.IntAt(["usage", "prompt_cache_hit_tokens"]) == c.cacheHits
    && v.IntAt(["usage", "cache_read_input_tokens"]) == c.cacheRead
    && v.IntAt(["usage", "cache_creation_input_tokens"]) == c.cacheCreation
  }

  lemma ReportIsFound(rest: map<string, Value>, usage: map<string, Value>, c: Counts)
    requires Holds(usage, c)
    ensures Finds(Report(rest, usage), c)
  {
    CountAt(rest, usage, "prompt_tokens");
    CountAt(rest, usage, "input_tokens");
    CountAt(rest, usage, "completion_tokens");
    CountAt(rest, usage, "output_tokens");
    CountAt(rest, usage, "prompt_cache_hit_tokens");
    CountAt(rest, usage, "cache_read_input_tokens");
    CountAt(rest, usage, "cache_creation_input_tokens");
    DetailAt(rest, usage, "prompt_tokens_details");
    DetailAt(rest, usage, "input_tokens_details");
  }

  /** The columns made of what was found, `None` when nothing was. */
  function Columns(c: Counts): Usage {
    Usage(if c.promptTokens.Some? then c.promptTokens
          else if c.inputTokens.None? then None
          else Some(c.inputTokens.value + c.cacheRead.GetOr(0) + c.cacheCreation.GetOr(0)),
          if c.completionTokens.Some? then c.completionTokens else c.outputTokens,
          if c.promptCached.Some? then c.promptCached else if c.inputCached.Some? then c.inputCached
          else if c.cacheHits.Some? then c.cacheHits else c.cacheRead,
          c.cacheCreation)
  }

  lemma FoundIsRead(v: Value, c: Counts)
    requires Finds(v, c)
    ensures UsageFromJson(v) == if Columns(c) == NO_USAGE then None else Some(Columns(c))
  {
  }

  /**
   The columns of every report: of several names for one column the first in the order of `Columns` counts, and an
   Anthropic prompt is the whole input, cached or not.
   */
  lemma ReportRead(rest: map<string, Value>, usage: map<string, Value>, c: Counts)
    requires Holds(usage, c)
    ensures UsageFromJson(Report(rest, usage)) == if Columns(c) == NO_USAGE then None else Some(Columns(c))
  {
    ReportIsFound(rest, usage, c);
    FoundIsRead(Report(rest, usage), c);
  }

  /** A chat completion: prompt, completion, and cached tokens among the prompt's details. */
  lemma ChatReport(rest: map<string, Value>, prompt: int, completion: int, cached: int)
    requires I64(prompt).Some? && I64(completion).Some? && I64(cached).Some?
    ensures UsageFromJson(Report(rest, ChatReportFields(prompt, completion, cached)))
         == Some(Usage(Some(prompt), Some(completion), Some(cached), None))
  {
    var usage := ChatReportFields(prompt, completion, cached);
    ChatReportCounts(prompt, completion, cached);
    ReportRead(rest, usage, Counts(Some(prompt), None, Some(completion), None, Some(cached), None, None, None, None));
  }

  function ChatReportFields(prompt: int, completion: int, cached: int): map<string, Value> {
    map["prompt_tokens" := Integer(prompt),
        "completion_tokens" := Integer(completion),
        "prompt_tokens_details" := Details(cached)]
  }

  lemma ChatReportCounts(prompt: int, completion: int, cached: int)
    requires I64(prompt).Some? && I64(completion).Some? && I64(cached).Some?
    ensures Holds(ChatReportFields(prompt, completion, cached),
                  Counts(Some(prompt), None, Some(completion), None, Some(cached), None, None, None, None))
  {
  }

  /** A response object: input, output, and cached tokens among the input's details. */
  lemma ResponseReport(rest: map<string, Value>, input: int, output: int, cached: int)
    requires I64(input).Some? && I64(output).Some? && I64(cached).Some?
    ensures UsageFromJson(Report(rest, ResponseReportFields(input, output, cached)))
         == Some(Usage(Some(input), Some(output), Some(cached), None))
  {
    var usage := ResponseReportFields(input, output, cached);
    ResponseReportCounts(input, output, cached);
    ReportRead(rest, usage, Counts(None, Some(input), None, Some(output), None, Some(cached), None, None, None));
  }

  function ResponseReportFields(input: int, output: int, cached: int): map<string, Value> {
    map["input_tokens" := Integer(input),
        "output_tokens" := Integer(output),
        "input_tokens_details" := Details(cached)]
  }

  lemma ResponseReportCounts(input: int, output: int, cached: int)
    requires I64(input).Some? && I64(output).Some? && I64(cached).Some?
    ensures Holds(ResponseReportFields(input, output, cached),
                  Counts(None, Some(input), None, Some(output), None, Some(cached), None, None, None))
  {
  }

  /** An upstream that counts cache hits next to the prompt. */
  lemma CacheHitReport(rest: map<string, Value>, prompt: int, completion: int, hits: int)
    requires I64(prompt).Some? && I64(completion).Some? && I64(hits).Some?
    ensures UsageFromJson(Report(rest, CacheHitReportFields(prompt, completion, hits)))
         == Some(Usage(Some(prompt), Some(completion), Some(hits), None))
  {
    var usage := CacheHitReportFields(prompt, completion, hits);
    CacheHitReportCounts(prompt, completion, hits);
    ReportRead(rest, usage, Counts(Some(prompt), None, Some(completion), None, None, None, Some(hits), None, None));
  }

  function CacheHitReportFields(prompt: int, completion: int, hits: int): map<string, Value> {
    map["prompt_tokens" := Integer(prompt),
        "completion_tokens" := Integer(completion),
        "prompt_cache_hit_tokens" := Integer(hits)]
  }

  lemma CacheHitReportCounts(prompt: int, completion: int, hits: int)
    requires I64(prompt).Some? && I64(completion).Some? && I64(hits).Some?
    ensures Holds(CacheHitReportFields(prompt, completion, hits),
                  Counts(Some(prompt), None, Some(completion), None, None, None, Some(hits), None, None))
  {
  }

  /** An Anthropic message: uncached input, cache reads and cache writes come apart, and the prompt is their sum. */
  lemma AnthropicReport(rest: map<string, Value>, input: int, output: int, read: int, written: int)
    requires I64(input).Some? && I64(output).Some? && I64(read).Some? && I64(written).Some?
    ensures UsageFromJson(Report(rest, AnthropicReportFields(input, output, read, written)))
         == Some(Usage(Some(input + read + written), Some(output), Some(read), Some(written)))
  {
    var usage := AnthropicReportFields(input, output, read, written);
    AnthropicReportCounts(input, output, read, written);
    ReportRead(rest, usage, Counts(None, Some(input), None, Some(output), None, None, None, Some(read), Some(written)));
  }

  function AnthropicReportFields(input: int, output: int, read: int, written: int): map<string, Value> {
    map["input_tokens" := Integer(input),
        "output_tokens" := Integer(output),
        "cache_read_input_tokens" := Integer(read),
        "cache_creation_input_tokens" := Integer(written)]
  }

  lemma AnthropicReportCounts(input: int, output: int, read: int, written: int)
    requires I64(input).Some? && I64(output).Some? && I64(read).Some? && I64(written).Some?
    ensures Holds(AnthropicReportFields(input, output, read, written),
                  Counts(None, Some(input), None, Some(output), None, None, None, Some(read), Some(written)))
  {
  }

  // ---- merging reports ----------------------------------------------------------------------------

  /** Left fold of `Merge` over the reports, starting from what is known so far. */
  function MergeAll(soFar: Option<Usage>, reports: seq<Usage>): Option<Usage>
    decreases reports
  {
    if reports == [] then soFar
    else MergeAll(Some(if soFar.Some? then soFar.value.Merge(reports[0]) else reports[0]), reports[1..])
  }

  /** The last reported value of one field. */
  function LastReported(reports: seq<Usage>, field: Usage -> Option<int>): (last: Option<int>)
    ensures last.None? ==> forall i :: 0 <= i < |reports| ==> field(reports[i]).None?
    ensures last.Some? ==> exists i :: 0 <= i < |reports| && field(reports[i]) == last
                                       && forall j :: i < j < |reports| ==> field(reports[j]).None?
  {
    if reports == [] then None
    else Coalesce(LastReported(reports[1..], field), field(reports[0]))
  }

  const PROMPT: Usage -> Option<int> := (u: Usage) => u.prompt
  const COMPLETION: Usage -> Option<int> := (u: Usage) => u.completion
  const CACHED: Usage -> Option<int> := (u: Usage) => u.cached
  const CACHE_CREATION: Usage -> Option<int> := (u: Usage) => u.cacheCreation

  lemma {:induction false} MergeAllFrom(soFar: Option<Usage>, reports: seq<Usage>)
    ensures var was, total := soFar.GetOr(NO_USAGE), MergeAll(soFar, reports).GetOr(NO_USAGE);
            && total.prompt == Coalesce(LastReported(reports, PROMPT), was.prompt)
            && total.completion == Coalesce(LastReported(reports, COMPLETION), was.completion)
            && total.cached == Coalesce(LastReported(reports, CACHED), was.cached)
            && total.cacheCreation == Coalesce(LastReported(reports, CACHE_CREATION), was.cacheCreation)
    decreases reports
  {
    if reports != [] {
      MergeAllFrom(Some(if soFar.Some? then soFar.value.Merge(reports[0]) else reports[0]), reports[1..]);
    }
  }

  /** Merging keeps, field by field and whatever the split of the reports, the value reported last. */
  lemma MergeKeepsLastReported(reports: seq<Usage>)
    ensures MergeAll(None, reports).None? <==> reports == []
    ensures MergeAll(None, reports).GetOr(NO_USAGE)
         == Usage(LastReported(reports, PROMPT), LastReported(reports, COMPLETION),
                  LastReported(reports, CACHED), LastReported(reports, CACHE_CREATION))
  {
    MergeAllFrom(None, reports);
    if reports != [] {
      MergeAllIsSome(reports[0], reports[1..]);
    }
  }

  lemma {:induction false} MergeAllIsSome(u: Usage, reports: seq<Usage>)
    ensures MergeAll(Some(u), reports).Some?
    decreases reports
  {
    if reports != [] {
      MergeAllIsSome(u.Merge(reports[0]), reports[1..]);
    }
  }
}
