/** Chat completion chunks as an OpenAI-style upstream builds them, and what the two stream scanners look up in them. */
module ChatChunks {
  import opened Wrappers
  import opened Json
  import opened Usages

  /** The first choice among others, its delta and its finish reason, which is null until the end. */
  datatype ChatChunk = ChatChunk(
    rest: map<string, Value>, delta: map<string, Value>, finish: Option<string>, others: seq<Value>)

  function Choice(c: ChatChunk): map<string, Value> {
    map["delta" := Object(c.delta), "finish_reason" := if c.finish.Some? then Str(c.finish.value) else Null]
  }

  function Built(c: ChatChunk): Value {
    Object(c.rest["choices" := Array([Object(Choice(c))] + c.others)])
  }

  /** The text under a key of the delta. */
  function DeltaField(c: ChatChunk, key: string): Option<string> {
    if key in c.delta && c.delta[key].Str? then Some(c.delta[key].text) else None
  }

  /** From the chunk to a member of its first choice. */
  lemma IntoChoice(c: ChatChunk, path: seq<string>)
    requires path != []
    ensures Built(c).Pointer(["choices", "0"] + path) == Object(Choice(c)).Pointer(path)
  {
    var full := ["choices", "0"] + path;
    var choices := Array([Object(Choice(c))] + c.others);
    assert full[1..] == ["0"] + path && full[1..][1..] == path;
    assert Built(c).Get("choices") == Some(choices);
    assert Built(c).Pointer(full) == choices.Pointer(full[1..]);
    assert choices.items[0] == Object(Choice(c));
    assert choices.Pointer(full[1..]) == Object(Choice(c)).Pointer(path);
  }

  lemma InDelta(c: ChatChunk, key: string)
    ensures Built(c).Pointer(["choices", "0", "delta", key]) == if key in c.delta then Some(c.delta[key]) else None
  {
    var path := ["delta", key];
    IntoChoice(c, path);
    assert ["choices", "0"] + path == ["choices", "0", "delta", key];
    assert path[1..] == [key];
    assert Object(Choice(c)).Get("delta") == Some(Object(c.delta));
    assert Object(Choice(c)).Pointer(path) == Object(c.delta).Pointer([key]);
    OneStep(Object(c.delta), key);
  }

  lemma InFinish(c: ChatChunk)
    ensures Built(c).StrAt(["choices", "0", "finish_reason"]) == c.finish
  {
    var path := ["finish_reason"];
    IntoChoice(c, path);
    assert ["choices", "0"] + path == ["choices", "0", "finish_reason"];
    OneStep(Object(Choice(c)), "finish_reason");
  }

  /** A chunk counts as output when it carries text, reasoning under either name, or tool calls. */
  lemma OutputOfChunk(c: ChatChunk)
    ensures HasOutputDelta(Built(c)) <==>
            || (exists key :: key in {"content", "reasoning_content", "reasoning"}
                              && DeltaField(c, key).Some? && DeltaField(c, key).value != "")
            || "tool_calls" in c.delta
  {
    InDelta(c, "content");
    InDelta(c, "reasoning_content");
    InDelta(c, "reasoning");
    InDelta(c, "tool_calls");
    forall key | key in {"content", "reasoning_content", "reasoning"}
      ensures Built(c).StrAt(["choices", "0", "delta", key]) == DeltaField(c, key)
    {
      InDelta(c, key);
    }
  }
}
