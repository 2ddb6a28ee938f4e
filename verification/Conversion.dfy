/** Anthropic requests rewritten for OpenAI (`content_text`, `to_openai_request` of src/routes/messages.rs). */
module Conversion {
  import opened Wrappers
  import opened Json
  import opened Text

  // ---- text of nested content ---------------------------------------------------------------------

  function BlockType(block: Value): Option<string> {
    if block.Get("type").Some? then block.Get("type").value.AsStr() else None
  }

  /** `content_text`. */
  function ContentText(value: Value): string
    decreases value, 1
  {
    match value
    case Str(text) => text
    case Array(_) => JoinLines(BlockTexts(value, 0))
    case _ => ""
  }

  /** The texts of the blocks from the `i`th on, for those that have one. */
  function BlockTexts(whole: Value, i: nat): seq<string>
    requires whole.Array? && i <= |whole.items|
    decreases whole, 0, |whole.items| - i
  {
    if i == |whole.items| then []
    else
      var block := whole.items[i];
      var more := BlockTexts(whole, i + 1);
      if BlockType(block) == Some("text") then
        if block.Get("text").Some? && block.Get("text").value.Str? then [block.Get("text").value.text] + more
        else more
      else if BlockType(block) == Some("tool_result") then
        (if block.Get("content").Some? then [ContentText(block.Get("content").value)] else [""]) + more
      else more
  }

  /** The texts at the leaves, in order; a tool result without any counts as one empty leaf. */
  function Leaves(value: Value): seq<string>
    decreases value, 1
  {
    match value
    case Str(text) => [text]
    case Array(_) => BlockLeaves(value, 0)
    case _ => []
  }

  function OrEmpty(leaves: seq<string>): seq<string> {
    if leaves == [] then [""] else leaves
  }

  function BlockLeaves(whole: Value, i: nat): seq<string>
    requires whole.Array? && i <= |whole.items|
    decreases whole, 0, |whole.items| - i
  {
    if i == |whole.items| then []
    else
      var block := whole.items[i];
      var more := BlockLeaves(whole, i + 1);
      if BlockType(block) == Some("text") then
        if block.Get("text").Some? && block.Get("text").value.Str? then [block.Get("text").value.text] + more
        else more
      else if BlockType(block) == Some("tool_result") then
        (if block.Get("content").Some? then OrEmpty(Leaves(block.Get("content").value)) else [""]) + more
      else more
  }

  /** Joining a group and then the rest is joining all. */
  lemma JoinGroup(group: seq<string>, texts: seq<string>, leaves: seq<string>)
    requires group != [] && (texts == [] <==> leaves == [])
    requires JoinLines(texts) == JoinLines(leaves)
    ensures JoinLines([JoinLines(group)] + texts) == JoinLines(group + leaves)
  {
    if leaves == [] {
      assert group + leaves == group;
      assert [JoinLines(group)] + texts == [JoinLines(group)];
    } else {
      JoinLinesAppend(group, leaves);
      JoinLinesCons(JoinLines(group), texts);
    }
  }

  lemma {:induction false} BlocksJoinLeaves(whole: Value, i: nat)
    requires whole.Array? && i <= |whole.items|
    ensures JoinLines(BlockTexts(whole, i)) == JoinLines(BlockLeaves(whole, i))
    ensures BlockTexts(whole, i) == [] <==> BlockLeaves(whole, i) == []
    decreases whole, 0, |whole.items| - i
  {
    if i < |whole.items| {
      var block := whole.items[i];
      BlocksJoinLeaves(whole, i + 1);
      var texts, leaves := BlockTexts(whole, i + 1), BlockLeaves(whole, i + 1);
      if BlockType(block) == Some("text") {
        if block.Get("text").Some? && block.Get("text").value.Str? {
          JoinGroup([block.Get("text").value.text], texts, leaves);
        }
      } else if BlockType(block) == Some("tool_result") {
        if block.Get("content").Some? {
          var content := block.Get("content").value;
          TextIsJoinedLeaves(content);
          JoinGroup(OrEmpty(Leaves(content)), texts, leaves);
        } else {
          JoinGroup([""], texts, leaves);
        }
      }
    }
  }

  /** However deeply content is nested, its text is its leaf texts joined by line breaks. */
  lemma {:induction false} TextIsJoinedLeaves(value: Value)
    ensures ContentText(value) == JoinLines(Leaves(value))
    decreases value, 1
  {
    if value.Array? {
      BlocksJoinLeaves(value, 0);
    }
  }

  // ---- content as clients build it ------------------------------------------------------------------

  /** Blocks of an Anthropic message: text, tool results with nested, plain or no content, and everything else. */
  datatype Block =
    | TextBlock(text: string)
    | ToolBlocks(inner: seq<Block>)
    | ToolText(text: string)
    | ToolEmpty
    | OtherBlock(kind: string)

  function Built(b: Block): Value {
    match b
    case TextBlock(text) => Object(map["type" := Str("text"), "text" := Str(text)])
    case ToolBlocks(inner) => Object(map["type" := Str("tool_result"), "content" := Array(BuiltAll(inner))])
    case ToolText(text) => Object(map["type" := Str("tool_result"), "content" := Str(text)])
    case ToolEmpty => Object(map["type" := Str("tool_result")])
    case OtherBlock(kind) => Object(map["type" := Str(kind)])
  }

  function BuiltAll(blocks: seq<Block>): (built: seq<Value>)
    ensures |built| == |blocks| && forall i :: 0 <= i < |blocks| ==> built[i] == Built(blocks[i])
  {
    if blocks == [] then [] else [Built(blocks[0])] + BuiltAll(blocks[1..])
  }

  /** The texts a reader sees, in order. A tool result without any is an empty line. */
  function Texts(blocks: seq<Block>): seq<string> {
    if blocks == [] then []
    else (match blocks[0]
          case TextBlock(text) => [text]
          case ToolBlocks(inner) => OrEmpty(Texts(inner))
          case ToolText(text) => [text]
          case ToolEmpty => [""]
          case OtherBlock(_) => [])
         + Texts(blocks[1..])
  }

  predicate Proper(blocks: seq<Block>) {
    forall i :: 0 <= i < |blocks| ==>
      match blocks[i]
      case OtherBlock(kind) => kind != "text" && kind != "tool_result"
      case ToolBlocks(inner) => Proper(inner)
      case _ => true
  }

  lemma BlockLookups(b: Block)
    ensures BlockType(Built(b)) == Some(match b case TextBlock(_) => "text" case OtherBlock(kind) => kind
                                                case _ => "tool_result")
    ensures b.TextBlock? ==> Built(b).Get("text") == Some(Str(b.text))
    ensures b.ToolBlocks? ==> Built(b).Get("content") == Some(Array(BuiltAll(b.inner)))
    ensures b.ToolText? ==> Built(b).Get("content") == Some(Str(b.text))
    ensures b.ToolEmpty? ==> Built(b).Get("content") == None
  {
  }

  /** What one block adds to the leaves. */
  function LeavesOf(b: Block): seq<string> {
    match b
    case TextBlock(text) => [text]
    case ToolBlocks(inner) => OrEmpty(BlockLeaves(Array(BuiltAll(inner)), 0))
    case ToolText(text) => [text]
    case ToolEmpty => [""]
    case OtherBlock(_) => []
  }

  lemma LeavesStep(blocks: seq<Block>, i: nat)
    requires i < |blocks| && Proper(blocks)
    ensures BlockLeaves(Array(BuiltAll(blocks)), i)
         == LeavesOf(blocks[i]) + BlockLeaves(Array(BuiltAll(blocks)), i + 1)
  {
    BlockLookups(blocks[i]);
  }

  lemma {:induction false} LeavesOfBlocks(blocks: seq<Block>, i: nat)
    requires i <= |blocks| && Proper(blocks)
    ensures BlockLeaves(Array(BuiltAll(blocks)), i) == Texts(blocks[i..])
    decreases blocks, |blocks| - i
  {
    if i < |blocks| {
      LeavesStep(blocks, i);
      LeavesOfBlocks(blocks, i + 1);
      TextsStep(blocks, i);
      if blocks[i].ToolBlocks? {
        var inner := blocks[i].inner;
        LeavesOfBlocks(inner, 0);
        assert inner[0..] == inner;
      }
    }
  }

  lemma TextsStep(blocks: seq<Block>, i: nat)
    requires i < |blocks|
    ensures Texts(blocks[i..])
         == (match blocks[i]
             case TextBlock(text) => [text]
             case ToolBlocks(inner) => OrEmpty(Texts(inner))
             case ToolText(text) => [text]
             case ToolEmpty => [""]
             case OtherBlock(_) => [])
            + Texts(blocks[i + 1..])
  {
    assert blocks[i..][1..] == blocks[i + 1..];
  }

  /** The text of built content is what a reader sees, line by line. */
  lemma TextOfBlocks(blocks: seq<Block>)
    requires Proper(blocks)
    ensures ContentText(Array(BuiltAll(blocks))) == JoinLines(Texts(blocks))
  {
    LeavesOfBlocks(blocks, 0);
    assert blocks[0..] == blocks;
    TextIsJoinedLeaves(Array(BuiltAll(blocks)));
  }

  /** A message as a client builds it keeps its role, and its text is that of its blocks. */
  lemma FlattenedMessage(rest: map<string, Value>, role: string, blocks: seq<Block>)
    requires Proper(blocks)
    ensures Flattened(Object(rest["role" := Str(role)]["content" := Array(BuiltAll(blocks))]))
         == ChatMessage(role, JoinLines(Texts(blocks)))
  {
    var message := Object(rest["role" := Str(role)]["content" := Array(BuiltAll(blocks))]);
    assert message.Get("role") == Some(Str(role));
    assert message.Get("content") == Some(Array(BuiltAll(blocks)));
    LeavesOfBlocks(blocks, 0);
    assert blocks[0..] == blocks;
  }

  /** A message whose content is a plain string keeps it; without a role it counts as the user's. */
  lemma FlattenedText(rest: map<string, Value>, text: string)
    requires "role" !in rest
    ensures Flattened(Object(rest["content" := Str(text)])) == ChatMessage("user", text)
    ensures forall role :: Flattened(Object(rest["role" := Str(role)]["content" := Str(text)])) == ChatMessage(role, text)
  {
  }

  // ---- requests -----------------------------------------------------------------------------------

  datatype ChatMessage = ChatMessage(role: string, content: string)

  datatype Tool = Tool(name: Option<Value>, description: Option<Value>, parameters: Option<Value>)

  datatype OpenAiRequest = OpenAiRequest(
    model: Value, messages: seq<ChatMessage>, stream: Value, maxTokens: Value, includeUsage: bool,
    temperature: Option<Value>, topP: Option<Value>, stop: Option<Value>, tools: Option<seq<Tool>>)

  function StrOr(value: Option<Value>, default: string): string {
    if value.Some? && value.value.Str? then value.value.text else default
  }

  /** One message, its text flattened to the leaves. */
  function Flattened(message: Value): ChatMessage {
    ChatMessage(StrOr(message.Get("role"), "user"),
                if message.Get("content").Some? then JoinLines(Leaves(message.Get("content").value)) else "")
  }

  /** `system` first if it is there, then the conversation. */
  function Preamble(input: Value): seq<ChatMessage> {
    if input.Get("system").Some? then [ChatMessage("system", JoinLines(Leaves(input.Get("system").value)))] else []
  }

  /**
   The conversion keeps the messages, their order and their roles, adds the system prompt in front, and
   asks for usage exactly when the stream flag is true. It fails only for want of a message array.
   */
  method ToOpenAiRequest(input: Value) returns (r: Result<OpenAiRequest, string>)
    ensures r.Success? <==> input.Get("messages").Some? && input.Get("messages").value.Array?
    ensures r.Success? ==>
      var source := input.Get("messages").value.items;
      var out := r.value.messages;
      var n := |Preamble(input)|;
      && n == (if input.Get("system").Some? then 1 else 0)
      && |out| == n + |source| && out[..n] == Preamble(input)
      && forall i :: 0 <= i < |source| ==> out[n + i] == Flattened(source[i])
    ensures r.Success? ==>
      && r.value.model == input.Get("model").GetOr(Null)
      && r.value.stream == input.Get("stream").GetOr(Bool(false))
      && r.value.maxTokens == input.Get("max_tokens").GetOr(Integer(1024))
      && (r.value.includeUsage <==> input.Get("stream") == Some(Bool(true)))
      && r.value.temperature == input.Get("temperature") && r.value.topP == input.Get("top_p")
      && r.value.stop == input.Get("stop_sequences")
    ensures r.Success? ==>
      match input.Get("tools")
      case Some(Array(tools)) =>
        && r.value.tools.Some? && |r.value.tools.value| == |tools|
        && forall i :: 0 <= i < |tools| ==>
             r.value.tools.value[i]
             == Tool(tools[i].Get("name"), tools[i].Get("description"), tools[i].Get("input_schema"))
      case _ => r.value.tools.None?
  {
    var messages: seq<ChatMessage> := [];
    if input.Get("system").Some? {
      TextIsJoinedLeaves(input.Get("system").value);
      messages := messages + [ChatMessage("system", ContentText(input.Get("system").value))];
    }
    if !(input.Get("messages").Some? && input.Get("messages").value.Array?) {
      return Failure("messages is required");
    }
    var source := input.Get("messages").value.items;
    ghost var n := |messages|;
    for i := 0 to |source|
      invariant |messages| == n + i && messages[..n] == Preamble(input)
      invariant forall j :: 0 <= j < i ==> messages[n + j] == Flattened(source[j])
    {
      var content := source[i].Get("content").GetOr(Null);
      TextIsJoinedLeaves(content);
      messages := messages + [ChatMessage(StrOr(source[i].Get("role"), "user"), ContentText(content))];
    }
    var stream := input.Get("stream").GetOr(Bool(false));
    var tools: Option<seq<Tool>> := None;
    if input.Get("tools").Some? && input.Get("tools").value.Array? {
      var items := input.Get("tools").value.items;
      tools := Some(seq(|items|, i requires 0 <= i < |items| =>
        Tool(items[i].Get("name"), items[i].Get("description"), items[i].Get("input_schema"))));
    }
    return Success(OpenAiRequest(
      input.Get("model").GetOr(Null), messages, stream, input.Get("max_tokens").GetOr(Integer(1024)),
      stream == Bool(true), input.Get("temperature"), input.Get("top_p"), input.Get("stop_sequences"), tools));
  }
}
