/** The language-model interface: the chat message and its request form,
    the Claude translation of tool schemas and messages, the folding of a
    reply into the common completion shape, the default configurations and
    the provider factory's cache. The HTTP clients are not modelled: what a
    model answers is an input. */
module LlmProvider {
  import opened Util
  import opened JsonText

  // ----------------------------------------------------------------- messages

  /** A tool call as the OpenAI API writes it. */
  datatype ToolCall = ToolCall(id: string, callType: string, name: string, arguments: string)

  /** `LLMMessage`. */
  datatype Message = Message(role: string, content: string, name: Option<string>,
                             toolCalls: Option<seq<ToolCall>>, toolCallId: Option<string>)

  /** A message with only a role and content, as most callers build it. */
  function Plain(role: string, content: string): (m: Message)
    ensures m.role == role && m.content == content
    ensures m.name.None? && m.toolCalls.None? && m.toolCallId.None?
  {
    Message(role, content, None, None, None)
  }

  /** A value of the request dictionary. */
  datatype Field = TextField(text: string) | CallsField(calls: seq<ToolCall>)

  /** A request dictionary, keys in insertion order. */
  type ApiDict = seq<(string, Field)>

  predicate HasKey(d: ApiDict, key: string) {
    exists i :: 0 <= i < |d| && d[i].0 == key
  }

  /** `d.get(key)`: the value under the first occurrence of the key. */
  function Lookup(d: ApiDict, key: string): (v: Option<Field>)
    ensures v.Some? <==> HasKey(d, key)
  {
    if |d| == 0 then None
    else if d[0].0 == key then Some(d[0].1)
    else
      var rest := Lookup(d[1..], key);
      assert HasKey(d[1..], key) ==> HasKey(d, key) by {
        if HasKey(d[1..], key) {
          var i :| 0 <= i < |d[1..]| && d[1..][i].0 == key;
          assert d[i + 1].0 == key;
        }
      }
      assert HasKey(d, key) ==> HasKey(d[1..], key) by {
        if HasKey(d, key) {
          var i :| 0 <= i < |d| && d[i].0 == key;
          assert i > 0 && d[1..][i - 1].0 == key;
        }
      }
      rest
  }

  /** The one case in which the content is left out of the request: an
      assistant message that calls tools and says nothing. */
  predicate DropsContent(m: Message) {
    m.role == "assistant" && m.toolCalls.Some? && |m.toolCalls.value| > 0 && m.content == ""
  }

  function OptionalText(key: string, v: Option<string>): ApiDict {
    if v.Some? then [(key, TextField(v.value))] else []
  }

  /** `to_api_dict`: the fields in declaration order, those holding `None`
      left out, and the content dropped as `DropsContent` says. */
  function ToApiDict(m: Message): (d: ApiDict)
    ensures |d| >= 1 && d[0] == ("role", TextField(m.role))
  {
    [("role", TextField(m.role))]
    + (if DropsContent(m) then [] else [("content", TextField(m.content))])
    + OptionalText("name", m.name)
    + (if m.toolCalls.Some? then [("tool_calls", CallsField(m.toolCalls.value))] else [])
    + OptionalText("tool_call_id", m.toolCallId)
  }

  function TextOf(v: Option<Field>): Option<string> {
    if v.Some? && v.value.TextField? then Some(v.value.text) else None
  }

  function CallsOf(v: Option<Field>): Option<seq<ToolCall>> {
    if v.Some? && v.value.CallsField? then Some(v.value.calls) else None
  }

  /** How the request is read back into a message: absent fields are `None`
      and an absent content is empty. */
  function ReadMessage(d: ApiDict): Message {
    Message(TextOf(Lookup(d, "role")).GetOr(""), TextOf(Lookup(d, "content")).GetOr(""),
            TextOf(Lookup(d, "name")), CallsOf(Lookup(d, "tool_calls")), TextOf(Lookup(d, "tool_call_id")))
  }

  /** The request dictionary in its five parts: role, content, name, tool
      calls and tool-call id, each part empty or one entry. */
  lemma ApiDictParts(m: Message)
    ensures ToApiDict(m) == [("role", TextField(m.role))]
      + ((if DropsContent(m) then [] else [("content", TextField(m.content))])
         + (OptionalText("name", m.name)
            + ((if m.toolCalls.Some? then [("tool_calls", CallsField(m.toolCalls.value))] else [])
               + OptionalText("tool_call_id", m.toolCallId))))
  {
  }

  function CallsPart(m: Message): ApiDict {
    if m.toolCalls.Some? then [("tool_calls", CallsField(m.toolCalls.value))] else []
  }

  function ContentPart(m: Message): ApiDict {
    if DropsContent(m) then [] else [("content", TextField(m.content))]
  }

  lemma LookupContent(m: Message)
    ensures Lookup(ToApiDict(m), "content") == if DropsContent(m) then None else Some(TextField(m.content))
  {
    ApiDictParts(m);
    var rest := OptionalText("name", m.name) + (CallsPart(m) + OptionalText("tool_call_id", m.toolCallId));
    LookupAfter([("role", TextField(m.role))], ContentPart(m) + rest, "content");
    if DropsContent(m) {
      LookupAfter(OptionalText("name", m.name), CallsPart(m) + OptionalText("tool_call_id", m.toolCallId), "content");
      LookupAfter(CallsPart(m), OptionalText("tool_call_id", m.toolCallId), "content");
    }
  }

  lemma LookupName(m: Message)
    ensures Lookup(ToApiDict(m), "name") == if m.name.Some? then Some(TextField(m.name.value)) else None
  {
    ApiDictParts(m);
    var tail := CallsPart(m) + OptionalText("tool_call_id", m.toolCallId);
    var head := [("role", TextField(m.role))] + ContentPart(m);
    assert ToApiDict(m) == head + (OptionalText("name", m.name) + tail);
    LookupAfter(head, OptionalText("name", m.name) + tail, "name");
    if m.name.None? {
      LookupAfter(CallsPart(m), OptionalText("tool_call_id", m.toolCallId), "name");
    }
  }

  lemma LookupToolCalls(m: Message)
    ensures Lookup(ToApiDict(m), "tool_calls") == if m.toolCalls.Some? then Some(CallsField(m.toolCalls.value)) else None
  {
    ApiDictParts(m);
    var head := [("role", TextField(m.role))] + ContentPart(m) + OptionalText("name", m.name);
    assert ToApiDict(m) == head + (CallsPart(m) + OptionalText("tool_call_id", m.toolCallId));
    LookupAfter(head, CallsPart(m) + OptionalText("tool_call_id", m.toolCallId), "tool_calls");
  }

  lemma LookupToolCallId(m: Message)
    ensures Lookup(ToApiDict(m), "tool_call_id") == if m.toolCallId.Some? then Some(TextField(m.toolCallId.value)) else None
  {
    ApiDictParts(m);
    var head := [("role", TextField(m.role))] + ContentPart(m) + OptionalText("name", m.name) + CallsPart(m);
    assert ToApiDict(m) == head + OptionalText("tool_call_id", m.toolCallId);
    LookupAfter(head, OptionalText("tool_call_id", m.toolCallId), "tool_call_id");
  }

  /** Where each field of the request dictionary is found. */
  lemma LookupFields(m: Message)
    ensures Lookup(ToApiDict(m), "role") == Some(TextField(m.role))
    ensures Lookup(ToApiDict(m), "content") == if DropsContent(m) then None else Some(TextField(m.content))
    ensures Lookup(ToApiDict(m), "name") == if m.name.Some? then Some(TextField(m.name.value)) else None
    ensures Lookup(ToApiDict(m), "tool_calls") == if m.toolCalls.Some? then Some(CallsField(m.toolCalls.value)) else None
    ensures Lookup(ToApiDict(m), "tool_call_id") == if m.toolCallId.Some? then Some(TextField(m.toolCallId.value)) else None
  {
    LookupContent(m);
    LookupName(m);
    LookupToolCalls(m);
    LookupToolCallId(m);
  }

  /** The request dictionary has a key exactly for each field that is not
      `None`, except for a dropped content. */
  lemma ApiDictKeys(m: Message)
    ensures HasKey(ToApiDict(m), "content") <==> !DropsContent(m)
    ensures HasKey(ToApiDict(m), "name") <==> m.name.Some?
    ensures HasKey(ToApiDict(m), "tool_calls") <==> m.toolCalls.Some?
    ensures HasKey(ToApiDict(m), "tool_call_id") <==> m.toolCallId.Some?
  {
    LookupFields(m);
  }

  /** The request form loses nothing: reading it back gives the message,
      the dropped content being the empty one. */
  lemma ApiDictRoundTrip(m: Message)
    ensures ReadMessage(ToApiDict(m)) == m
  {
    LookupFields(m);
  }

  /** Keys that do not occur in a prefix are looked up in what follows it. */
  lemma {:induction false} LookupAfter(a: ApiDict, b: ApiDict, key: string)
    requires forall i :: 0 <= i < |a| ==> a[i].0 != key
    ensures Lookup(a + b, key) == Lookup(b, key)
    decreases |a|
  {
    if |a| > 0 {
      assert (a + b)[1..] == a[1..] + b;
      LookupAfter(a[1..], b, key);
    } else {
      assert a + b == b;
    }
  }

  // -------------------------------------------------------------------- tools

  /** The `function` member of an OpenAI tool definition; the schema is kept
      as its JSON text. */
  datatype FunctionSpec = FunctionSpec(name: string, description: Option<string>, parameters: Option<string>)

  datatype ToolSpec = ToolSpec(toolType: Option<string>, spec: FunctionSpec)

  datatype ClaudeTool = ClaudeTool(name: string, description: string, inputSchema: string)

  /** The schema a function without parameters gets: an object with no
      properties. */
  const EmptyObjectSchema: string := "{\"type\": \"object\", \"properties\": {}}"

  predicate IsFunctionTool(t: ToolSpec) {
    t.toolType == Some("function")
  }

  /** One tool in Claude's form: the name, the description or "", and the
      parameters schema or the empty object schema. */
  function ConvertTool(t: ToolSpec): (c: ClaudeTool)
    ensures c.name == t.spec.name
    ensures t.spec.description.None? ==> c.description == ""
    ensures t.spec.description.Some? ==> c.description == t.spec.description.value
    ensures t.spec.parameters.None? ==> c.inputSchema == EmptyObjectSchema
    ensures t.spec.parameters.Some? ==> c.inputSchema == t.spec.parameters.value
  {
    ClaudeTool(t.spec.name, t.spec.description.GetOr(""), t.spec.parameters.GetOr(EmptyObjectSchema))
  }

  /** `_convert_tools`. */
  function ConvertTools(tools: seq<ToolSpec>): (r: seq<ClaudeTool>)
    ensures |r| <= |tools|
  {
    if |tools| == 0 then []
    else (if IsFunctionTool(tools[0]) then [ConvertTool(tools[0])] else []) + ConvertTools(tools[1..])
  }

  /** The converted list is the function tools, in order, each converted:
      every other tool type is skipped. */
  lemma {:induction false} ConvertToolsKeepsFunctions(tools: seq<ToolSpec>)
    ensures |ConvertTools(tools)| == |Filter(tools, IsFunctionTool)|
    ensures forall i :: 0 <= i < |ConvertTools(tools)| ==>
              ConvertTools(tools)[i] == ConvertTool(Filter(tools, IsFunctionTool)[i])
  {
    if |tools| > 0 {
      ConvertToolsKeepsFunctions(tools[1..]);
      FilterCons(tools, IsFunctionTool);
    }
  }

  /** Converting a concatenation converts each part. */
  lemma {:induction false} ConvertToolsConcat(a: seq<ToolSpec>, b: seq<ToolSpec>)
    ensures ConvertTools(a + b) == ConvertTools(a) + ConvertTools(b)
    decreases |a|
  {
    if |a| > 0 {
      assert (a + b)[1..] == a[1..] + b;
      ConvertToolsConcat(a[1..], b);
    } else {
      assert a + b == b;
    }
  }

  // ------------------------------------------------------ Claude chat requests

  /** A Claude chat message: a role and the content, nothing else. */
  datatype ChatEntry = ChatEntry(role: string, content: string)

  datatype ClaudeMessages = ClaudeMessages(system: string, chat: seq<ChatEntry>)

  predicate IsSystem(m: Message) {
    m.role == "system"
  }

  predicate IsChat(m: Message) {
    m.role != "system"
  }

  function EntryOf(m: Message): ChatEntry {
    ChatEntry(m.role, m.content)
  }

  /** The loop that splits the message list: a system message replaces the
      system prompt, any other message is appended as its role and content. */
  function SplitSystem(ms: seq<Message>): (r: ClaudeMessages)
    ensures |r.chat| <= |ms|
    decreases |ms|
  {
    if |ms| == 0 then ClaudeMessages("", [])
    else
      var r := SplitSystem(ms[..|ms| - 1]);
      var m := ms[|ms| - 1];
      if IsSystem(m) then r.(system := m.content) else r.(chat := r.chat + [EntryOf(m)])
  }

  /** The chat list is the non-system messages in order, reduced to role and
      content. */
  lemma {:induction false} SplitSystemChat(ms: seq<Message>)
    ensures |SplitSystem(ms).chat| == |Filter(ms, IsChat)|
    ensures forall i :: 0 <= i < |SplitSystem(ms).chat| ==>
              SplitSystem(ms).chat[i] == EntryOf(Filter(ms, IsChat)[i])
    decreases |ms|
  {
    if |ms| > 0 {
      var init := ms[..|ms| - 1];
      SplitSystemChat(init);
      assert ms == init + [ms[|ms| - 1]];
      FilterConcat(init, [ms[|ms| - 1]], IsChat);
    }
  }

  /** The system prompt is the content of the last system message, and empty
      when there is none. */
  lemma {:induction false} SplitSystemPrompt(ms: seq<Message>)
    ensures (forall i :: 0 <= i < |ms| ==> !IsSystem(ms[i])) ==> SplitSystem(ms).system == ""
    ensures forall i :: 0 <= i < |ms| && IsSystem(ms[i]) && (forall j :: i < j < |ms| ==> !IsSystem(ms[j])) ==>
              SplitSystem(ms).system == ms[i].content
    decreases |ms|
  {
    if |ms| > 0 {
      var init := ms[..|ms| - 1];
      SplitSystemPrompt(init);
      forall i | 0 <= i < |ms| && IsSystem(ms[i]) && (forall j :: i < j < |ms| ==> !IsSystem(ms[j]))
        ensures SplitSystem(ms).system == ms[i].content
      {
        if i < |ms| - 1 {
          assert init[i] == ms[i];
          assert forall j :: i < j < |init| ==> !IsSystem(init[j]) by {
            forall j | i < j < |init| ensures !IsSystem(init[j]) {
              assert init[j] == ms[j];
            }
          }
        }
      }
      if forall i :: 0 <= i < |ms| ==> !IsSystem(ms[i]) {
        assert forall i :: 0 <= i < |init| ==> !IsSystem(init[i]) by {
          forall i | 0 <= i < |init| ensures !IsSystem(init[i]) {
            assert init[i] == ms[i];
          }
        }
      }
    }
  }

  /** The system prompt goes into the request only when it is not empty. */
  function SystemField(r: ClaudeMessages): (s: Option<string>)
    ensures s.Some? <==> r.system != ""
  {
    if r.system != "" then Some(r.system) else None
  }

  /** A tool message keeps its role but loses the id linking it to its
      call, and an assistant message loses its tool calls. */
  lemma ToolLinksLost(ms: seq<Message>, k: nat)
    requires k < |ms| && IsChat(ms[k])
    ensures EntryOf(ms[k]) in SplitSystem(ms).chat
    ensures EntryOf(ms[k]) == EntryOf(ms[k].(toolCalls := None, toolCallId := None))
  {
    SplitSystemChat(ms);
    FilterMembership(ms, IsChat, ms[k]);
    var f := Filter(ms, IsChat);
    var j :| 0 <= j < |f| && f[j] == ms[k];
    assert SplitSystem(ms).chat[j] == EntryOf(ms[k]);
  }

  // ----------------------------------------------------------------- replies

  /** The common result of `chat_complete`. */
  datatype Completion = Completion(content: string, toolCalls: Option<seq<ToolCall>>, finishReason: string)

  /** Tool calls are reported only when there is at least one. */
  predicate WellShaped(c: Completion) {
    c.toolCalls.Some? ==> |c.toolCalls.value| > 0
  }

  /** The first choice of an OpenAI reply. */
  datatype OpenAIChoice = OpenAIChoice(content: Option<string>, toolCalls: seq<ToolCall>, finishReason: string)

  /** OpenAI `chat_complete`: an empty choice list is reported as an empty
      reply finishing with "error"; otherwise the first choice's content,
      or "", and its tool calls when there are any. */
  function OpenAIComplete(choices: seq<OpenAIChoice>): (r: Completion)
    ensures WellShaped(r)
    ensures |choices| == 0 ==> r == Completion("", None, "error")
    ensures |choices| > 0 ==> r.finishReason == choices[0].finishReason
    ensures |choices| > 0 ==> (r.content == "" <==> choices[0].content.None? || choices[0].content.value == "")
    ensures |choices| > 0 ==> (r.toolCalls.Some? <==> |choices[0].toolCalls| > 0)
    ensures |choices| > 0 && r.toolCalls.Some? ==> r.toolCalls.value == choices[0].toolCalls
  {
    if |choices| == 0 then Completion("", None, "error")
    else
      var c := choices[0];
      Completion(c.content.GetOr(""), if |c.toolCalls| > 0 then Some(c.toolCalls) else None, c.finishReason)
  }

  /** A block of a Claude reply; a tool's input is a flat dictionary of
      strings. */
  datatype Block = TextBlock(text: string) | ToolUse(id: string, name: string, input: seq<(string, string)>) | OtherBlock

  predicate IsToolUse(b: Block) {
    b.ToolUse?
  }

  /** How the input dictionary becomes the call's argument text. */
  type ArgumentsText = seq<(string, string)> -> string

  function CallOf(b: Block, render: ArgumentsText): ToolCall
    requires b.ToolUse?
  {
    ToolCall(b.id, "function", b.name, render(b.input))
  }

  /** The loop over the blocks: a text block replaces the content, a tool use
      appends a call, creating the list at the first one. */
  function FoldBlocks(blocks: seq<Block>, stopReason: string, render: ArgumentsText): (r: Completion)
    ensures r.finishReason == stopReason
    decreases |blocks|
  {
    if |blocks| == 0 then Completion("", None, stopReason)
    else
      var r := FoldBlocks(blocks[..|blocks| - 1], stopReason, render);
      var b := blocks[|blocks| - 1];
      match b
      case TextBlock(t) => r.(content := t)
      case ToolUse(_, _, _) => r.(toolCalls := Some(r.toolCalls.GetOr([]) + [CallOf(b, render)]))
      case OtherBlock => r
  }

  /** The calls the tool-use blocks stand for, in order. */
  function CallsFor(uses: seq<Block>, render: ArgumentsText): (cs: seq<ToolCall>)
    requires forall i :: 0 <= i < |uses| ==> uses[i].ToolUse?
    ensures |cs| == |uses|
    ensures forall i :: 0 <= i < |cs| ==> cs[i] == CallOf(uses[i], render)
  {
    seq(|uses|, i requires 0 <= i < |uses| => CallOf(uses[i], render))
  }

  lemma CallsForSnoc(uses: seq<Block>, b: Block, render: ArgumentsText)
    requires forall i :: 0 <= i < |uses| ==> uses[i].ToolUse?
    requires b.ToolUse?
    ensures CallsFor(uses + [b], render) == CallsFor(uses, render) + [CallOf(b, render)]
  {
    assert forall i :: 0 <= i < |uses + [b]| ==> (uses + [b])[i].ToolUse?;
  }

  /** One step of the fold: only a tool use touches the calls. */
  lemma FoldStep(blocks: seq<Block>, stopReason: string, render: ArgumentsText)
    requires |blocks| > 0
    ensures var r0 := FoldBlocks(blocks[..|blocks| - 1], stopReason, render);
      var b := blocks[|blocks| - 1];
      FoldBlocks(blocks, stopReason, render).toolCalls
        == if b.ToolUse? then Some(r0.toolCalls.GetOr([]) + [CallOf(b, render)]) else r0.toolCalls
  {
  }

  /** There is a call list exactly when there is a tool-use block. */
  lemma {:induction false} FoldBlocksHasCalls(blocks: seq<Block>, stopReason: string, render: ArgumentsText)
    ensures FoldBlocks(blocks, stopReason, render).toolCalls.None? <==> |Filter(blocks, IsToolUse)| == 0
    decreases |blocks|
  {
    if |blocks| > 0 {
      var init := blocks[..|blocks| - 1];
      var b := blocks[|blocks| - 1];
      FoldBlocksHasCalls(init, stopReason, render);
      FoldStep(blocks, stopReason, render);
      assert blocks == init + [b];
      FilterConcat(init, [b], IsToolUse);
    }
  }

  /** The calls are the tool-use blocks in order. */
  lemma {:induction false} FoldBlocksCalls(blocks: seq<Block>, stopReason: string, render: ArgumentsText)
    ensures FoldBlocks(blocks, stopReason, render).toolCalls.GetOr([]) == CallsFor(Filter(blocks, IsToolUse), render)
    decreases |blocks|
  {
    if |blocks| > 0 {
      var init := blocks[..|blocks| - 1];
      var b := blocks[|blocks| - 1];
      FoldBlocksCalls(init, stopReason, render);
      FoldStep(blocks, stopReason, render);
      assert blocks == init + [b];
      FilterConcat(init, [b], IsToolUse);
      if b.ToolUse? {
        assert Filter([b], IsToolUse) == [b];
        CallsForSnoc(Filter(init, IsToolUse), b, render);
      } else {
        assert Filter([b], IsToolUse) == [];
        assert Filter(blocks, IsToolUse) == Filter(init, IsToolUse);
      }
    }
  }

  /** Both providers report tool calls only when there is at least one, which
      is what the callers' `if not tool_calls` relies on. */
  lemma FoldBlocksWellShaped(blocks: seq<Block>, stopReason: string, render: ArgumentsText)
    ensures WellShaped(FoldBlocks(blocks, stopReason, render))
  {
    FoldBlocksHasCalls(blocks, stopReason, render);
    FoldBlocksCalls(blocks, stopReason, render);
  }

  /** The content is the text of the last text block, and empty when there
      is none. */
  lemma {:induction false} FoldBlocksContent(blocks: seq<Block>, stopReason: string, render: ArgumentsText)
    ensures (forall i :: 0 <= i < |blocks| ==> !blocks[i].TextBlock?) ==>
              FoldBlocks(blocks, stopReason, render).content == ""
    ensures forall i :: 0 <= i < |blocks| && blocks[i].TextBlock? && (forall j :: i < j < |blocks| ==> !blocks[j].TextBlock?) ==>
              FoldBlocks(blocks, stopReason, render).content == blocks[i].text
    decreases |blocks|
  {
    if |blocks| > 0 {
      var init := blocks[..|blocks| - 1];
      FoldBlocksContent(init, stopReason, render);
      forall i | 0 <= i < |blocks| && blocks[i].TextBlock? && (forall j :: i < j < |blocks| ==> !blocks[j].TextBlock?)
        ensures FoldBlocks(blocks, stopReason, render).content == blocks[i].text
      {
        if i < |blocks| - 1 {
          assert init[i] == blocks[i];
          assert forall j :: i < j < |init| ==> !init[j].TextBlock? by {
            forall j | i < j < |init| ensures !init[j].TextBlock? {
              assert init[j] == blocks[j];
            }
          }
        }
      }
      if forall i :: 0 <= i < |blocks| ==> !blocks[i].TextBlock? {
        assert forall i :: 0 <= i < |init| ==> !init[i].TextBlock? by {
          forall i | 0 <= i < |init| ensures !init[i].TextBlock? {
            assert init[i] == blocks[i];
          }
        }
      }
    }
  }

  // ---------------------------------------------------- Claude argument text

  /** Python's `repr` of a string: single quotes unless the text holds a
      single quote and no double quote; the backslash, the quote in use and
      the line-break characters are escaped. */
  function PyReprString(s: string): (r: string)
    ensures |r| >= 2 && r[0] == r[|r| - 1] && (r[0] == '\'' || r[0] == '"')
    ensures '\'' !in s ==> r[0] == '\''
  {
    var q := if '\'' in s && '"' !in s then '"' else '\'';
    [q] + PyReprBody(s, q) + [q]
  }

  function PyReprBody(s: string, q: char): string {
    if |s| == 0 then ""
    else
      var c := s[0];
      (if c == '\\' then "\\\\"
       else if c == q then ['\\', q]
       else if c == '\n' then "\\n"
       else if c == '\r' then "\\r"
       else if c == '\t' then "\\t"
       else [c])
      + PyReprBody(s[1..], q)
  }

  /** `str(block.input)` for a dictionary of strings: Python's `repr`. */
  function PyDictRepr(items: seq<(string, string)>): (r: string)
    ensures |r| >= 2 && r[0] == '{'
  {
    "{" + Join(seq(|items|, i requires 0 <= i < |items| => PyReprString(items[i].0) + ": " + PyReprString(items[i].1)), ", ")
    + "}"
  }

  predicate JsonSpace(c: char) {
    c == ' ' || c == '\t' || c == '\n' || c == '\r'
  }

  /** The opening of a JSON object text (section 4 of RFC 8259): a brace,
      optional whitespace, then a member name, which is a string and so
      begins with a quotation mark, or the closing brace. */
  predicate JsonObjectOpening(t: string) {
    |t| >= 2 && t[0] == '{' && (t[1] == '"' || t[1] == '}' || JsonSpace(t[1]))
  }

  /** Claude `chat_complete` as written: the arguments are `str` of the
      input. */
  function ClaudeComplete(blocks: seq<Block>, stopReason: string): (r: Completion)
    ensures r == FoldBlocks(blocks, stopReason, PyDictRepr)
  {
    FoldBlocks(blocks, stopReason, PyDictRepr)
  }

  /** Any tool input whose first key holds no single quote is rendered as
      text that is not JSON: the first key is single-quoted. The direct
      agent decodes the arguments as JSON, so such a call fails there. */
  lemma ReprArgumentsAreNotJson(blocks: seq<Block>, stopReason: string, i: nat)
    requires i < |Filter(blocks, IsToolUse)|
    requires var b := Filter(blocks, IsToolUse)[i]; |b.input| > 0 && '\'' !in b.input[0].0
    ensures var r := ClaudeComplete(blocks, stopReason);
      r.toolCalls.Some? && i < |r.toolCalls.value| && !JsonObjectOpening(r.toolCalls.value[i].arguments)
  {
    FoldBlocksHasCalls(blocks, stopReason, PyDictRepr);
    FoldBlocksCalls(blocks, stopReason, PyDictRepr);
    var b := Filter(blocks, IsToolUse)[i];
    var parts := seq(|b.input|, k requires 0 <= k < |b.input| => PyReprString(b.input[k].0) + ": " + PyReprString(b.input[k].1));
    JoinHead(parts, ", ");
    assert PyDictRepr(b.input) == "{" + Join(parts, ", ") + "}";
  }

  /** A join of non-empty parts starts with the first part's first character. */
  lemma JoinHead(parts: seq<string>, sep: string)
    requires |parts| > 0 && |parts[0]| > 0
    ensures |Join(parts, sep)| > 0 && Join(parts, sep)[0] == parts[0][0]
  {
  }

  /** The arguments as evidently intended: `json.dumps(block.input)`. */
  function JsonArguments(items: seq<(string, string)>): string {
    JsonObject(seq(|items|, i requires 0 <= i < |items| => (items[i].0, Str(items[i].1))))
  }

  function ClaudeCompleteFixed(blocks: seq<Block>, stopReason: string): (r: Completion)
    ensures r == FoldBlocks(blocks, stopReason, JsonArguments)
  {
    FoldBlocks(blocks, stopReason, JsonArguments)
  }

  /** With `json.dumps` every call's arguments open a JSON object, and every
      key and value of the input appears in them as a JSON member. */
  lemma JsonArgumentsAreJson(blocks: seq<Block>, stopReason: string, i: nat, k: nat)
    requires i < |Filter(blocks, IsToolUse)|
    requires k < |Filter(blocks, IsToolUse)[i].input|
    ensures var r := ClaudeCompleteFixed(blocks, stopReason);
      var b := Filter(blocks, IsToolUse)[i];
      && r.toolCalls.Some? && i < |r.toolCalls.value|
      && JsonObjectOpening(r.toolCalls.value[i].arguments)
      && Contains(r.toolCalls.value[i].arguments, Member(b.input[k].0, Str(b.input[k].1)))
  {
    FoldBlocksHasCalls(blocks, stopReason, JsonArguments);
    FoldBlocksCalls(blocks, stopReason, JsonArguments);
    var b := Filter(blocks, IsToolUse)[i];
    var ms := seq(|b.input|, j requires 0 <= j < |b.input| => (b.input[j].0, Str(b.input[j].1)));
    ObjectHasMember(ms, k);
    JsonObjectOpens(ms);
  }

  /** `json.dumps` of a dictionary opens with the brace and then the first
      key's quotation mark, or closes at once. */
  lemma JsonObjectOpens(ms: seq<(string, Value)>)
    ensures JsonObjectOpening(JsonObject(ms))
  {
    var texts := Members(ms);
    if |ms| > 0 {
      assert texts[0] == JsonString(ms[0].0) + ": " + ValueText(ms[0].1);
      JoinHead(texts, ", ");
      assert JsonObject(ms)[1] == Join(texts, ", ")[0];
    } else {
      assert JsonObject(ms) == "{}";
    }
  }

  // ---------------------------------------------------------------- factory

  /** `LLMConfig`; the temperature is a decimal. */
  datatype Config = Config(model: string, temperature: real, maxTokens: nat, topP: Option<real>, stream: bool)

  function WithModel(model: string): (c: Config)
    ensures c.model == model && c.temperature == 0.7 && c.maxTokens == 16384 && c.topP.None? && c.stream
  {
    Config(model, 0.7, 16384, None, true)
  }

  /** `get_default_config`: the model from OPENAI_MODEL or CLAUDE_MODEL
      with its default, and "gpt-4o" for any other provider type. */
  function DefaultConfig(env: map<string, string>, providerType: string): (c: Config)
    ensures c == WithModel(c.model)
    ensures providerType == "openai" ==> c.model == (if "OPENAI_MODEL" in env then env["OPENAI_MODEL"] else "gpt-4o")
    ensures providerType == "claude" ==>
              c.model == (if "CLAUDE_MODEL" in env then env["CLAUDE_MODEL"] else "claude-3-opus-20240229")
    ensures providerType != "openai" && providerType != "claude" ==> c.model == "gpt-4o"
  {
    if providerType == "openai" then WithModel(if "OPENAI_MODEL" in env then env["OPENAI_MODEL"] else "gpt-4o")
    else if providerType == "claude" then
      WithModel(if "CLAUDE_MODEL" in env then env["CLAUDE_MODEL"] else "claude-3-opus-20240229")
    else WithModel("gpt-4o")
  }

  datatype ProviderKind = OpenAIKind | ClaudeKind

  function KindOf(providerType: string): Option<ProviderKind> {
    if providerType == "openai" then Some(OpenAIKind)
    else if providerType == "claude" then Some(ClaudeKind)
    else None
  }

  /** A provider object: its kind and the order in which it was created. */
  datatype Provider = Provider(kind: ProviderKind, serial: nat)

  /** The class-level cache and the number of providers created so far. */
  datatype Factory = Factory(providers: map<string, Provider>, created: nat)

  /** What the cache holds: each entry of the provider's own type, created
      earlier, and no two entries sharing an object. */
  predicate Valid(f: Factory) {
    && (forall t :: t in f.providers ==> KindOf(t) == Some(f.providers[t].kind) && f.providers[t].serial < f.created)
    && (forall t, u :: t in f.providers && u in f.providers && t != u ==> f.providers[t] != f.providers[u])
  }

  /** `get_provider`: the cached provider, or a new one for "openai" and
      "claude", and `ValueError` for any other type. */
  function GetProvider(f: Factory, providerType: string): (r: Result<(Factory, Provider), string>)
    requires Valid(f)
    ensures r.Err? <==> KindOf(providerType).None?
    ensures r.Err? ==> r.error == "Unknown provider type: " + providerType
    ensures r.Ok? ==> Valid(r.value.0) && r.value.1.kind == KindOf(providerType).value
    ensures r.Ok? ==> providerType in r.value.0.providers && r.value.0.providers[providerType] == r.value.1
    ensures r.Ok? && providerType in f.providers ==> r.value == (f, f.providers[providerType])
  {
    if providerType in f.providers then Ok((f, f.providers[providerType]))
    else match KindOf(providerType)
      case None => Err("Unknown provider type: " + providerType)
      case Some(k) =>
        var p := Provider(k, f.created);
        Ok((Factory(f.providers[providerType := p], f.created + 1), p))
  }

  /** Asking twice for the same type gives the same provider object and
      leaves the cache as the first call left it. */
  lemma ProviderCached(f: Factory, providerType: string)
    requires Valid(f) && GetProvider(f, providerType).Ok?
    ensures var (g, p) := GetProvider(f, providerType).value;
      GetProvider(g, providerType) == Ok((g, p))
  {
  }

  /** Two types never share a provider object. */
  lemma ProvidersDistinct(f: Factory, a: string, b: string)
    requires Valid(f) && a != b && GetProvider(f, a).Ok?
    requires GetProvider(GetProvider(f, a).value.0, b).Ok?
    ensures GetProvider(GetProvider(f, a).value.0, b).value.1 != GetProvider(f, a).value.1
  {
  }
}
