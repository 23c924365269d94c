/** The pure converters of `GeminiProvider`: chat messages to Gemini
    contents, tool schemas to function declarations, and the token
    estimate. */
module Gemini {

  import opened Wrappers
  import opened Messages
  import opened Tools

  /** `{"role": ..., "parts": [{"text": ...}]}`. */
  datatype Content = Content(role: string, parts: seq<string>)

  /** A `FunctionDeclaration`: name, description and the parameters object. */
  datatype Declaration = Declaration(name: string, description: string, properties: seq<Param>, required: seq<string>)

  /** What one message becomes: system messages and unknown roles are
      skipped, tool results go back as the user's, prefixed, and an empty
      text is dropped. */
  function Converted(m: Message): (c: Option<Content>)
    ensures c.Some? ==> |c.value.parts| == 1 && c.value.parts[0] != ""
    ensures c.Some? ==> m.role in {"assistant", "user", "tool"}
  {
    if m.role == "system" then None
    else if m.role !in {"assistant", "user", "tool"} then None
    else
      var role := if m.role == "assistant" then "model" else "user";
      var text := if m.role == "tool" then "Tool result: " + m.content else m.content;
      if text == "" then None else Some(Content(role, [text]))
  }

  /** The converted messages, in input order. */
  function ConvertedAll(ms: seq<Message>): (cs: seq<Content>)
    ensures |cs| <= |ms|
  {
    if ms == [] then []
    else
      var c := Converted(ms[|ms| - 1]);
      ConvertedAll(ms[..|ms| - 1]) + (if c.Some? then [c.value] else [])
  }

  /** `_convert_messages`, appending in a loop as the source does. */
  method ConvertMessages(messages: seq<Message>) returns (contents: seq<Content>)
    ensures contents == ConvertedAll(messages)
  {
    contents := [];
    for i := 0 to |messages|
      invariant contents == ConvertedAll(messages[..i])
    {
      assert messages[..i + 1][..i] == messages[..i];
      var msg := messages[i];
      if msg.role == "system" {
        continue;
      }
      var role: string;
      var content := msg.content;
      if msg.role == "assistant" {
        role := "model";
      } else if msg.role == "user" {
        role := "user";
      } else if msg.role == "tool" {
        role := "user";
        content := "Tool result: " + content;
      } else {
        continue;
      }
      if content != "" {
        contents := contents + [Content(role, [content])];
      }
    }
    assert messages[..|messages|] == messages;
  }

  /** The role mapping: assistant to "model", user to "user", tool to
      "user" behind the "Tool result: " prefix; empty user and assistant
      messages, system messages and unknown roles vanish, while a tool
      message never does. */
  lemma ConvertedRoles(m: Message)
    ensures m.role == "assistant" ==> Converted(m) == (if m.content == "" then None else Some(Content("model", [m.content])))
    ensures m.role == "user" ==> Converted(m) == (if m.content == "" then None else Some(Content("user", [m.content])))
    ensures m.role == "tool" ==> Converted(m) == Some(Content("user", ["Tool result: " + m.content]))
    ensures m.role !in {"assistant", "user", "tool"} ==> Converted(m) == None
  {
    if m.role == "tool" {
      assert ("Tool result: " + m.content)[0] == 'T';
    }
  }

  /** Conversion works message by message: converting a concatenation
      concatenates the conversions, so the order of the input is kept. */
  lemma {:induction false} ConvertedConcat(a: seq<Message>, b: seq<Message>)
    ensures ConvertedAll(a + b) == ConvertedAll(a) + ConvertedAll(b)
    decreases |b|
  {
    if b == [] {
      assert a + b == a;
    } else {
      var n := |b| - 1;
      assert (a + b)[..|a + b| - 1] == a + b[..n];
      assert (a + b)[|a + b| - 1] == b[n];
      ConvertedConcat(a, b[..n]);
    }
  }

  /** Every converted entry carries one non-empty text part under the role
      "model" or "user". */
  lemma {:induction false} ConvertedShape(ms: seq<Message>)
    ensures forall j :: 0 <= j < |ConvertedAll(ms)| ==>
      |ConvertedAll(ms)[j].parts| == 1 && ConvertedAll(ms)[j].parts[0] != ""
      && ConvertedAll(ms)[j].role in {"model", "user"}
  {
    if ms != [] {
      ConvertedShape(ms[..|ms| - 1]);
    }
  }

  /** The function declaration for one schema, with its parameters. */
  function DeclarationOf(t: ToolSchema): Declaration {
    Declaration(t.fn.name, t.fn.description, t.fn.properties, t.fn.required)
  }

  /** The declarations of the "function" tools, in order. */
  function Declarations(tools: seq<ToolSchema>): (ds: seq<Declaration>)
    ensures |ds| <= |tools|
  {
    if tools == [] then []
    else
      var t := tools[|tools| - 1];
      Declarations(tools[..|tools| - 1]) + (if t.kind == "function" then [DeclarationOf(t)] else [])
  }

  /** `_convert_tools`: `None` when no "function" tool remains. */
  method ConvertTools(tools: seq<ToolSchema>) returns (r: Option<seq<Declaration>>)
    ensures r == (if Declarations(tools) == [] then None else Some(Declarations(tools)))
  {
    var declarations := [];
    for i := 0 to |tools|
      invariant declarations == Declarations(tools[..i])
    {
      assert tools[..i + 1][..i] == tools[..i];
      if tools[i].kind == "function" {
        var func := tools[i].fn;
        declarations := declarations + [Declaration(func.name, func.description, func.properties, func.required)];
      }
    }
    assert tools[..|tools|] == tools;
    r := if declarations != [] then Some(declarations) else None;
  }

  /** `_convert_tools` yields `None` exactly when no tool has type
      "function"; otherwise one declaration per such tool, in order. */
  lemma {:induction false} DeclarationsExact(tools: seq<ToolSchema>)
    ensures Declarations(tools) == [] <==> forall i :: 0 <= i < |tools| ==> tools[i].kind != "function"
    ensures (forall i :: 0 <= i < |tools| ==> tools[i].kind == "function") ==>
      |Declarations(tools)| == |tools| && forall i :: 0 <= i < |tools| ==> Declarations(tools)[i] == DeclarationOf(tools[i])
  {
    if tools != [] {
      var init := tools[..|tools| - 1];
      DeclarationsExact(init);
      assert forall i :: 0 <= i < |init| ==> init[i] == tools[i];
    }
  }

  /** `count_tokens`: about four characters per token, rounded down. */
  function CountTokens(text: string): (n: nat)
    ensures 4 * n <= |text| < 4 * n + 4
  {
    |text| / 4
  }
}
