/** The OpenAI client layer (frontend/src/api/openai.ts): how a request is assembled from
    the builder's options, how streamed text is accumulated, and how streamed tool-call
    fragments are folded into finished tool calls. The network transport is not modelled:
    a streamed response is the sequence of chunks it delivers, and `JSON.parse` is a
    parameter `parse` that answers `None` where the real one throws. */
module OpenAI {
  import opened Wrappers
  import opened Text
  import opened Json
  import opened ToolLibrary

  // ---------------------------------------------------------------------------
  // Requests
  // ---------------------------------------------------------------------------

  datatype Action = Create | Refine

  datatype CreateOptions = CreateOptions(
    model: string,
    systemPrompt: string,
    query: string,
    html: Option<string>,
    image: Option<string>,
    action: Action)

  datatype Part = TextPart(text: string) | ImageUrl(url: string)

  datatype Message = System(content: string) | User(content: string) | UserParts(parts: seq<Part>)

  /** A tool as advertised to the model: its name, its parameter names and the required ones. */
  datatype ToolSpec = ToolSpec(name: string, properties: seq<string>, required: seq<string>)

  /** An optional string is truthy when present and non-empty. */
  predicate Given(s: Option<string>) {
    s.Some? && s.value != []
  }

  // The prompt texts are written in pieces of at most forty characters: the verifier reads a
  // string literal character by character only up to about that length.
  const Frontmatter: string :=
    "\n\nAlways start your response with frontm" +
    "atter wrapped in ---.  Set name: with a " +
    "2 to 5 word description of the component" +
    ". Set emoji: with an emoji for the compo" +
    "nent, i.e.:\n---\nname: Fancy Button\nemoji" +
    ": \U{F0}\U{178}\U{17D}\U{2030}\n---\n\n<button class=\"bg-blue-500 t" +
    "ext-white p-2 rounded-lg\">Click me</butt" +
    "on>\n\n"

  const ToolsGuide: string :=
    "\n\nYou have access to powerful tools that" +
    " can help create better UI components:\n-" +
    " Use 'create_interactive_component' to g" +
    "enerate complex interactive elements\n- U" +
    "se 'html_renderer' to preview and test H" +
    "TML components\n- Use 'generate_sample_da" +
    "ta' to create realistic data for compone" +
    "nts\n- Use 'javascript' to add custom log" +
    "ic and interactivity\n- Use 'create_chart" +
    "' to generate data visualizations\n\nWhen " +
    "creating components, consider using thes" +
    "e tools to enhance functionality and pro" +
    "vide better user experiences."

  const ScreenshotText: string :=
    "This is a screenshot of a web component " +
    "I want to replicate.  Please generate HT" +
    "ML for it.\n "

  const RequirementsText: string :=
    "The following are some special requireme" +
    "nts: \n "

  const FixPrompt: string := "Address the FIX comments."

  /** The model used for a screenshot: any `gpt` model is replaced by the vision model. */
  function VisionModel(model: string): (r: string)
    ensures StartsWith(model, "gpt") ==> r == "gpt-4o"
    ensures !StartsWith(model, "gpt") ==> r == model
  {
    if StartsWith(model, "gpt") then "gpt-4o" else model
  }

  /** The image as sent: an `ollama/` model gets only the text after the data URL's last comma
      (the base64 payload), every other model the whole URL. */
  function ImageFor(model: string, image: string): (r: string)
    ensures StartsWith(model, "ollama/") ==> ',' !in r
    ensures exists pre :: image == pre + r && (pre == [] || pre[|pre| - 1] == ',')
  {
    if StartsWith(model, "ollama/") then
      LastPieceIsTail(image, ',');
      LastPiece(image, ',')
    else
      assert image == [] + image;
      image
  }

  /** `<!--FIX (` at `i`, decimal digits up to `d`, `): ` at `d`, a one-line note up to `e`,
      and `-->` at `e`. */
  predicate FixCommentAt(s: string, i: int, d: int, e: int) {
    OccursAt(s, "<!--FIX (", i) && OccursAt(s, "): ", d) && OccursAt(s, "-->", e) &&
    i + 9 < d && d + 3 < e &&
    (forall k :: i + 9 <= k < d ==> IsDecimalDigit(s[k])) &&
    (forall k :: d + 3 <= k < e ==> LineChar(s[k]))
  }

  /** The annotation test `/<!--FIX (\(\d+\)): (.+)-->/` finds a match in `s`. */
  predicate HasFixComment(s: string) {
    exists i, d, e :: 0 <= i < |s| && 0 <= d < |s| && 0 <= e < |s| && FixCommentAt(s, i, d, e)
  }

  /** An annotation written the way the builder asks for one is detected wherever it sits. */
  lemma FixCommentDetected(before: string, n: nat, note: string, after: string)
    requires note != [] && forall k :: 0 <= k < |note| ==> LineChar(note[k])
    ensures HasFixComment(before + "<!--FIX (" + NatToString(n) + "): " + note + "-->" + after)
  {
    var digits := NatToString(n);
    var s := before + "<!--FIX (" + digits + "): " + note + "-->" + after;
    var i := |before|;
    var d := i + 9 + |digits|;
    var e := d + 3 + |note|;
    assert s[i..i + 9] == "<!--FIX (";
    assert s[d..d + 3] == "): ";
    assert s[e..e + 3] == "-->";
    forall k | i + 9 <= k < d ensures IsDecimalDigit(s[k]) {
      assert s[k] == digits[k - i - 9];
    }
    forall k | d + 3 <= k < e ensures LineChar(s[k]) {
      assert s[k] == note[k - d - 3];
    }
    assert FixCommentAt(s, i, d, e);
  }

  /** Html without the opening marker is never taken for an annotated one. */
  lemma NoMarkerNoFix(s: string)
    requires !Contains(s, "<!--FIX (")
    ensures !HasFixComment(s)
  {
  }

  /** The request of `createOrRefine`: the model and the messages sent with it. */
  method BuildRequest(o: CreateOptions) returns (model: string, messages: seq<Message>)
    ensures |messages| == 2
    ensures messages[0] == System(o.systemPrompt + (if Given(o.html) then "" else Frontmatter))
    ensures model == (if o.action == Create && Given(o.image) then VisionModel(o.model) else o.model)
    ensures o.action == Create && Given(o.image) ==>
      messages[1] == UserParts([
        TextPart(ScreenshotText + (if o.query != "" then RequirementsText + o.query else "")),
        ImageUrl(ImageFor(model, o.image.value))])
    ensures o.action == Create && !Given(o.image) ==> messages[1] == User(o.query)
    ensures o.action == Refine ==>
      messages[1] == User("Given the following HTML:\n\n" + Interpolated(o.html) + "\n\n" +
        (if HasFixComment(Interpolated(o.html)) then FixPrompt else o.query))
  {
    model := o.model;
    var sp := o.systemPrompt;
    if !Given(o.html) {
      sp := sp + Frontmatter;
    }
    messages := [System(sp)];
    if o.action == Create {
      if Given(o.image) {
        if StartsWith(model, "gpt") {
          model := "gpt-4o";
        }
        var imageUrl := o.image.value;
        if StartsWith(model, "ollama/") {
          imageUrl := LastPiece(o.image.value, ',');
        }
        var requirements := if o.query != "" then RequirementsText + o.query else "";
        messages := messages + [UserParts([TextPart(ScreenshotText + requirements), ImageUrl(imageUrl)])];
      } else {
        messages := messages + [User(o.query)];
      }
    } else {
      var html := Interpolated(o.html);
      var userPrompt := if HasFixComment(html) then FixPrompt else o.query;
      messages := messages + [User("Given the following HTML:\n\n" + html + "\n\n" + userPrompt)];
    }
  }

  /** The tools offered to the model when tools are enabled. */
  const OpenAITools: seq<ToolSpec> := [
    ToolSpec("create_interactive_component", ["componentType", "features", "styling"], ["componentType", "features"]),
    ToolSpec("html_renderer", ["html", "css"], ["html"]),
    ToolSpec("generate_sample_data", ["dataType", "count", "fields"], ["dataType", "count"]),
    ToolSpec("javascript", ["code"], ["code"])
  ]

  lemma OpenAIToolsCount()
    ensures |OpenAITools| == 4
  {
  }

  /** Every advertised tool is a registered built-in and requires only parameters it declares;
      the chart tool, although registered, is not advertised. */
  lemma OpenAIToolsAreBuiltins()
    ensures forall t :: t in OpenAITools ==> t.name in DefaultNames
    ensures forall t :: t in OpenAITools ==> forall p :: p in t.required ==> p in t.properties
    ensures forall t :: t in OpenAITools ==> t.name != "create_chart"
  {
  }

  /** The request of `createOrRefineWithTools`: model, messages, and the tools with the
      `tool_choice` setting, attached only when tools are enabled. */
  method BuildToolRequest(o: CreateOptions, enableTools: bool)
    returns (model: string, messages: seq<Message>, tools: seq<ToolSpec>, toolChoice: Option<string>)
    ensures |messages| == 2
    ensures messages[0] == System(o.systemPrompt + (if enableTools then ToolsGuide else "") +
      (if !Given(o.html) then Frontmatter else ""))
    ensures model == (if o.action == Create && Given(o.image) then VisionModel(o.model) else o.model)
    ensures o.action == Create && Given(o.image) ==>
      messages[1] == UserParts([TextPart(o.query), ImageUrl(ImageFor(model, o.image.value))])
    ensures o.action == Create && !Given(o.image) ==> messages[1] == User(o.query)
    ensures o.action == Refine ==>
      messages[1] == User("Here's the current HTML:\n\n" + Interpolated(o.html) + "\n\n" + o.query)
    ensures enableTools ==> tools == OpenAITools && toolChoice == Some("auto")
    ensures !enableTools ==> tools == [] && toolChoice == None
  {
    var convertedTools := if enableTools then OpenAITools else [];
    OpenAIToolsCount();
    model := o.model;
    var guide := if enableTools && |convertedTools| > 0 then ToolsGuide else "";
    var front := if !Given(o.html) then Frontmatter else "";
    messages := [System(o.systemPrompt + guide + front)];
    if o.action == Create {
      if Given(o.image) {
        if StartsWith(model, "gpt") {
          model := "gpt-4o";
        }
        var imageUrl := o.image.value;
        if StartsWith(model, "ollama/") {
          imageUrl := LastPiece(o.image.value, ',');
        }
        messages := messages + [UserParts([TextPart(o.query), ImageUrl(imageUrl)])];
      } else {
        messages := messages + [User(o.query)];
      }
    } else {
      messages := messages + [User("Here's the current HTML:\n\n" + Interpolated(o.html) + "\n\n" + o.query)];
    }
    tools, toolChoice := [], None;
    if enableTools && |convertedTools| > 0 {
      tools, toolChoice := convertedTools, Some("auto");
    }
  }

  // ---------------------------------------------------------------------------
  // `convert`
  // ---------------------------------------------------------------------------

  const Placeholder: string := "$FRAMEWORK"
  const ConvertHead: string := "You're a frontend web developer " + "that specializes in "
  const ConvertMiddle: string := ".\nGiven html and javascript, generate a "
  const ConvertTail: string :=
    " component. Factor the code into " + "smaller\ncomponents if necessary. " +
    "Keep all code in one file. Use hooks " + "and put tailwind class strings\nthat " +
    "are repeated atleast 3 times into a " + "shared constant. Leave comments when " + "necessary."

  /** The conversion system prompt, with its two framework placeholders. */
  const ConvertTemplate: string := ConvertHead + Placeholder + ConvertMiddle + Placeholder + ConvertTail

  /** The messages of `convert`: the template with `replaceAll('$FRAMEWORK', framework)` applied,
      then the html and the conversion request. */
  method BuildConvertRequest(framework: string, html: string) returns (messages: seq<Message>)
    ensures messages == [
      System(ReplaceAll(ConvertTemplate, Placeholder, framework)),
      User("Given the following HTML:\n\n" + html + "\n\n" + ("Please turn this into a " + framework + " component."))]
  {
    var systemPromptCompiled := ReplaceAll(ConvertTemplate, Placeholder, framework);
    messages := [System(systemPromptCompiled)];
    var userPrompt := "Please turn this into a " + framework + " component.";
    messages := messages + [User("Given the following HTML:\n\n" + html + "\n\n" + userPrompt)];
  }

  /** A pattern that starts with `$` cannot occur in text without `$`, not even when the text
      is followed by all of the pattern but its last character. */
  lemma DollarPatternAbsent(a: string, pat: string)
    requires |pat| > 0 && pat[0] == '$' && '$' !in a
    ensures !Contains(a + pat[..|pat| - 1], pat)
    ensures !Contains(a, pat)
  {
  }

  lemma HeadPiece1() ensures '$' !in "You're a frontend web developer " {}
  lemma HeadPiece2() ensures '$' !in "that specializes in " {}
  lemma MiddlePiece() ensures '$' !in ConvertMiddle {}
  lemma TailPiece1() ensures '$' !in " component. Factor the code into " {}
  lemma TailPiece2() ensures '$' !in "smaller\ncomponents if necessary. " {}
  lemma TailPiece3() ensures '$' !in "Keep all code in one file. Use hooks " {}
  lemma TailPiece4() ensures '$' !in "and put tailwind class strings\nthat " {}
  lemma TailPiece5() ensures '$' !in "are repeated atleast 3 times into a " {}
  lemma TailPiece6() ensures '$' !in "shared constant. Leave comments when " {}
  lemma TailPiece7() ensures '$' !in "necessary." {}

  /** The template's only `$` characters are those of its two placeholders. */
  lemma TemplateTextDollarFree()
    ensures '$' !in ConvertHead && '$' !in ConvertMiddle && '$' !in ConvertTail
  {
    HeadPiece1(); HeadPiece2(); MiddlePiece();
    TailPiece1(); TailPiece2(); TailPiece3(); TailPiece4(); TailPiece5(); TailPiece6(); TailPiece7();
  }

  /** Two placeholders in `$`-free text, replaced by a `$`-free name, become that name. */
  lemma TwoPlaceholders(h: string, m: string, t: string, name: string)
    requires '$' !in h && '$' !in m && '$' !in t && '$' !in name
    ensures ReplaceAll(h + Placeholder + m + Placeholder + t, Placeholder, name) == h + name + m + name + t
  {
    DollarPatternAbsent(h, Placeholder);
    DollarPatternAbsent(m, Placeholder);
    DollarPatternAbsent(t, Placeholder);
    assert h + Placeholder + m + Placeholder + t == h + Placeholder + (m + Placeholder + t);
    ReplaceAllFirst(h, m + Placeholder + t, Placeholder, name);
    ReplaceAllFirst(m, t, Placeholder, name);
    ReplaceAllNoOccurrence(t, Placeholder, name);
  }

  /** For a framework name without `$`, every placeholder becomes the name. */
  lemma ConvertSubstitutes(framework: string)
    requires '$' !in framework
    ensures ReplaceAll(ConvertTemplate, Placeholder, framework) ==
      ConvertHead + framework + ConvertMiddle + framework + ConvertTail
  {
    TemplateTextDollarFree();
    TwoPlaceholders(ConvertHead, ConvertMiddle, ConvertTail, framework);
  }

  // ---------------------------------------------------------------------------
  // Streams
  // ---------------------------------------------------------------------------

  datatype FunctionDelta = FunctionDelta(name: Option<string>, arguments: Option<string>)

  /** One entry of `delta.tool_calls`. */
  datatype Fragment = Fragment(index: Option<int>, id: Option<string>, func: Option<FunctionDelta>)

  datatype Delta = Delta(content: Option<string>, toolCalls: Option<seq<Fragment>>)

  datatype Choice = Choice(delta: Option<Delta>, finishReason: Option<string>)

  /** A streamed chunk; only its first choice is read. */
  datatype Chunk = Chunk(choices: seq<Choice>)

  /** `chunk.choices[0]?.delta?.content ?? ''`. */
  function ContentOf(c: Chunk): string {
    if |c.choices| > 0 && c.choices[0].delta.Some? && c.choices[0].delta.value.content.Some? then
      c.choices[0].delta.value.content.value
    else ""
  }

  /** The text loop of `createOrRefine`: each chunk's content, or `''`, goes to the callback and
      onto the markdown. `parts` are the callback's arguments in order (the same ones `convert`
      passes to its callback). */
  method StreamText(chunks: seq<Chunk>) returns (markdown: string, parts: seq<string>)
    ensures |parts| == |chunks|
    ensures forall i :: 0 <= i < |chunks| ==> parts[i] == ContentOf(chunks[i])
    ensures markdown == Concat(parts)
  {
    markdown, parts := "", [];
    var i := 0;
    while i < |chunks|
      invariant 0 <= i <= |chunks|
      invariant |parts| == i
      invariant forall k :: 0 <= k < i ==> parts[k] == ContentOf(chunks[k])
      invariant markdown == Concat(parts)
    {
      var part := ContentOf(chunks[i]);
      markdown := markdown + part;
      parts := parts + [part];
      assert parts[..|parts| - 1] == parts[..i];
      i := i + 1;
    }
  }

  /** The call being assembled: `id` and `name` as the opening fragment gave them. */
  datatype Partial = Partial(id: Option<string>, name: Option<string>, arguments: Args)

  /** A finished call as pushed onto `toolCalls` and handed to `onToolCall`. The push-time
      timestamp is not modelled. */
  datatype Pushed = Pushed(call: ToolCall, status: string)

  /** Everything the tool-call loop accumulates: the markdown, the text callbacks so far, the
      call in progress and the finished calls. */
  datatype StreamState = StreamState(markdown: string, texts: seq<string>, current: Option<Partial>, calls: seq<Pushed>)

  const Start := StreamState("", [], None, [])

  /** The record pushed for a call in progress: status pending, a missing id or name as `''`. */
  function Complete(p: Partial): (r: Pushed)
    ensures r.status == "pending"
    ensures r.call.id == (if p.id.Some? then p.id.value else "")
    ensures r.call.name == (if p.name.Some? then p.name.value else "")
    ensures r.call.arguments == p.arguments
  {
    Pushed(ToolCall(p.id.GetOr(""), p.name.GetOr(""), p.arguments), "pending")
  }

  function PushCurrent(s: StreamState): StreamState {
    if s.current.Some? then s.(calls := s.calls + [Complete(s.current.value)]) else s
  }

  /** `toolCall.function?.name`. */
  function NameOf(f: Fragment): Option<string> {
    if f.func.Some? then f.func.value.name else None
  }

  /** `toolCall.function?.arguments` when truthy. */
  function ArgumentsOf(f: Fragment): Option<string> {
    if f.func.Some? && Given(f.func.value.arguments) then f.func.value.arguments else None
  }

  /** One tool-call fragment: a fragment with an index finishes the call in progress and opens a
      new one; argument text that parses is spread over the open call's arguments. */
  function OnFragment(s: StreamState, f: Fragment, parse: string -> Option<Json>): StreamState {
    var s1 := if f.index.Some? then PushCurrent(s).(current := Some(Partial(f.id, NameOf(f), map[]))) else s;
    if ArgumentsOf(f).Some? && s1.current.Some? && parse(ArgumentsOf(f).value).Some? then
      var cur := s1.current.value;
      s1.(current := Some(cur.(arguments := cur.arguments + Spread(parse(ArgumentsOf(f).value)))))
    else s1
  }

  function OnFragments(s: StreamState, fs: seq<Fragment>, parse: string -> Option<Json>): StreamState {
    if fs == [] then s else OnFragment(OnFragments(s, fs[..|fs| - 1], parse), fs[|fs| - 1], parse)
  }

  /** The content of a chunk when it is truthy. */
  function TextOf(c: Choice): Option<string> {
    if c.delta.Some? && Given(c.delta.value.content) then c.delta.value.content else None
  }

  predicate Finishes(c: Choice) {
    c.finishReason == Some("tool_calls")
  }

  /** One chunk of the tool-enabled stream: text, then fragments, then the finish reason. */
  function OnChunk(s: StreamState, c: Chunk, parse: string -> Option<Json>): StreamState {
    if |c.choices| == 0 then s
    else
      var ch := c.choices[0];
      var s1 := if TextOf(ch).Some? then s.(markdown := s.markdown + TextOf(ch).value, texts := s.texts + [TextOf(ch).value]) else s;
      var s2 := if ch.delta.Some? && ch.delta.value.toolCalls.Some? then OnFragments(s1, ch.delta.value.toolCalls.value, parse) else s1;
      if Finishes(ch) && s2.current.Some? then PushCurrent(s2) else s2
  }

  /** The state after a whole stream. */
  function Run(chunks: seq<Chunk>, parse: string -> Option<Json>): StreamState {
    if chunks == [] then Start else OnChunk(Run(chunks[..|chunks| - 1], parse), chunks[|chunks| - 1], parse)
  }

  /** The fragment loop over one chunk's `delta.tool_calls`. */
  method ConsumeFragments(fs: seq<Fragment>, parse: string -> Option<Json>, listening: bool,
                          ghost markdown: string, ghost texts: seq<string>,
                          current0: Option<Partial>, toolCalls0: seq<Pushed>, notified0: seq<Pushed>)
    returns (current: Option<Partial>, toolCalls: seq<Pushed>, notified: seq<Pushed>)
    requires notified0 == (if listening then toolCalls0 else [])
    ensures StreamState(markdown, texts, current, toolCalls) ==
      OnFragments(StreamState(markdown, texts, current0, toolCalls0), fs, parse)
    ensures notified == (if listening then toolCalls else [])
  {
    ghost var before := StreamState(markdown, texts, current0, toolCalls0);
    current, toolCalls, notified := current0, toolCalls0, notified0;
    var j := 0;
    while j < |fs|
      invariant 0 <= j <= |fs|
      invariant StreamState(markdown, texts, current, toolCalls) == OnFragments(before, fs[..j], parse)
      invariant notified == (if listening then toolCalls else [])
    {
      assert fs[..j + 1][..j] == fs[..j];
      var f := fs[j];
      if f.index.Some? {
        if current.Some? {
          var done := Complete(current.value);
          toolCalls := toolCalls + [done];
          if listening {
            notified := notified + [done];
          }
        }
        current := Some(Partial(f.id, NameOf(f), map[]));
      }
      if f.func.Some? && Given(f.func.value.arguments) && current.Some? {
        var parsed := parse(f.func.value.arguments.value);
        if parsed.Some? {
          current := Some(current.value.(arguments := current.value.arguments + Spread(parsed)));
        }
      }
      j := j + 1;
    }
    assert fs[..|fs|] == fs;
  }

  /** The tool-call loop of `createOrRefineWithTools`. `texts` are the callback's arguments and
      `notified` the `onToolCall` arguments, in order; `listening` says whether `onToolCall`
      was given. */
  method ConsumeToolStream(chunks: seq<Chunk>, parse: string -> Option<Json>, listening: bool)
    returns (toolCalls: seq<Pushed>, response: string, texts: seq<string>, notified: seq<Pushed>)
    ensures toolCalls == Run(chunks, parse).calls
    ensures response == Run(chunks, parse).markdown
    ensures texts == Run(chunks, parse).texts
    ensures notified == (if listening then toolCalls else [])
  {
    var markdown := "";
    var current: Option<Partial> := None;
    toolCalls, texts, notified := [], [], [];
    var i := 0;
    while i < |chunks|
      invariant 0 <= i <= |chunks|
      invariant StreamState(markdown, texts, current, toolCalls) == Run(chunks[..i], parse)
      invariant notified == (if listening then toolCalls else [])
    {
      assert chunks[..i + 1][..i] == chunks[..i];
      var chunk := chunks[i];
      if |chunk.choices| > 0 {
        var choice := chunk.choices[0];
        if choice.delta.Some? && Given(choice.delta.value.content) {
          var part := choice.delta.value.content.value;
          markdown := markdown + part;
          texts := texts + [part];
        }
        if choice.delta.Some? && choice.delta.value.toolCalls.Some? {
          current, toolCalls, notified := ConsumeFragments(choice.delta.value.toolCalls.value, parse,
            listening, markdown, texts, current, toolCalls, notified);
        }
        if choice.finishReason == Some("tool_calls") && current.Some? {
          var done := Complete(current.value);
          toolCalls := toolCalls + [done];
          if listening {
            notified := notified + [done];
          }
        }
      }
      i := i + 1;
    }
    assert chunks[..|chunks|] == chunks;
    response := markdown;
  }
  // ---------------------------------------------------------------------------
  // Properties of the tool-call stream
  // ---------------------------------------------------------------------------

  /** The truthy content pieces of a stream, in order. */
  function ContentPieces(chunks: seq<Chunk>): seq<string> {
    if chunks == [] then []
    else
      var last := chunks[|chunks| - 1];
      ContentPieces(chunks[..|chunks| - 1]) +
        (if |last.choices| > 0 && TextOf(last.choices[0]).Some? then [TextOf(last.choices[0]).value] else [])
  }

  lemma {:induction false} FragmentsKeepText(s: StreamState, fs: seq<Fragment>, parse: string -> Option<Json>)
    ensures OnFragments(s, fs, parse).markdown == s.markdown
    ensures OnFragments(s, fs, parse).texts == s.texts
    decreases |fs|
  {
    if fs != [] {
      FragmentsKeepText(s, fs[..|fs| - 1], parse);
    }
  }

  /** The callback receives exactly the truthy content pieces, and the returned response is
      their concatenation. */
  lemma {:induction false} ResponseIsCallbackText(chunks: seq<Chunk>, parse: string -> Option<Json>)
    ensures Run(chunks, parse).texts == ContentPieces(chunks)
    ensures Run(chunks, parse).markdown == Concat(ContentPieces(chunks))
    decreases |chunks|
  {
    if chunks != [] {
      var front := chunks[..|chunks| - 1];
      ResponseIsCallbackText(front, parse);
      var c := chunks[|chunks| - 1];
      if |c.choices| > 0 {
        var ch := c.choices[0];
        var s := Run(front, parse);
        var s1 := if TextOf(ch).Some? then s.(markdown := s.markdown + TextOf(ch).value, texts := s.texts + [TextOf(ch).value]) else s;
        if ch.delta.Some? && ch.delta.value.toolCalls.Some? {
          FragmentsKeepText(s1, ch.delta.value.toolCalls.value, parse);
        }
        if TextOf(ch).Some? {
          var ps := ContentPieces(chunks);
          assert ps == ContentPieces(front) + [TextOf(ch).value];
          assert ps[..|ps| - 1] == ContentPieces(front);
        }
      }
    }
  }

  predicate AllPending(calls: seq<Pushed>) {
    forall k :: 0 <= k < |calls| ==> calls[k].status == "pending"
  }

  /** The finished calls only grow, at the end, and every call added is pending. */
  predicate Extends(s: StreamState, t: StreamState) {
    |s.calls| <= |t.calls| && t.calls[..|s.calls|] == s.calls &&
    forall k :: |s.calls| <= k < |t.calls| ==> t.calls[k].status == "pending"
  }

  lemma ExtendsTrans(s: StreamState, t: StreamState, u: StreamState)
    requires Extends(s, t) && Extends(t, u)
    ensures Extends(s, u)
  {
    assert u.calls[..|s.calls|] == u.calls[..|t.calls|][..|s.calls|];
  }

  lemma {:induction false} FragmentsExtend(s: StreamState, fs: seq<Fragment>, parse: string -> Option<Json>)
    ensures Extends(s, OnFragments(s, fs, parse))
    decreases |fs|
  {
    if fs != [] {
      var mid := OnFragments(s, fs[..|fs| - 1], parse);
      FragmentsExtend(s, fs[..|fs| - 1], parse);
      var t := OnFragments(s, fs, parse);
      assert Extends(mid, t);
      ExtendsTrans(s, mid, t);
    }
  }

  lemma ChunkExtends(s: StreamState, c: Chunk, parse: string -> Option<Json>)
    ensures Extends(s, OnChunk(s, c, parse))
  {
    if |c.choices| > 0 {
      var ch := c.choices[0];
      var s1 := if TextOf(ch).Some? then s.(markdown := s.markdown + TextOf(ch).value, texts := s.texts + [TextOf(ch).value]) else s;
      var s2 := if ch.delta.Some? && ch.delta.value.toolCalls.Some? then OnFragments(s1, ch.delta.value.toolCalls.value, parse) else s1;
      if ch.delta.Some? && ch.delta.value.toolCalls.Some? {
        FragmentsExtend(s1, ch.delta.value.toolCalls.value, parse);
      }
      assert Extends(s, s2);
      ExtendsTrans(s, s2, OnChunk(s, c, parse));
    }
  }

  /** `toolCalls` is append-only: what was pushed after any prefix of the stream stays, in
      order, at the front of the final list, and every pushed record is pending. */
  lemma {:induction false} CallsAppendOnly(chunks: seq<Chunk>, i: nat, parse: string -> Option<Json>)
    requires i <= |chunks|
    ensures Extends(Run(chunks[..i], parse), Run(chunks, parse))
    decreases |chunks| - i
  {
    if i < |chunks| {
      assert chunks[..i + 1][..i] == chunks[..i];
      ChunkExtends(Run(chunks[..i], parse), chunks[i], parse);
      CallsAppendOnly(chunks, i + 1, parse);
      ExtendsTrans(Run(chunks[..i], parse), Run(chunks[..i + 1], parse), Run(chunks, parse));
    } else {
      assert chunks[..i] == chunks;
    }
  }

  lemma EveryCallPending(chunks: seq<Chunk>, parse: string -> Option<Json>)
    ensures AllPending(Run(chunks, parse).calls)
  {
    CallsAppendOnly(chunks, 0, parse);
  }

  /** A fragment with an index first pushes the call in progress, if any, then opens a new one
      with the fragment's id and name; its arguments are those of the fragment's own text when
      that parses, and empty otherwise. This holds even when the index repeats the open call's. */
  lemma IndexedFragmentOpens(s: StreamState, f: Fragment, parse: string -> Option<Json>)
    requires f.index.Some?
    ensures OnFragment(s, f, parse).calls ==
      s.calls + (if s.current.Some? then [Complete(s.current.value)] else [])
    ensures OnFragment(s, f, parse).current.Some?
    ensures OnFragment(s, f, parse).current.value.id == f.id
    ensures OnFragment(s, f, parse).current.value.name == NameOf(f)
    ensures ArgumentsOf(f).None? || parse(ArgumentsOf(f).value).None? ==>
      OnFragment(s, f, parse).current.value.arguments == map[]
    ensures ArgumentsOf(f).Some? && parse(ArgumentsOf(f).value).Some? ==>
      OnFragment(s, f, parse).current.value.arguments == Spread(parse(ArgumentsOf(f).value))
  {
  }

  /** Argument text is parsed on its own: when it parses, its keys are spread over the open
      call's arguments and win over earlier ones; when it does not, nothing changes. */
  lemma ArgumentsMerge(s: StreamState, f: Fragment, parse: string -> Option<Json>)
    requires f.index.None? && s.current.Some? && ArgumentsOf(f).Some?
    ensures parse(ArgumentsOf(f).value).None? ==> OnFragment(s, f, parse) == s
    ensures parse(ArgumentsOf(f).value).Some? ==>
      var before := s.current.value.arguments;
      var added := Spread(parse(ArgumentsOf(f).value));
      var after := OnFragment(s, f, parse).current.value.arguments;
      OnFragment(s, f, parse).calls == s.calls &&
      (forall k :: k in after <==> k in before || k in added) &&
      (forall k :: k in added ==> after[k] == added[k]) &&
      (forall k :: k in before && k !in added ==> after[k] == before[k])
  {
  }

  /** A chunk that only reports `finish_reason: 'tool_calls'`. */
  const FinishChunk := Chunk([Choice(None, Some("tool_calls"))])

  /** A finish chunk pushes the open call and keeps it open. */
  lemma FinishPushes(s: StreamState, parse: string -> Option<Json>)
    requires s.current.Some?
    ensures OnChunk(s, FinishChunk, parse) == PushCurrent(s)
  {
  }

  /** The finish reason pushes the call in progress without clearing it, so a second finish
      pushes the same call again. */
  lemma FinishKeepsCall(chunks: seq<Chunk>, parse: string -> Option<Json>)
    requires Run(chunks, parse).current.Some?
    ensures Run(chunks + [FinishChunk], parse).current == Run(chunks, parse).current
    ensures Run(chunks + [FinishChunk, FinishChunk], parse).calls ==
      Run(chunks, parse).calls + [Complete(Run(chunks, parse).current.value), Complete(Run(chunks, parse).current.value)]
  {
    var once := chunks + [FinishChunk];
    var twice := chunks + [FinishChunk, FinishChunk];
    assert once[..|once| - 1] == chunks;
    assert twice[..|twice| - 1] == once;
    FinishPushes(Run(chunks, parse), parse);
    FinishPushes(Run(once, parse), parse);
  }

  /** `delta.tool_calls` of a chunk's first choice, or none. */
  function FragmentsOf(c: Chunk): seq<Fragment> {
    if |c.choices| > 0 && c.choices[0].delta.Some? && c.choices[0].delta.value.toolCalls.Some? then
      c.choices[0].delta.value.toolCalls.value
    else []
  }

  /** How many fragments carry an index, i.e. how many calls they open. */
  function Opened(fs: seq<Fragment>): nat {
    if fs == [] then 0 else Opened(fs[..|fs| - 1]) + (if fs[|fs| - 1].index.Some? then 1 else 0)
  }

  function OpenedIn(chunks: seq<Chunk>): nat {
    if chunks == [] then 0 else OpenedIn(chunks[..|chunks| - 1]) + Opened(FragmentsOf(chunks[|chunks| - 1]))
  }

  function OpenCount(s: StreamState): nat {
    if s.current.Some? then 1 else 0
  }

  lemma {:induction false} FragmentsCount(s: StreamState, fs: seq<Fragment>, parse: string -> Option<Json>)
    ensures |OnFragments(s, fs, parse).calls| + OpenCount(OnFragments(s, fs, parse)) ==
      |s.calls| + OpenCount(s) + Opened(fs)
    ensures OnFragments(s, fs, parse).current.Some? <==> s.current.Some? || Opened(fs) > 0
    decreases |fs|
  {
    if fs != [] {
      FragmentsCount(s, fs[..|fs| - 1], parse);
    }
  }

  /** Without a `tool_calls` finish, a stream that opens `n > 0` calls pushes only `n - 1` of
      them: the call still open when the stream ends is dropped. */
  lemma {:induction false} UnfinishedCallDropped(chunks: seq<Chunk>, parse: string -> Option<Json>)
    requires forall k :: 0 <= k < |chunks| && |chunks[k].choices| > 0 ==> !Finishes(chunks[k].choices[0])
    ensures Run(chunks, parse).current.Some? <==> OpenedIn(chunks) > 0
    ensures |Run(chunks, parse).calls| == if OpenedIn(chunks) > 0 then OpenedIn(chunks) - 1 else 0
    decreases |chunks|
  {
    if chunks != [] {
      var front := chunks[..|chunks| - 1];
      var c := chunks[|chunks| - 1];
      UnfinishedCallDropped(front, parse);
      if |c.choices| > 0 {
        var ch := c.choices[0];
        var s := Run(front, parse);
        var s1 := if TextOf(ch).Some? then s.(markdown := s.markdown + TextOf(ch).value, texts := s.texts + [TextOf(ch).value]) else s;
        FragmentsCount(s1, FragmentsOf(c), parse);
      }
    }
  }
  // ---------------------------------------------------------------------------
  // One call streamed in several fragments
  // ---------------------------------------------------------------------------

  /** A chunk carrying one tool-call fragment. */
  function FragmentChunk(f: Fragment): Chunk {
    Chunk([Choice(Some(Delta(None, Some([f]))), None)])
  }

  /** One call streamed as the API streams it: the opening fragment with id and name, then its
      argument text in two pieces, each fragment carrying the call's index, then the finish. */
  function OneCallStream(id: string, name: string, p1: string, p2: string): seq<Chunk> {
    [FragmentChunk(Fragment(Some(0), Some(id), Some(FunctionDelta(Some(name), None)))),
     FragmentChunk(Fragment(Some(0), None, Some(FunctionDelta(None, Some(p1))))),
     FragmentChunk(Fragment(Some(0), None, Some(FunctionDelta(None, Some(p2))))),
     FinishChunk]
  }

  lemma FragmentChunkStep(s: StreamState, f: Fragment, parse: string -> Option<Json>)
    ensures OnChunk(s, FragmentChunk(f), parse) == OnFragment(s, f, parse)
  {
    assert [f][..0] == [];
    assert OnFragments(s, [f], parse) == OnFragment(OnFragments(s, [], parse), f, parse);
    var c := FragmentChunk(f);
    assert c.choices[0].delta.value.toolCalls.value == [f];
    assert TextOf(c.choices[0]).None? && !Finishes(c.choices[0]);
  }

  /** As written, every fragment of the one call opens a call of its own: three records come
      out, two of them without id or name, and the argument text, whose pieces do not parse on
      their own, is lost. */
  lemma OneCallSplitAsWritten(id: string, name: string, p1: string, p2: string, parse: string -> Option<Json>)
    requires p1 != [] && p2 != [] && parse(p1).None? && parse(p2).None?
    ensures Run(OneCallStream(id, name, p1, p2), parse).calls ==
      [Pushed(ToolCall(id, name, map[]), "pending"),
       Pushed(ToolCall("", "", map[]), "pending"),
       Pushed(ToolCall("", "", map[]), "pending")]
  {
    var cs := OneCallStream(id, name, p1, p2);
    var f2 := Fragment(Some(0), None, Some(FunctionDelta(None, Some(p2))));
    var s2 := StreamState("", [], Some(Partial(None, None, map[])), [Pushed(ToolCall(id, name, map[]), "pending")]);
    OneCallSplitFirstTwo(id, name, p1, p2, parse);
    assert cs[..3][..2] == cs[..2] && cs[..4][..3] == cs[..3];
    assert cs[..4] == cs;
    FragmentChunkStep(s2, f2, parse);
    var s3 := s2.(calls := s2.calls + [Pushed(ToolCall("", "", map[]), "pending")]);
    assert Run(cs[..3], parse) == s3;
  }

  /** As written, the first two chunks of the one call leave one record pushed and a nameless
      call open. */
  lemma OneCallSplitFirstTwo(id: string, name: string, p1: string, p2: string, parse: string -> Option<Json>)
    requires p1 != [] && parse(p1).None?
    ensures Run(OneCallStream(id, name, p1, p2)[..2], parse) ==
      StreamState("", [], Some(Partial(None, None, map[])), [Pushed(ToolCall(id, name, map[]), "pending")])
  {
    var cs := OneCallStream(id, name, p1, p2);
    var f0 := Fragment(Some(0), Some(id), Some(FunctionDelta(Some(name), None)));
    var f1 := Fragment(Some(0), None, Some(FunctionDelta(None, Some(p1))));
    assert cs[..1][..0] == [] && cs[..2][..1] == cs[..1];
    FragmentChunkStep(Start, f0, parse);
    var s1 := StreamState("", [], Some(Partial(Some(id), Some(name), map[])), []);
    assert Run(cs[..1], parse) == s1;
    FragmentChunkStep(s1, f1, parse);
  }

  /** A call being assembled: its index, id, name and the argument text received so far. */
  datatype Assembly = Assembly(index: int, id: string, name: string, text: string)

  datatype Assembler = Assembler(current: Option<Assembly>, calls: seq<Pushed>)

  /** The argument text of a fragment, `''` when it has none. */
  function ArgumentText(f: Fragment): string {
    if f.func.Some? && f.func.value.arguments.Some? then f.func.value.arguments.value else ""
  }

  /** A finished call: its argument text is parsed once, as a whole. */
  function Finished(a: Assembly, parse: string -> Option<Json>): (r: Pushed)
    ensures r.status == "pending" && r.call.id == a.id && r.call.name == a.name
    ensures r.call.arguments == Spread(parse(a.text))
  {
    Pushed(ToolCall(a.id, a.name, Spread(parse(a.text))), "pending")
  }

  /** Corrected fragment step: only an index other than the open call's starts a new call;
      fragments of the open call append their text to it. */
  function AssembleFragment(a: Assembler, f: Fragment, parse: string -> Option<Json>): Assembler {
    if f.index.Some? && (a.current.None? || a.current.value.index != f.index.value) then
      Assembler(
        Some(Assembly(f.index.value, f.id.GetOr(""), NameOf(f).GetOr(""), ArgumentText(f))),
        a.calls + (if a.current.Some? then [Finished(a.current.value, parse)] else []))
    else if a.current.Some? then
      a.(current := Some(a.current.value.(text := a.current.value.text + ArgumentText(f))))
    else a
  }

  function AssembleFragments(a: Assembler, fs: seq<Fragment>, parse: string -> Option<Json>): Assembler {
    if fs == [] then a else AssembleFragment(AssembleFragments(a, fs[..|fs| - 1], parse), fs[|fs| - 1], parse)
  }

  /** Corrected chunk step: the finish reason pushes the open call and closes it. */
  function AssembleChunk(a: Assembler, c: Chunk, parse: string -> Option<Json>): Assembler {
    var a1 := AssembleFragments(a, FragmentsOf(c), parse);
    if |c.choices| > 0 && Finishes(c.choices[0]) && a1.current.Some? then
      Assembler(None, a1.calls + [Finished(a1.current.value, parse)])
    else a1
  }

  function Assemble(chunks: seq<Chunk>, parse: string -> Option<Json>): Assembler {
    if chunks == [] then Assembler(None, [])
    else AssembleChunk(Assemble(chunks[..|chunks| - 1], parse), chunks[|chunks| - 1], parse)
  }

  /** The argument texts of a run of fragments, one after another. */
  function ArgumentTexts(fs: seq<Fragment>): string {
    if fs == [] then [] else ArgumentTexts(fs[..|fs| - 1]) + ArgumentText(fs[|fs| - 1])
  }

  /** One fragment of the open call appends its text to it. */
  lemma FragmentOfOpenCall(a: Assembler, f: Fragment, parse: string -> Option<Json>)
    requires a.current.Some? && (f.index.None? || f.index == Some(a.current.value.index))
    ensures AssembleFragment(a, f, parse) ==
      a.(current := Some(a.current.value.(text := a.current.value.text + ArgumentText(f))))
  {
  }

  /** Fragments that belong to the open call (same index, or none) push nothing and extend its
      argument text by theirs, in order. */
  lemma {:induction false} FragmentsOfOpenCall(a: Assembler, fs: seq<Fragment>, parse: string -> Option<Json>)
    requires a.current.Some?
    requires forall k :: 0 <= k < |fs| ==> fs[k].index.None? || fs[k].index == Some(a.current.value.index)
    ensures AssembleFragments(a, fs, parse) ==
      a.(current := Some(a.current.value.(text := a.current.value.text + ArgumentTexts(fs))))
    decreases |fs|
  {
    var open := a.current.value;
    if fs == [] {
      assert open.text + [] == open.text;
    } else {
      var front := fs[..|fs| - 1];
      var last := fs[|fs| - 1];
      assert forall k :: 0 <= k < |front| ==> front[k] == fs[k];
      FragmentsOfOpenCall(a, front, parse);
      var mid := a.(current := Some(open.(text := open.text + ArgumentTexts(front))));
      assert AssembleFragments(a, front, parse) == mid;
      assert AssembleFragments(a, fs, parse) == AssembleFragment(mid, last, parse);
      FragmentOfOpenCall(mid, last, parse);
      assert ArgumentTexts(fs) == ArgumentTexts(front) + ArgumentText(last);
      assert open.text + ArgumentTexts(fs) == (open.text + ArgumentTexts(front)) + ArgumentText(last);
    }
  }

  lemma FragmentChunkAssembles(a: Assembler, f: Fragment, parse: string -> Option<Json>)
    ensures AssembleChunk(a, FragmentChunk(f), parse) == AssembleFragment(a, f, parse)
  {
    assert [f][..0] == [];
    assert AssembleFragments(a, [f], parse) == AssembleFragment(AssembleFragments(a, [], parse), f, parse);
    var c := FragmentChunk(f);
    assert FragmentsOf(c) == [f];
    assert !Finishes(c.choices[0]);
  }

  lemma ContinuationAppends(calls: seq<Pushed>, i: int, id: string, name: string, t: string, piece: string,
                            parse: string -> Option<Json>)
    ensures AssembleChunk(Assembler(Some(Assembly(i, id, name, t)), calls),
                          FragmentChunk(Fragment(Some(i), None, Some(FunctionDelta(None, Some(piece))))), parse) ==
      Assembler(Some(Assembly(i, id, name, t + piece)), calls)
  {
    FragmentChunkAssembles(Assembler(Some(Assembly(i, id, name, t)), calls),
      Fragment(Some(i), None, Some(FunctionDelta(None, Some(piece)))), parse);
  }

  lemma FinishCloses(a: Assembly, parse: string -> Option<Json>)
    ensures AssembleChunk(Assembler(Some(a), []), FinishChunk, parse) == Assembler(None, [Finished(a, parse)])
  {
    assert FragmentsOf(FinishChunk) == [];
  }

  /** The assembler after `k` chunks is the one after `k - 1` chunks fed the `k`-th. */
  lemma AssemblePrefix(chunks: seq<Chunk>, k: nat, parse: string -> Option<Json>)
    requires 0 < k <= |chunks|
    ensures Assemble(chunks[..k], parse) == AssembleChunk(Assemble(chunks[..k - 1], parse), chunks[k - 1], parse)
  {
    assert chunks[..k][..k - 1] == chunks[..k - 1];
  }

  /** Corrected: the opening fragment opens the one call with no argument text yet. */
  lemma OneCallOpened(id: string, name: string, p1: string, p2: string, parse: string -> Option<Json>)
    ensures Assemble(OneCallStream(id, name, p1, p2)[..1], parse) == Assembler(Some(Assembly(0, id, name, "")), [])
  {
    var cs := OneCallStream(id, name, p1, p2);
    var f0 := Fragment(Some(0), Some(id), Some(FunctionDelta(Some(name), None)));
    AssemblePrefix(cs, 1, parse);
    assert cs[..0] == [] && cs[0] == FragmentChunk(f0);
    FragmentChunkAssembles(Assembler(None, []), f0, parse);
  }

  /** Corrected: the first argument piece becomes the open call's argument text. */
  lemma OneCallFirstPiece(id: string, name: string, p1: string, p2: string, parse: string -> Option<Json>)
    ensures Assemble(OneCallStream(id, name, p1, p2)[..2], parse) == Assembler(Some(Assembly(0, id, name, p1)), [])
  {
    var cs := OneCallStream(id, name, p1, p2);
    OneCallOpened(id, name, p1, p2, parse);
    AssemblePrefix(cs, 2, parse);
    ContinuationAppends([], 0, id, name, "", p1, parse);
    assert "" + p1 == p1;
  }

  /** Corrected: after the opening fragment and the two argument pieces, the one call is open
      with the joined argument text, and nothing has been pushed. */
  lemma OneCallArguments(id: string, name: string, p1: string, p2: string, parse: string -> Option<Json>)
    ensures Assemble(OneCallStream(id, name, p1, p2)[..3], parse) == Assembler(Some(Assembly(0, id, name, p1 + p2)), [])
  {
    var cs := OneCallStream(id, name, p1, p2);
    OneCallFirstPiece(id, name, p1, p2, parse);
    AssemblePrefix(cs, 3, parse);
    ContinuationAppends([], 0, id, name, p1, p2, parse);
  }

  /** Corrected: the same stream yields the one call, with its id and name and the arguments
      parsed from its whole argument text. */
  lemma OneCallJoinedCorrected(id: string, name: string, p1: string, p2: string, parse: string -> Option<Json>)
    ensures Assemble(OneCallStream(id, name, p1, p2), parse).calls ==
      [Pushed(ToolCall(id, name, Spread(parse(p1 + p2))), "pending")]
  {
    var cs := OneCallStream(id, name, p1, p2);
    OneCallArguments(id, name, p1, p2, parse);
    AssemblePrefix(cs, 4, parse);
    assert cs[..4] == cs && cs[3] == FinishChunk;
    FinishCloses(Assembly(0, id, name, p1 + p2), parse);
  }
}
