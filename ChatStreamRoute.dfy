/** The server side of the chat stream (app/api/chat/stream/route.ts): the
    `startStream` task that writes `Connected`, runs the agent, translates
    each event of the agent's event stream into stream messages and ends
    with exactly one `Done` or `Error`. The writer is modelled as the
    sequence of messages handed to `sendSSEMessage`; writes are taken to
    succeed. */
module ChatStreamRoute {
  import opened Wrappers
  import opened JsText
  import opened StreamProtocol

  /** `sendSSEMessage`: the bytes written for one message. */
  function SseFrame(m: StreamMessage, stringify: StreamMessage -> string): string {
    SSE_DATA_PREFIX + stringify(m) + SSE_LINE_DELIMITER
  }

  /** Everything written to the response body, in order. */
  function Wire(sent: seq<StreamMessage>, stringify: StreamMessage -> string): string
    decreases |sent|
  {
    if sent == [] then "" else SseFrame(sent[0], stringify) + Wire(sent[1..], stringify)
  }

  // ---------------------------------------------------------------------
  // The shape of the events the route inspects.

  /** A property of a JavaScript object: missing or a falsy non-string
      (`Absent`), a string, or a truthy non-string value together with its
      `String(...)` rendering. */
  datatype Field = Absent | Str(s: string) | Opaque(rendered: string)

  /** An element of a content array. `OtherBlock` is anything that is neither
      a string nor an object with properties (a number, `null`). */
  datatype Block = StringBlock(s: string) | ObjectBlock(text: Field, content: Field) | OtherBlock

  /** A `content` property: missing or falsy non-string (`NoContent`), a
      string, an array of blocks, or some other truthy value. */
  datatype Content = NoContent | TextContent(s: string) | BlockList(blocks: seq<Block>) | OtherContent

  /** One event of the agent's event stream. For a chain-stream event,
      `items` holds the `content` of each element of `data.chunk` when that
      chunk is an array (`NoContent` for a falsy element); for the top-level
      chain-end event, `messages` holds the `content` of each element of
      `data.output.messages` when that is an array. An empty `name` stands
      for a missing one. */
  datatype Event =
    | ChatModelStream(chunk: Content)
    | ChainStream(items: Option<seq<Content>>)
    | ChainEnd(name: string, messages: Option<seq<Content>>)
    | ToolStartEvent(name: string, input: string)
    | ToolEndEvent(outputName: string, output: string)
    | OtherEvent(kind: string)

  predicate FieldTruthy(f: Field) {
    match f
    case Absent => false
    case Str(s) => s != ""
    case Opaque(_) => true
  }

  function FieldText(f: Field): string {
    match f
    case Absent => ""
    case Str(s) => s
    case Opaque(r) => r
  }

  predicate ContentTruthy(c: Content) {
    match c
    case NoContent => false
    case TextContent(s) => s != ""
    case BlockList(_) => true
    case OtherContent => true
  }

  /** `chunk?.content?.[0]?.text`: only an object in first position of a
      content array has one. */
  function FirstBlockText(c: Content): Field {
    if c.BlockList? && |c.blocks| > 0 && c.blocks[0].ObjectBlock? then c.blocks[0].text else Absent
  }

  /** The chain-stream reading of a block: a string block, else a string
      `text`, else a string `content`, else "". */
  function StrictBlockText(b: Block): string {
    match b
    case StringBlock(s) => s
    case ObjectBlock(text, content) =>
      if text.Str? then text.s else if content.Str? then content.s else ""
    case OtherBlock => ""
  }

  /** The chain-end reading of a block: a string block, else a truthy `text`,
      else a truthy `content`, else "" (a truthy non-string is rendered). */
  function LooseBlockText(b: Block): string {
    match b
    case StringBlock(s) => s
    case ObjectBlock(text, content) =>
      if FieldTruthy(text) then FieldText(text) else if FieldTruthy(content) then FieldText(content) else ""
    case OtherBlock => ""
  }

  function JoinStrict(bs: seq<Block>): string {
    if bs == [] then "" else JoinStrict(bs[..|bs| - 1]) + StrictBlockText(bs[|bs| - 1])
  }

  function JoinLoose(bs: seq<Block>): string {
    if bs == [] then "" else JoinLoose(bs[..|bs| - 1]) + LooseBlockText(bs[|bs| - 1])
  }

  /** The text of a content value as the chain-stream branch flattens it. */
  function FlattenStrict(c: Content): string {
    match c
    case TextContent(s) => s
    case BlockList(bs) => JoinStrict(bs)
    case _ => ""
  }

  /** The text of a content value as the chain-end fallback flattens it. */
  function FlattenLoose(c: Content): string {
    match c
    case TextContent(s) => s
    case BlockList(bs) => JoinLoose(bs)
    case _ => ""
  }

  // ---------------------------------------------------------------------
  // What each event produces.

  /** The token of a model-stream event: one `Token` exactly when the first
      block's `text` is truthy, carrying that text. */
  function ModelStreamOutput(chunk: Content): (r: seq<StreamMessage>)
    ensures |r| <= 1
    ensures |r| == 1 <==> FieldTruthy(FirstBlockText(chunk))
    ensures |r| == 1 ==> r[0] == Token(FieldText(FirstBlockText(chunk)))
  {
    var t := FirstBlockText(chunk);
    if FieldTruthy(t) then [Token(FieldText(t))] else []
  }

  /** The texts a chain-stream array yields, in item order: one per item
      with truthy content whose flattened text is not blank. */
  function ChainStreamTexts(items: seq<Content>): (r: seq<string>)
    ensures |r| <= |items|
  {
    if items == [] then []
    else
      var c := items[|items| - 1];
      var text := FlattenStrict(c);
      ChainStreamTexts(items[..|items| - 1]) + (if ContentTruthy(c) && !AllWhitespace(text) then [text] else [])
  }

  /** Chain-stream tokens are never blank. */
  lemma {:induction false} ChainStreamTextsAreNotBlank(items: seq<Content>)
    ensures forall k :: 0 <= k < |ChainStreamTexts(items)| ==> !AllWhitespace(ChainStreamTexts(items)[k])
  {
    if items != [] {
      ChainStreamTextsAreNotBlank(items[..|items| - 1]);
    }
  }

  /** A final message the fallback can use: truthy content whose loose
      flattening is not blank. */
  predicate Usable(c: Content) {
    ContentTruthy(c) && !AllWhitespace(FlattenLoose(c))
  }

  /** The reverse scan of the final message list. */
  function FallbackText(messages: seq<Content>): Option<string> {
    if messages == [] then None
    else
      var c := messages[|messages| - 1];
      if Usable(c) then Some(FlattenLoose(c)) else FallbackText(messages[..|messages| - 1])
  }

  /** There is no fallback exactly when no final message is usable. */
  lemma {:induction false} FallbackAbsentIffNoneUsable(messages: seq<Content>)
    ensures FallbackText(messages).None? <==> forall k :: 0 <= k < |messages| ==> !Usable(messages[k])
  {
    if messages != [] {
      var init := messages[..|messages| - 1];
      FallbackAbsentIffNoneUsable(init);
      assert forall k :: 0 <= k < |init| ==> init[k] == messages[k];
    }
  }

  /** The fallback is the flattened content of the LAST usable message. */
  lemma {:induction false} FallbackIsLastUsableMessage(messages: seq<Content>)
    requires FallbackText(messages).Some?
    ensures exists k :: LastUsableAt(messages, k) && FallbackText(messages).value == FlattenLoose(messages[k])
  {
    var last := |messages| - 1;
    if !Usable(messages[last]) {
      var init := messages[..last];
      FallbackIsLastUsableMessage(init);
      var k :| LastUsableAt(init, k) && FallbackText(init).value == FlattenLoose(init[k]);
      LastUsableExtends(init, messages, k);
    }
  }

  lemma LastUsableExtends(init: seq<Content>, messages: seq<Content>, k: int)
    requires |messages| > 0 && init == messages[..|messages| - 1] && !Usable(messages[|messages| - 1])
    requires LastUsableAt(init, k)
    ensures LastUsableAt(messages, k) && init[k] == messages[k]
  {
  }

  predicate LastUsableAt(messages: seq<Content>, k: int) {
    0 <= k < |messages| && Usable(messages[k]) && forall q :: k < q < |messages| ==> !Usable(messages[q])
  }

  function TokensOf(texts: seq<string>): (r: seq<StreamMessage>)
    ensures |r| == |texts| && forall k :: 0 <= k < |r| ==> r[k] == Token(texts[k])
  {
    seq(|texts|, k requires 0 <= k < |texts| => Token(texts[k]))
  }

  /** `value || "unknown"` for a tool name. */
  function OrUnknown(name: string): string {
    if name == "" then "unknown" else name
  }

  const TOP_LEVEL_GRAPH: string := "LangGraph"

  predicate FallbackFires(hasStreamedContent: bool, e: Event) {
    && e.ChainEnd? && !hasStreamedContent && e.name == TOP_LEVEL_GRAPH
    && e.messages.Some? && FallbackText(e.messages.value).Some?
  }

  /** The messages one event produces. The model-stream branch runs in
      every mode; after it, simple mode skips everything else (the tool
      branches hang off the same else-if chain as the mode test). */
  function EventOutput(simple: bool, hasStreamedContent: bool, e: Event): seq<StreamMessage> {
    var fromModel := if e.ChatModelStream? then ModelStreamOutput(e.chunk) else [];
    if simple then fromModel
    else
      fromModel + match e
        case ChainStream(items) => if items.Some? then TokensOf(ChainStreamTexts(items.value)) else []
        case ToolStartEvent(name, input) => [ToolStart(OrUnknown(name), input)]
        case ToolEndEvent(name, output) => [ToolEnd(OrUnknown(name), output)]
        case ChainEnd(_, messages) =>
          if FallbackFires(hasStreamedContent, e) then [Token(FallbackText(messages.value).value)] else []
        case _ => []
  }

  /** `hasStreamedContent` after one event: set by chain-stream tokens and
      by the fallback, never by model-stream tokens. */
  function FlagAfter(simple: bool, hasStreamedContent: bool, e: Event): bool {
    if simple then hasStreamedContent
    else match e
      case ChainStream(items) => hasStreamedContent || (items.Some? && |ChainStreamTexts(items.value)| > 0)
      case ChainEnd(_, _) => hasStreamedContent || FallbackFires(hasStreamedContent, e)
      case _ => hasStreamedContent
  }

  /** `hasStreamedContent` after the first `n` events. */
  function FlagAt(simple: bool, events: seq<Event>, n: nat): bool
    requires n <= |events|
  {
    if n == 0 then false else FlagAfter(simple, FlagAt(simple, events, n - 1), events[n - 1])
  }

  /** What the loop writes for the first `n` events. */
  function EmitUpTo(simple: bool, events: seq<Event>, n: nat): seq<StreamMessage>
    requires n <= |events|
  {
    if n == 0 then []
    else EmitUpTo(simple, events, n - 1) + EventOutput(simple, FlagAt(simple, events, n - 1), events[n - 1])
  }

  /** The message of the `TypeError` raised by `text.substring(0, 50)` when
      `text` is a truthy value that is not a string (V8's wording). */
  const SUBSTRING_TYPE_ERROR: string := "text.substring is not a function"

  /** A model-stream event whose token is logged with `text.substring`
      after it is sent: a truthy non-string `text` makes that call throw. */
  predicate ThrowsAfterToken(e: Event) {
    e.ChatModelStream? && FirstBlockText(e.chunk).Opaque?
  }

  /** The index of the first event whose handling throws, or `|events|`
      when none does. */
  function FirstThrowing(events: seq<Event>): (n: nat)
    ensures n <= |events|
    ensures forall k :: 0 <= k < n ==> !ThrowsAfterToken(events[k])
    ensures n < |events| ==> ThrowsAfterToken(events[n])
  {
    if events == [] || ThrowsAfterToken(events[0]) then 0
    else
      var n := FirstThrowing(events[1..]);
      assert forall k :: 1 <= k < |events| ==> events[k] == events[1..][k - 1];
      1 + n
  }

  /** How `submitQuestion` and the iteration of its event stream turn out:
      it throws before any event, or it delivers `events` and then either
      ends or throws (`failure`). */
  datatype Submission = SubmitThrew(error: Thrown) | Submitted(events: seq<Event>, failure: Option<Thrown>)

  /** The inner catch: an `Error`'s message, else "Stream processing failed". */
  function StreamErrorText(e: Thrown): string {
    match e
    case ErrorInstance(m) => m
    case OtherThrown(_) => "Stream processing failed"
  }

  /** The outer catch: an `Error`'s message, else "unknown error". */
  function OuterErrorText(e: Thrown): string {
    match e
    case ErrorInstance(m) => m
    case OtherThrown(_) => "unknown error"
  }

  /** Everything `startStream` writes, given the mode, whether storing the
      user's message threw, and how the agent run went. An event whose
      handling throws ends the loop there, and the inner catch reports it. */
  function StreamSpec(mode: string, storeFailure: Option<Thrown>, submission: Submission): seq<StreamMessage> {
    [Connected] +
    if storeFailure.Some? then [Error(OuterErrorText(storeFailure.value))]
    else match submission
      case SubmitThrew(e) => [Error(StreamErrorText(e))]
      case Submitted(events, failure) =>
        var n := FirstThrowing(events);
        if n < |events| then
          EmitUpTo(mode == "simple", events, n + 1) + [Error(StreamErrorText(ErrorInstance(SUBSTRING_TYPE_ERROR)))]
        else
          EmitUpTo(mode == "simple", events, |events|)
          + (if failure.None? then [Done] else [Error(StreamErrorText(failure.value))])
  }

  // ---------------------------------------------------------------------
  // The loops of `startStream`.

  /** The loop over a chain-stream array (deep research mode). */
  method StreamChainItems(items: seq<Content>) returns (texts: seq<string>)
    ensures texts == ChainStreamTexts(items)
  {
    texts := [];
    var k := 0;
    while k < |items|
      invariant 0 <= k <= |items|
      invariant texts == ChainStreamTexts(items[..k])
    {
      var item := items[k];
      if ContentTruthy(item) {
        var text := FlattenStrict(item);
        if !AllWhitespace(text) {
          texts := texts + [text];
        }
      }
      assert items[..k + 1][..k] == items[..k];
      k := k + 1;
    }
    assert items[..k] == items;
  }

  /** The reverse index loop over the final messages, left at the first
      (from the end) message with non-blank content. */
  method FindFinalContent(messages: seq<Content>) returns (found: Option<string>)
    ensures found == FallbackText(messages)
  {
    found := None;
    var i := |messages|;
    assert messages[..i] == messages;
    while i > 0
      invariant 0 <= i <= |messages|
      invariant FallbackText(messages) == FallbackText(messages[..i])
    {
      var msg := messages[i - 1];
      assert messages[..i][..i - 1] == messages[..i - 1];
      if ContentTruthy(msg) {
        var finalContent := FlattenLoose(msg);
        if !AllWhitespace(finalContent) {
          found := Some(finalContent);
          return;
        }
      }
      i := i - 1;
    }
  }

  /** The body of the `for await` loop for one event. */
  method HandleEvent(simple: bool, hasStreamedContent: bool, event: Event)
    returns (out: seq<StreamMessage>, flag: bool, threw: bool)
    ensures out == EventOutput(simple, hasStreamedContent, event)
    ensures flag == FlagAfter(simple, hasStreamedContent, event)
    ensures threw == ThrowsAfterToken(event)
  {
    out := [];
    flag := hasStreamedContent;
    threw := false;
    if event.ChatModelStream? {
      var text := FirstBlockText(event.chunk);
      if FieldTruthy(text) {
        out := out + [Token(FieldText(text))];
        if text.Opaque? {
          // the log line's `text.substring` throws once the token is out
          threw := true;
          return;
        }
      }
    }
    if simple {
      // chain events are skipped, and no further branch applies
    } else if event.ChainStream? {
      if event.items.Some? {
        var texts := StreamChainItems(event.items.value);
        out := out + TokensOf(texts);
        if |texts| > 0 {
          flag := true;
        }
      }
    } else if event.ToolStartEvent? {
      out := out + [ToolStart(OrUnknown(event.name), event.input)];
    } else if event.ToolEndEvent? {
      out := out + [ToolEnd(OrUnknown(event.outputName), event.output)];
    } else if event.ChainEnd? {
      if !hasStreamedContent && event.name == TOP_LEVEL_GRAPH && event.messages.Some? {
        var found := FindFinalContent(event.messages.value);
        if found.Some? {
          out := out + [Token(found.value)];
          flag := true;
        }
      }
    }
  }

  /** The `for await` loop over the agent's events. */
  method TranslateEvents(simple: bool, events: seq<Event>) returns (sent: seq<StreamMessage>, threw: bool)
    ensures threw <==> FirstThrowing(events) < |events|
    ensures sent == EmitUpTo(simple, events, if threw then FirstThrowing(events) + 1 else |events|)
  {
    sent := [];
    threw := false;
    var hasStreamedContent := false;
    var i := 0;
    while i < |events|
      invariant 0 <= i <= FirstThrowing(events)
      invariant hasStreamedContent == FlagAt(simple, events, i)
      invariant sent == EmitUpTo(simple, events, i)
    {
      var out, eventThrew;
      out, hasStreamedContent, eventThrew := HandleEvent(simple, hasStreamedContent, events[i]);
      sent := sent + out;
      if eventThrew {
        threw := true;
        return;
      }
      i := i + 1;
    }
  }

  /** `startStream`, from the `Connected` message to the terminal one. */
  method StartStream(mode: string, storeFailure: Option<Thrown>, submission: Submission)
    returns (sent: seq<StreamMessage>)
    ensures sent == StreamSpec(mode, storeFailure, submission)
  {
    sent := [Connected];
    if storeFailure.Some? {
      sent := sent + [Error(OuterErrorText(storeFailure.value))];
    } else if submission.SubmitThrew? {
      sent := sent + [Error(StreamErrorText(submission.error))];
    } else {
      var translated, threw := TranslateEvents(mode == "simple", submission.events);
      sent := sent + translated;
      if threw {
        sent := sent + [Error(StreamErrorText(ErrorInstance(SUBSTRING_TYPE_ERROR)))];
      } else if submission.failure.None? {
        sent := sent + [Done];
      } else {
        sent := sent + [Error(StreamErrorText(submission.failure.value))];
      }
    }
  }

  // ---------------------------------------------------------------------
  // What the stream promises.

  /** A message the event loop can write: never `Connected`, `Done` or
      `Error`, which only `startStream` itself writes. */
  predicate IsContentMessage(m: StreamMessage) {
    m.Token? || m.ToolStart? || m.ToolEnd?
  }

  lemma EventOutputIsContent(simple: bool, hasStreamedContent: bool, e: Event)
    ensures forall k :: 0 <= k < |EventOutput(simple, hasStreamedContent, e)| ==>
      IsContentMessage(EventOutput(simple, hasStreamedContent, e)[k])
  {
  }

  lemma {:induction false} EmitCarriesOnlyContent(simple: bool, events: seq<Event>, n: nat)
    requires n <= |events|
    ensures forall k :: 0 <= k < |EmitUpTo(simple, events, n)| ==> IsContentMessage(EmitUpTo(simple, events, n)[k])
  {
    if n > 0 {
      EmitCarriesOnlyContent(simple, events, n - 1);
      var flag := FlagAt(simple, events, n - 1);
      var before, out := EmitUpTo(simple, events, n - 1), EventOutput(simple, flag, events[n - 1]);
      EventOutputIsContent(simple, flag, events[n - 1]);
      assert EmitUpTo(simple, events, n) == before + out;
    }
  }

  /** The stream opens with `Connected` and closes with exactly one terminal
      message: nothing after `Done`/`Error`, and no second `Connected`. */
  lemma StreamIsFramed(mode: string, storeFailure: Option<Thrown>, submission: Submission)
    ensures var s := StreamSpec(mode, storeFailure, submission);
      && |s| >= 2 && s[0] == Connected && IsTerminal(s[|s| - 1])
      && forall k :: 0 < k < |s| - 1 ==> IsContentMessage(s[k])
  {
    if storeFailure.None? && submission.Submitted? {
      var events := submission.events;
      var n := FirstThrowing(events);
      EmitCarriesOnlyContent(mode == "simple", events, if n < |events| then n + 1 else |events|);
    }
  }

  /** The first thing that threw, if anything did. */
  function FirstFailure(storeFailure: Option<Thrown>, submission: Submission): Option<Thrown> {
    if storeFailure.Some? then storeFailure
    else match submission
      case SubmitThrew(e) => Some(e)
      case Submitted(events, failure) =>
        if FirstThrowing(events) < |events| then Some(ErrorInstance(SUBSTRING_TYPE_ERROR)) else failure
  }

  /** The stream ends in `Done` exactly when nothing threw; otherwise its
      `Error` carries the thrown `Error`'s message unchanged, and a thrown
      non-`Error` gets the fallback text of the catch that handled it. */
  lemma TerminalMessage(mode: string, storeFailure: Option<Thrown>, submission: Submission)
    ensures var s := StreamSpec(mode, storeFailure, submission);
      var last, failure := s[|s| - 1], FirstFailure(storeFailure, submission);
      && (last == Done <==> failure.None?)
      && (failure.Some? && failure.value.ErrorInstance? ==> last == Error(failure.value.message))
      && (storeFailure.Some? && storeFailure.value.OtherThrown? ==> last == Error("unknown error"))
      && (storeFailure.None? && failure.Some? && failure.value.OtherThrown? ==> last == Error("Stream processing failed"))
  {
  }

  /** A model-stream event with a truthy non-string `text` still gets its
      token out, but the stream then ends in an `Error` carrying the
      `TypeError`'s message: no later event is handled and no `Done` is
      written. */
  lemma OpaqueTextEndsStream(mode: string, events: seq<Event>, failure: Option<Thrown>, k: nat)
    requires k < |events| && ThrowsAfterToken(events[k])
    ensures var s, n := StreamSpec(mode, None, Submitted(events, failure)), FirstThrowing(events);
      && n <= k
      && |s| >= 3
      && s[|s| - 1] == Error(SUBSTRING_TYPE_ERROR)
      && s[|s| - 2] == Token(FieldText(FirstBlockText(events[n].chunk)))
      && Done !in s
  {
    var simple, n := mode == "simple", FirstThrowing(events);
    var s := StreamSpec(mode, None, Submitted(events, failure));
    var out := EventOutput(simple, FlagAt(simple, events, n), events[n]);
    assert out == [Token(FieldText(FirstBlockText(events[n].chunk)))];
    EmitCarriesOnlyContent(simple, events, n + 1);
    assert s == [Connected] + EmitUpTo(simple, events, n + 1) + [Error(SUBSTRING_TYPE_ERROR)];
  }

  /** The reference for simple mode: the model-stream tokens, in order. */
  function ModelTokens(events: seq<Event>): seq<StreamMessage> {
    if events == [] then []
    else
      var e := events[|events| - 1];
      ModelTokens(events[..|events| - 1]) + (if e.ChatModelStream? then ModelStreamOutput(e.chunk) else [])
  }

  /** In simple mode the stream carries the model-stream tokens and nothing
      else: no chain output, no fallback and no tool messages. */
  lemma {:induction false} SimpleModeStreamsModelTokens(events: seq<Event>, n: nat)
    requires n <= |events|
    ensures EmitUpTo(true, events, n) == ModelTokens(events[..n])
    ensures forall k :: 0 <= k < |EmitUpTo(true, events, n)| ==> EmitUpTo(true, events, n)[k].Token?
  {
    if n > 0 {
      SimpleModeStreamsModelTokens(events, n - 1);
      assert events[..n][..n - 1] == events[..n - 1];
    }
  }

  /** A model-stream event writes the same token in both modes and leaves
      `hasStreamedContent` alone, so it never suppresses the fallback. */
  lemma ModelStreamIsModeIndependent(hasStreamedContent: bool, e: Event)
    requires e.ChatModelStream?
    ensures EventOutput(true, hasStreamedContent, e) == EventOutput(false, hasStreamedContent, e)
    ensures FlagAfter(false, hasStreamedContent, e) == hasStreamedContent
  {
    assert ModelStreamOutput(e.chunk) + [] == ModelStreamOutput(e.chunk);
  }

  function ToolMessages(ms: seq<StreamMessage>): seq<StreamMessage> {
    if ms == [] then []
    else
      var m := ms[|ms| - 1];
      ToolMessages(ms[..|ms| - 1]) + (if m.ToolStart? || m.ToolEnd? then [m] else [])
  }

  lemma {:induction false} ToolMessagesAppend(xs: seq<StreamMessage>, ys: seq<StreamMessage>)
    ensures ToolMessages(xs + ys) == ToolMessages(xs) + ToolMessages(ys)
    decreases |ys|
  {
    if ys == [] {
      assert xs + ys == xs;
    } else {
      assert (xs + ys)[..|xs + ys| - 1] == xs + ys[..|ys| - 1];
      ToolMessagesAppend(xs, ys[..|ys| - 1]);
    }
  }

  lemma {:induction false} NoToolMessagesAmongTokens(ms: seq<StreamMessage>)
    requires forall m :: m in ms ==> m.Token?
    ensures ToolMessages(ms) == []
    decreases |ms|
  {
    if ms != [] {
      assert ms[|ms| - 1] in ms;
      assert forall m :: m in ms[..|ms| - 1] ==> m in ms;
      NoToolMessagesAmongTokens(ms[..|ms| - 1]);
    }
  }

  /** The tool message a single event stands for in deep research mode. */
  function ToolEventMessage(e: Event): seq<StreamMessage> {
    match e
    case ToolStartEvent(name, input) => [ToolStart(OrUnknown(name), input)]
    case ToolEndEvent(name, output) => [ToolEnd(OrUnknown(name), output)]
    case _ => []
  }

  /** The reference for deep research mode: one tool message per tool
      event, in event order. */
  function ToolEventMessages(events: seq<Event>): seq<StreamMessage> {
    if events == [] then []
    else ToolEventMessages(events[..|events| - 1]) + ToolEventMessage(events[|events| - 1])
  }

  lemma ToolMessagesOfOne(m: StreamMessage)
    ensures ToolMessages([m]) == if m.ToolStart? || m.ToolEnd? then [m] else []
  {
    assert [m][..0] == [];
  }

  lemma ToolMessagesOfEvent(hasStreamedContent: bool, e: Event)
    ensures ToolMessages(EventOutput(false, hasStreamedContent, e)) == ToolEventMessage(e)
  {
    var out := EventOutput(false, hasStreamedContent, e);
    match e
    case ToolStartEvent(name, input) =>
      assert out == [ToolStart(OrUnknown(name), input)];
      ToolMessagesOfOne(ToolStart(OrUnknown(name), input));
    case ToolEndEvent(name, output) =>
      assert out == [ToolEnd(OrUnknown(name), output)];
      ToolMessagesOfOne(ToolEnd(OrUnknown(name), output));
    case _ =>
      assert forall m :: m in out ==> m.Token?;
      NoToolMessagesAmongTokens(out);
  }

  /** In deep research mode the tool messages of the stream are exactly the
      tool events, in order. */
  lemma {:induction false} ToolMessagesFollowToolEvents(events: seq<Event>, n: nat)
    requires n <= |events|
    ensures ToolMessages(EmitUpTo(false, events, n)) == ToolEventMessages(events[..n])
  {
    if n > 0 {
      ToolMessagesFollowToolEvents(events, n - 1);
      assert events[..n][..n - 1] == events[..n - 1];
      var out := EventOutput(false, FlagAt(false, events, n - 1), events[n - 1]);
      ToolMessagesAppend(EmitUpTo(false, events, n - 1), out);
      ToolMessagesOfEvent(FlagAt(false, events, n - 1), events[n - 1]);
    }
  }

  lemma FlagStep(simple: bool, events: seq<Event>, i: nat)
    requires i < |events| && FlagAt(simple, events, i)
    ensures FlagAt(simple, events, i + 1)
  {
  }

  /** `hasStreamedContent` is never reset. */
  lemma {:induction false} FlagStaysSet(simple: bool, events: seq<Event>, i: nat, j: nat)
    requires i <= j <= |events|
    requires FlagAt(simple, events, i)
    ensures FlagAt(simple, events, j)
    decreases j - i
  {
    if i < j {
      FlagStep(simple, events, i);
      FlagStaysSet(simple, events, i + 1, j);
    }
  }

  /** The fallback fires at most once in a run, and only when no chain-stream
      event before it produced a token. */
  lemma FallbackAtMostOnce(events: seq<Event>, i: nat, j: nat)
    requires i < j < |events|
    requires FallbackFires(FlagAt(false, events, j), events[j])
    ensures !FallbackFires(FlagAt(false, events, i), events[i])
    ensures events[i].ChainStream? && events[i].items.Some? ==> ChainStreamTexts(events[i].items.value) == []
  {
    var before := FlagAt(false, events, i);
    assert FlagAt(false, events, i + 1) == FlagAfter(false, before, events[i]);
    if FlagAt(false, events, i + 1) {
      FlagStaysSet(false, events, i + 1, j);
    }
  }
}
