/** The chat title action (convex/actions.ts): the context the title model
    is shown, the cleaning of its answer, and the "New Chat" fallbacks. The
    chat's messages, the model and the instruction text are parameters;
    the calls to `updateChatTitle` and to the model are the trace the
    action leaves. */
module ChatTitle {
  import opened JsText

  const NEW_CHAT: string := "New Chat"
  const CONTEXT_MESSAGES: nat := 6
  const CONTENT_CHARS: nat := 200
  const TITLE_CHARS: nat := 50
  const CONTEXT_SEPARATOR: string := "\n\n"

  /** A stored chat message, as far as the title goes. */
  datatype ChatMessage = ChatMessage(role: string, content: string)

  /** What `model.invoke(prompt)` gives: the reply's `content.toString()`,
      or an exception. */
  datatype ModelReply = Replied(text: string) | Threw

  /** What one run of the action did: the titles it passed to
      `updateChatTitle`, in order, the prompts it sent to the model, and the
      title it returned. */
  datatype TitleRun = TitleRun(stored: seq<string>, prompts: seq<string>, title: string)

  // ---------------------------------------------------------------------
  // The context string.

  /** `${m.role}: ${m.content.slice(0, 200)}`. */
  function ContextLine(m: ChatMessage): string {
    m.role + ": " + Take(m.content, CONTENT_CHARS)
  }

  /** `messages.slice(0, 6).map(...)`. */
  function ContextLines(messages: seq<ChatMessage>): (lines: seq<string>)
    ensures |lines| == if |messages| <= CONTEXT_MESSAGES then |messages| else CONTEXT_MESSAGES
    ensures forall k :: 0 <= k < |lines| ==> lines[k] == ContextLine(messages[k])
  {
    var shown := if |messages| <= CONTEXT_MESSAGES then messages else messages[..CONTEXT_MESSAGES];
    seq(|shown|, k requires 0 <= k < |shown| => ContextLine(shown[k]))
  }

  /** `.join("\n\n")`: the text the model is asked to name. */
  function Context(messages: seq<ChatMessage>): string {
    JoinWith(ContextLines(messages), CONTEXT_SEPARATOR)
  }

  /** Messages after the sixth do not reach the model. */
  lemma ContextSeesFirstSix(messages: seq<ChatMessage>, later: seq<ChatMessage>)
    requires |messages| >= CONTEXT_MESSAGES
    ensures Context(messages + later) == Context(messages[..CONTEXT_MESSAGES])
  {
    assert ContextLines(messages + later) == ContextLines(messages[..CONTEXT_MESSAGES]);
  }

  /** Up to the sixth, each message adds a separator and its line, in order. */
  lemma ContextAppend(messages: seq<ChatMessage>, m: ChatMessage)
    requires 0 < |messages| < CONTEXT_MESSAGES
    ensures Context(messages + [m]) == Context(messages) + CONTEXT_SEPARATOR + ContextLine(m)
  {
    assert ContextLines(messages + [m]) == ContextLines(messages) + [ContextLine(m)];
    JoinAppend(ContextLines(messages), ContextLine(m), CONTEXT_SEPARATOR);
  }

  /** The role survives in full and at most 200 characters of the content
      follow it. */
  lemma ContextLineShape(m: ChatMessage)
    ensures var line, head := ContextLine(m), m.role + ": ";
      && StartsWith(line, head)
      && |line| <= |head| + CONTENT_CHARS
      && line[|head|..] == m.content[..|line| - |head|]
  {
    var head := m.role + ": ";
    var line := ContextLine(m);
    assert line[..|head|] == head;
    assert line[|head|..] == Take(m.content, CONTENT_CHARS);
  }

  /** The prompt: the instructions, then the context, then the cue for the
      title. */
  function TitlePrompt(instructions: string, context: string): string {
    instructions + "\n\nConversation:\n" + context + "\n\nTitle:"
  }

  /** The context appears in the prompt verbatim, after the instructions. */
  lemma PromptCarriesContext(instructions: string, context: string)
    ensures var p, at := TitlePrompt(instructions, context), |instructions| + |"\n\nConversation:\n"|;
      at + |context| <= |p| && p[at..at + |context|] == context
  {
  }

  // ---------------------------------------------------------------------
  // The title.

  predicate IsQuote(c: char) {
    c == '\'' || c == '"'
  }

  /** `.replace(/['"]/g, "")`. */
  function StripQuotes(s: string): (r: string)
    ensures |r| <= |s|
    ensures forall k :: 0 <= k < |r| ==> !IsQuote(r[k])
    ensures r == [] <==> forall k :: 0 <= k < |s| ==> IsQuote(s[k])
  {
    if s == [] then []
    else
      var rest := StripQuotes(s[1..]);
      assert forall k :: 1 <= k < |s| ==> s[k] == s[1..][k - 1];
      (if IsQuote(s[0]) then [] else [s[0]]) + rest
  }

  /** One character: a quote is dropped and anything else is kept. With
      `StripQuotesAppend` this fixes the result for every text: each
      character that is not a quote is kept, in order. */
  lemma StripQuotesOne(c: char)
    ensures StripQuotes([c]) == if IsQuote(c) then [] else [c]
  {
    assert [c][1..] == [];
  }

  /** Removing quotes works piece by piece. */
  lemma {:induction false} StripQuotesAppend(a: string, b: string)
    ensures StripQuotes(a + b) == StripQuotes(a) + StripQuotes(b)
  {
    if a != [] {
      var head := if IsQuote(a[0]) then [] else [a[0]];
      assert (a + b)[0] == a[0];
      assert (a + b)[1..] == a[1..] + b;
      StripQuotesAppend(a[1..], b);
      assert StripQuotes(a + b) == head + (StripQuotes(a[1..]) + StripQuotes(b));
      assert StripQuotes(a) == head + StripQuotes(a[1..]);
    } else {
      assert a + b == b;
    }
  }

  /** Text without quotes is left alone. */
  lemma {:induction false} StripQuotesKeepsUnquoted(s: string)
    requires forall k :: 0 <= k < |s| ==> !IsQuote(s[k])
    ensures StripQuotes(s) == s
  {
    if s != [] {
      StripQuotesKeepsUnquoted(s[1..]);
    }
  }

  /** `.trim().replace(/['"]/g, "").slice(0, 50)`. */
  function Sanitise(reply: string): string {
    Take(StripQuotes(Trim(reply)), TITLE_CHARS)
  }

  /** The title is at most fifty characters, has no quotes, and is the start
      of the trimmed, unquoted reply: all of it when that fits, otherwise
      exactly its first fifty characters. */
  lemma SanitisedTitle(reply: string)
    ensures var title, full := Sanitise(reply), StripQuotes(Trim(reply));
      && |title| <= TITLE_CHARS
      && (forall k :: 0 <= k < |title| ==> !IsQuote(title[k]))
      && title == full[..|title|]
      && (|full| <= TITLE_CHARS ==> title == full)
      && (|full| > TITLE_CHARS ==> |title| == TITLE_CHARS)
  {
    var title, full := Sanitise(reply), StripQuotes(Trim(reply));
    assert forall k :: 0 <= k < |title| ==> title[k] == full[k];
  }

  /** A title given as asked for (short, unquoted, unpadded) is kept as it
      is. */
  lemma CleanTitleKept(reply: string)
    requires |reply| <= TITLE_CHARS
    requires forall k :: 0 <= k < |reply| ==> !IsQuote(reply[k])
    requires reply == [] || (!IsWhitespace(reply[0]) && !IsWhitespace(reply[|reply| - 1]))
    ensures Sanitise(reply) == reply
  {
    if reply != [] {
      TrimKeepsUnpadded(reply);
    }
    StripQuotesKeepsUnquoted(reply);
  }

  // ---------------------------------------------------------------------
  // The action.

  /** `generateChatTitle`'s handler on a chat's messages: an empty chat is
      named "New Chat" without asking the model; otherwise the model's reply
      is cleaned, and a model error falls back to "New Chat". */
  function GenerateChatTitle(messages: seq<ChatMessage>, instructions: string,
                             model: string -> ModelReply): (run: TitleRun)
    ensures run.stored == [run.title]
    ensures messages == [] ==> run.title == NEW_CHAT && run.prompts == []
    ensures messages != [] ==> run.prompts == [TitlePrompt(instructions, Context(messages))]
    ensures messages != [] ==>
      match model(TitlePrompt(instructions, Context(messages)))
      case Replied(text) => run.title == Sanitise(text)
      case Threw => run.title == NEW_CHAT
  {
    if messages == [] then TitleRun([NEW_CHAT], [], NEW_CHAT)
    else
      var prompt := TitlePrompt(instructions, Context(messages));
      match model(prompt)
      case Replied(text) =>
        var title := Sanitise(text);
        TitleRun([title], [prompt], title)
      case Threw => TitleRun([NEW_CHAT], [prompt], NEW_CHAT)
  }

  /** Whatever the model does, the title stored is the title returned, at
      most fifty characters and free of quotes. */
  lemma TitleIsStoredAndClean(messages: seq<ChatMessage>, instructions: string, model: string -> ModelReply)
    ensures var run := GenerateChatTitle(messages, instructions, model);
      && run.stored == [run.title]
      && |run.title| <= TITLE_CHARS
      && forall k :: 0 <= k < |run.title| ==> !IsQuote(run.title[k])
  {
    if messages != [] {
      var reply := model(TitlePrompt(instructions, Context(messages)));
      if reply.Replied? {
        SanitisedTitle(reply.text);
      }
    }
  }

  /** The model is asked once for a chat with messages and never for an
      empty one. */
  lemma ModelAskedOnlyWithMessages(messages: seq<ChatMessage>, instructions: string, model: string -> ModelReply)
    ensures |GenerateChatTitle(messages, instructions, model).prompts| == if messages == [] then 0 else 1
  {
  }
}
