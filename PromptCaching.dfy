/** The prompt-caching breakpoints `submitQuestion` sets (lib/langgraph.ts,
    `addCachingHeaders`) on the message objects the route builds
    (app/api/chat/stream/route.ts). Message objects are shared: the array
    copy is shallow, so marking a message changes the caller's object. */
module PromptCaching {
  import opened Wrappers
  import opened LangGraph

  /** Which LangChain class a message object is; only `instanceof
      HumanMessage` matters here. */
  datatype Kind = Human | Ai | OtherKind

  /** A message object: its class is fixed, its `content` is overwritten in
      place when a cache breakpoint is set. */
  class MessageObject {
    const kind: Kind
    var content: Content

    constructor (kind: Kind, content: Content)
      ensures this.kind == kind && this.content == content
    {
      this.kind := kind;
      this.content := content;
    }
  }

  function Kinds(messages: seq<MessageObject>): (kinds: seq<Kind>)
    ensures |kinds| == |messages| && forall k :: 0 <= k < |messages| ==> kinds[k] == messages[k].kind
  {
    seq(|messages|, k requires 0 <= k < |messages| => messages[k].kind)
  }

  /** The backward scan of `addCachingHeaders` from index `i - 1` with
      `humanCount` human messages already seen: where the count reaches 2. */
  function ScanForSecondHuman(kinds: seq<Kind>, i: nat, humanCount: nat): Option<nat>
    requires i <= |kinds|
    decreases i
  {
    if i == 0 then None
    else if kinds[i - 1] == Human then
      if humanCount + 1 == 2 then Some(i - 1) else ScanForSecondHuman(kinds, i - 1, humanCount + 1)
    else ScanForSecondHuman(kinds, i - 1, humanCount)
  }

  function SecondHumanFromEnd(kinds: seq<Kind>): Option<nat> {
    ScanForSecondHuman(kinds, |kinds|, 0)
  }

  /** The number of human messages at index `i` or later. */
  function HumansFrom(kinds: seq<Kind>, i: nat): nat
    requires i <= |kinds|
    decreases |kinds| - i
  {
    if i == |kinds| then 0 else (if kinds[i] == Human then 1 else 0) + HumansFrom(kinds, i + 1)
  }

  lemma {:induction false} HumansFromShrinks(kinds: seq<Kind>, i: nat, j: nat)
    requires i <= j <= |kinds|
    ensures HumansFrom(kinds, i) >= HumansFrom(kinds, j)
    decreases j - i
  {
    if i < j {
      HumansFromShrinks(kinds, i + 1, j);
    }
  }

  lemma {:induction false} ScanFindsSecondHuman(kinds: seq<Kind>, i: nat, humanCount: nat)
    requires i <= |kinds| && humanCount <= 1 && humanCount == HumansFrom(kinds, i)
    ensures var r := ScanForSecondHuman(kinds, i, humanCount);
      && (r.Some? <==> HumansFrom(kinds, 0) >= 2)
      && (r.Some? ==> r.value < |kinds| && kinds[r.value] == Human && HumansFrom(kinds, r.value) == 2)
    decreases i
  {
    if i > 0 {
      if kinds[i - 1] == Human && humanCount + 1 == 2 {
        HumansFromShrinks(kinds, 0, i - 1);
      } else {
        ScanFindsSecondHuman(kinds, i - 1, if kinds[i - 1] == Human then humanCount + 1 else humanCount);
      }
    }
  }

  /** The scan stops at the human message that has exactly one other human
      message after it, and finds one exactly when there are two or more. */
  lemma SecondHumanFromEndIsSecondLast(kinds: seq<Kind>)
    ensures var r := SecondHumanFromEnd(kinds);
      && (r.Some? <==> HumansFrom(kinds, 0) >= 2)
      && (r.Some? ==> r.value < |kinds| && kinds[r.value] == Human && HumansFrom(kinds, r.value) == 2)
  {
    ScanFindsSecondHuman(kinds, |kinds|, 0);
  }

  /** The messages that end up carrying a cache breakpoint: the last one,
      and the second human message from the end. */
  predicate Marked(kinds: seq<Kind>, k: nat) {
    k == |kinds| - 1 || SecondHumanFromEnd(kinds) == Some(k)
  }

  /** `addCachingHeaders`: returns a copy of the array holding the same
      objects, after wrapping the content of the marked ones. */
  method AddCachingHeaders(messages: seq<MessageObject>) returns (cached: seq<MessageObject>)
    requires forall i, j :: 0 <= i < j < |messages| ==> messages[i] != messages[j]
    modifies set k | 0 <= k < |messages| :: messages[k]
    ensures cached == messages
    ensures forall k :: 0 <= k < |messages| ==>
      messages[k].content == if Marked(Kinds(messages), k) then CacheMarked(old(messages[k].content)) else old(messages[k].content)
  {
    if |messages| == 0 {
      return messages;
    }
    cached := messages;
    ghost var kinds := Kinds(messages);
    var lastMessage := cached[|cached| - 1];
    lastMessage.content := CacheMarked(lastMessage.content);
    var humanCount := 0;
    var i := |cached| - 1;
    while i >= 0
      invariant -1 <= i < |cached| && humanCount <= 1
      invariant i == |cached| - 1 ==> humanCount == 0
      invariant ScanForSecondHuman(kinds, i + 1, humanCount) == SecondHumanFromEnd(kinds)
      invariant forall k :: 0 <= k < |messages| ==>
        messages[k].content == if k == |messages| - 1 then CacheMarked(old(messages[k].content)) else old(messages[k].content)
      decreases i
    {
      if cached[i].kind == Human {
        humanCount := humanCount + 1;
        if humanCount == 2 {
          cached[i].content := CacheMarked(cached[i].content);
          break;
        }
      }
      i := i - 1;
    }
  }

  /** `submitQuestion`: the annotated copy is not what reaches the graph, the
      caller's `messages` array is; its objects carry the breakpoints all the
      same, because the copy shares them. */
  method SubmitQuestion(messages: seq<MessageObject>, mode: string)
    returns (workflow: Workflow, input: seq<MessageObject>)
    requires forall i, j :: 0 <= i < j < |messages| ==> messages[i] != messages[j]
    modifies set k | 0 <= k < |messages| :: messages[k]
    ensures workflow == SelectWorkflow(mode)
    ensures input == messages
    ensures forall k :: 0 <= k < |input| ==>
      input[k].content == if Marked(Kinds(messages), k) then CacheMarked(old(messages[k].content)) else old(messages[k].content)
  {
    var cachedMessages := AddCachingHeaders(messages);
    workflow := SelectWorkflow(mode);
    input := messages;
  }

  /** A stored chat message as the request body carries it. */
  datatype ChatMessage = ChatMessage(role: string, content: string)

  /** The history the route hands to `submitQuestion`: one new object per
      stored message (human for "user", AI otherwise), then the new message
      as a human message. */
  method BuildHistory(previous: seq<ChatMessage>, newMessage: string) returns (history: seq<MessageObject>)
    ensures |history| == |previous| + 1
    ensures forall k :: 0 <= k < |history| ==> fresh(history[k])
    ensures forall i, j :: 0 <= i < j < |history| ==> history[i] != history[j]
    ensures Kinds(history) == HistoryKinds(previous)
    ensures forall k :: 0 <= k < |previous| ==> history[k].content == Text(previous[k].content)
    ensures history[|previous|].content == Text(newMessage)
  {
    history := [];
    for k := 0 to |previous|
      invariant |history| == k
      invariant forall m :: 0 <= m < k ==> fresh(history[m])
      invariant forall i, j :: 0 <= i < j < k ==> history[i] != history[j]
      invariant Kinds(history) == RoleKinds(previous[..k])
      invariant forall m :: 0 <= m < k ==> history[m].content == Text(previous[m].content)
    {
      var msg := previous[k];
      var created := new MessageObject(if msg.role == "user" then Human else Ai, Text(msg.content));
      history := history + [created];
      assert previous[..k + 1][..k] == previous[..k];
    }
    var question := new MessageObject(Human, Text(newMessage));
    history := history + [question];
    assert previous[..|previous|] == previous;
  }

  function RoleKinds(previous: seq<ChatMessage>): (kinds: seq<Kind>)
    ensures |kinds| == |previous|
  {
    if previous == [] then []
    else RoleKinds(previous[..|previous| - 1]) + [if previous[|previous| - 1].role == "user" then Human else Ai]
  }

  function HistoryKinds(previous: seq<ChatMessage>): seq<Kind> {
    RoleKinds(previous) + [Human]
  }

  /** The last human message strictly before index `i`. */
  function LastHumanBefore(kinds: seq<Kind>, i: nat): (r: Option<nat>)
    requires i <= |kinds|
    ensures r.Some? ==> r.value < i && kinds[r.value] == Human
    ensures forall j :: 0 <= j < i && (r.None? || r.value < j) ==> kinds[j] != Human
    decreases i
  {
    if i == 0 then None
    else if kinds[i - 1] == Human then Some(i - 1)
    else LastHumanBefore(kinds, i - 1)
  }

  lemma {:induction false} ScanWithOneHumanSeen(kinds: seq<Kind>, i: nat)
    requires i <= |kinds|
    ensures ScanForSecondHuman(kinds, i, 1) == LastHumanBefore(kinds, i)
    decreases i
  {
    if i > 0 && kinds[i - 1] != Human {
      ScanWithOneHumanSeen(kinds, i - 1);
    }
  }

  /** On a history the route built, the breakpoints go on the new question
      and on the last "user" message before it, if there is one. */
  lemma BreakpointsOfBuiltHistory(previous: seq<ChatMessage>)
    ensures var kinds := HistoryKinds(previous);
      && |kinds| == |previous| + 1 && kinds[|previous|] == Human
      && SecondHumanFromEnd(kinds) == LastHumanBefore(kinds, |previous|)
  {
    ScanWithOneHumanSeen(HistoryKinds(previous), |previous|);
  }
}
