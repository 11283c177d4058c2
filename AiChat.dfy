/**
 * The text-chat path of index.js: the 10-message conversation window, the
 * provider fallback loop, the Gemini request's contents, and how a reply is
 * cut for Discord (chunks of at most 1990 code units beyond 2000, and a
 * regenerated reply truncated to 1900 plus an ellipsis).
 *
 * The HTTP calls are inputs: for each provider, whether the request threw
 * and, if not, the text its response carried (possibly none).
 */
module AiChat {
  import opened JsText

  datatype ChatMessage = ChatMessage(role: Text, content: Text)

  const HistoryLimit: nat := 10
  const ChunkThreshold: nat := 2000
  const ChunkSize: nat := 1990
  const RegenerateLimit: nat := 1900

  // ---------------------------------------------------------------------------
  // The conversation window

  /** The last `n` elements of `s` (all of them when there are fewer). */
  function LastN<T>(s: seq<T>, n: nat): (r: seq<T>)
    ensures |r| == if |s| < n then |s| else n
    ensures r == s[|s| - |r|..]
  {
    if |s| > n then s[|s| - n..] else s
  }

  /** Trimming after every push keeps exactly the last n of everything pushed. */
  lemma WindowCompose<T>(s: seq<T>, x: T, n: nat)
    requires n > 0
    ensures LastN(LastN(s, n) + [x], n) == LastN(s + [x], n)
  {
    var w := LastN(s, n);
    if |s| > n {
      assert (s + [x])[|s| + 1 - n..] == (w + [x])[|w| + 1 - n..];
    }
  }

  /** The window after pushing a whole sequence of messages one at a time. */
  function PushAll<T>(h: seq<T>, xs: seq<T>, n: nat): seq<T>
    decreases |xs|
  {
    if xs == [] then h else PushAll(LastN(h + [xs[0]], n), xs[1..], n)
  }

  /** However many messages are pushed, the window is the last n of the starting window followed by them. */
  lemma {:induction false} PushAllWindow<T>(h: seq<T>, xs: seq<T>, n: nat)
    requires n > 0
    ensures PushAll(LastN(h, n), xs, n) == LastN(h + xs, n)
    decreases |xs|
  {
    if xs == [] {
      assert h + xs == h;
    } else {
      var h' := h + [xs[0]];
      calc {
        PushAll(LastN(h, n), xs, n);
        PushAll(LastN(LastN(h, n) + [xs[0]], n), xs[1..], n);
        { WindowCompose(h, xs[0], n); }
        PushAll(LastN(h', n), xs[1..], n);
        { PushAllWindow(h', xs[1..], n); }
        LastN(h' + xs[1..], n);
        { assert h' + xs[1..] == h + xs; }
        LastN(h + xs, n);
      }
    }
  }

  /** `userHistory` of one message handler run. */
  class ChatHistory {
    var entries: seq<ChatMessage>

    constructor (stored: seq<ChatMessage>)
      ensures entries == stored
    {
      entries := stored;
    }

    /** addToHistory: push, then drop from the front down to the last 10. */
    method Add(role: Text, content: Text)
      modifies this
      ensures entries == LastN(old(entries) + [ChatMessage(role, content)], HistoryLimit)
      ensures |entries| <= HistoryLimit || entries == old(entries) + [ChatMessage(role, content)]
      ensures entries[|entries| - 1] == ChatMessage(role, content)
    {
      entries := entries + [ChatMessage(role, content)];
      if |entries| > HistoryLimit {
        entries := entries[|entries| - HistoryLimit..];
      }
    }
  }

  // ---------------------------------------------------------------------------
  // Provider fallback

  /** An API provider: its name, its key (absent when not configured) and whether it speaks Gemini's protocol. */
  datatype Provider = Provider(name: Text, key: Option<Text>, isGemini: bool)

  /** What one provider's request gave. */
  datatype ProviderResult = Threw | Responded(content: Option<Text>)

  /** The four providers, in the order they are tried. */
  function ApiProviders(openRouterKey: Option<Text>, groqKey1: Option<Text>, groqKey2: Option<Text>, geminiKey: Option<Text>): (r: seq<Provider>)
    ensures |r| == 4
    ensures r[3].isGemini && !r[0].isGemini && !r[1].isGemini && !r[2].isGemini
  {
    [Provider(Lit("OpenRouter"), openRouterKey, false),
     Provider(Lit("Groq-1"), groqKey1, false),
     Provider(Lit("Groq-2"), groqKey2, false),
     Provider(Lit("Gemini"), geminiKey, true)]
  }

  /** A provider that is configured and answered with a non-empty text. */
  predicate Answers(p: Provider, r: ProviderResult)
  {
    Truthy(p.key) && r.Responded? && Truthy(r.content)
  }

  /**
   * The provider loop: providers without a key are skipped, a thrown request
   * moves on, and the first non-empty answer ends the loop. `contacted` lists
   * the providers a request was sent to.
   */
  method QueryProviders(providers: seq<Provider>, results: seq<ProviderResult>)
    returns (aiResponse: Option<Text>, usedProvider: Option<Text>, contacted: seq<nat>)
    requires |results| == |providers|
    ensures Truthy(aiResponse) <==> exists i :: 0 <= i < |providers| && Answers(providers[i], results[i])
    ensures Truthy(aiResponse) ==> exists i :: (0 <= i < |providers| && Answers(providers[i], results[i])
      && (forall j :: 0 <= j < i ==> !Answers(providers[j], results[j]))
      && aiResponse == results[i].content && usedProvider == Some(providers[i].name))
    ensures forall k :: k in contacted <==>
      0 <= k < |providers| && Truthy(providers[k].key)
      && forall j :: 0 <= j < k ==> !Answers(providers[j], results[j])
    ensures forall a, b :: 0 <= a < b < |contacted| ==> contacted[a] < contacted[b]
  {
    aiResponse, usedProvider, contacted := None, None, [];
    var i := 0;
    while i < |providers|
      invariant 0 <= i <= |providers|
      invariant forall j :: 0 <= j < i ==> !Answers(providers[j], results[j])
      invariant !Truthy(aiResponse)
      invariant forall k :: k in contacted <==> 0 <= k < i && Truthy(providers[k].key)
      invariant forall a, b :: 0 <= a < b < |contacted| ==> contacted[a] < contacted[b]
      invariant forall a :: 0 <= a < |contacted| ==> contacted[a] < i
    {
      var p := providers[i];
      if !Truthy(p.key) {
        i := i + 1;
        continue;
      }
      contacted := contacted + [i];
      if results[i].Responded? {
        aiResponse := results[i].content;
        usedProvider := Some(p.name);
        if Truthy(aiResponse) {
          assert Answers(providers[i], results[i]);
          return;
        }
      }
      i := i + 1;
    }
  }

  // ---------------------------------------------------------------------------
  // The Gemini request body

  datatype GeminiContent = GeminiContent(role: Text, text: Text)

  /** History roles map to Gemini's: 'assistant' becomes 'model', every other role 'user'. */
  predicate IsAssistant(m: ChatMessage)
  {
    m.role == Lit("assistant")
  }

  function GeminiRole(m: ChatMessage): Text
  {
    if IsAssistant(m) then Lit("model") else Lit("user")
  }

  /** The index of the first message that Gemini sees as the user's. */
  function FirstUserIndex(h: seq<ChatMessage>): (r: Option<nat>)
    ensures r.Some? ==> (r.value < |h| && !IsAssistant(h[r.value])
      && forall j :: 0 <= j < r.value ==> IsAssistant(h[j]))
    ensures r.None? ==> forall j :: 0 <= j < |h| ==> IsAssistant(h[j])
  {
    if h == [] then None
    else if !IsAssistant(h[0]) then Some(0)
    else
      var r := FirstUserIndex(h[1..]);
      assert forall j :: 1 <= j < |h| ==> h[j] == h[1..][j - 1];
      if r.Some? then Some(r.value + 1) else None
  }

  /** The entry for history message `j`: its mapped role, and the system prompt before the first user message. */
  function ContentAt(h: seq<ChatMessage>, systemPrompt: Text, j: nat): GeminiContent
    requires j < |h|
  {
    GeminiContent(GeminiRole(h[j]),
                  if FirstUserIndex(h) == Some(j) then systemPrompt + Lit("\n\n") + h[j].content else h[j].content)
  }

  /**
   * The contents, stated declaratively: one entry per history message in
   * order, and a greeting user message carrying the system prompt added when
   * no message is the user's.
   */
  function GeminiContents(h: seq<ChatMessage>, systemPrompt: Text): seq<GeminiContent>
  {
    HistoryContents(h, systemPrompt)
    + (if FirstUserIndex(h).None? then [GeminiContent(Lit("user"), systemPrompt + Lit("\n\nHello"))] else [])
  }

  /** The entries for the history messages, one per message in order. */
  function HistoryContents(h: seq<ChatMessage>, systemPrompt: Text): (r: seq<GeminiContent>)
    ensures |r| == |h|
    ensures forall j :: 0 <= j < |h| ==> r[j] == ContentAt(h, systemPrompt, j)
  {
    seq(|h|, j requires 0 <= j < |h| => ContentAt(h, systemPrompt, j))
  }

  /** The source's loop with its `isFirst` flag. */
  method BuildGeminiContents(h: seq<ChatMessage>, systemPrompt: Text) returns (contents: seq<GeminiContent>)
    ensures contents == GeminiContents(h, systemPrompt)
  {
    ghost var first := FirstUserIndex(h);
    contents := [];
    var isFirst := true;
    var i := 0;
    while i < |h|
      invariant 0 <= i <= |h|
      invariant |contents| == i
      invariant isFirst <==> (first.None? || first.value >= i)
      invariant forall j :: 0 <= j < i ==> contents[j] == ContentAt(h, systemPrompt, j)
    {
      ContentStep(h, systemPrompt, i, isFirst);
      var role := GeminiRole(h[i]);
      var text := h[i].content;
      if isFirst && !IsAssistant(h[i]) {
        text := systemPrompt + Lit("\n\n") + text;
        isFirst := false;
      }
      contents := contents + [GeminiContent(role, text)];
      i := i + 1;
    }
    assert contents == HistoryContents(h, systemPrompt);
    if isFirst {
      contents := contents + [GeminiContent(Lit("user"), systemPrompt + Lit("\n\nHello"))];
    }
  }

  /**
   * One turn of the loop: while no user message has been met the flag is set,
   * and the entry gets the prompt exactly at the first user message.
   */
  lemma ContentStep(h: seq<ChatMessage>, systemPrompt: Text, i: nat, isFirst: bool)
    requires i < |h|
    requires isFirst <==> (FirstUserIndex(h).None? || FirstUserIndex(h).value >= i)
    ensures ContentAt(h, systemPrompt, i) == GeminiContent(GeminiRole(h[i]),
      if isFirst && !IsAssistant(h[i]) then systemPrompt + Lit("\n\n") + h[i].content else h[i].content)
    ensures (isFirst && IsAssistant(h[i])) <==> (FirstUserIndex(h).None? || FirstUserIndex(h).value >= i + 1)
  {
    if isFirst && !IsAssistant(h[i]) {
      FirstUserFound(h, i);
    }
  }

  /** A user message at or before the first user message is the first one. */
  lemma FirstUserFound(h: seq<ChatMessage>, i: nat)
    requires i < |h| && !IsAssistant(h[i])
    requires FirstUserIndex(h).None? || FirstUserIndex(h).value >= i
    ensures FirstUserIndex(h) == Some(i)
  {
  }

  // ---------------------------------------------------------------------------
  // Replies

  /** `text.match(/.{1,n}/gs)`: successive pieces of n code units, the last one possibly shorter. */
  function Chunks(t: Text, n: nat): (r: seq<Text>)
    requires n > 0
    ensures Concat(r) == t
    ensures forall i :: 0 <= i < |r| ==> 1 <= |r[i]| <= n
    ensures forall i :: 0 <= i < |r| - 1 ==> |r[i]| == n
    decreases |t|
  {
    if t == [] then []
    else if |t| <= n then
      assert Concat([t]) == t + Concat([t][1..]);
      [t]
    else
      var rest := Chunks(t[n..], n);
      assert ([t[..n]] + rest)[1..] == rest;
      assert t == t[..n] + t[n..];
      [t[..n]] + rest
  }

  /**
   * There are as many chunks as pieces of n code units needed to cover the
   * text: k chunks cover at most k * n units, and one fewer would not do.
   */
  lemma {:induction false} ChunkCount(t: Text, n: nat)
    requires n > 0
    ensures |t| <= |Chunks(t, n)| * n
    ensures Chunks(t, n) != [] ==> (|Chunks(t, n)| - 1) * n < |t|
    ensures Chunks(t, n) == [] <==> t == []
    decreases |t|
  {
    if t != [] && |t| > n {
      ChunkCount(t[n..], n);
      var k := |Chunks(t[n..], n)|;
      assert |Chunks(t, n)| == k + 1;
      assert (k + 1) * n == k * n + n;
      assert k * n == (k - 1) * n + n;
    }
  }

  /** The messages a reply is sent as. */
  function ReplyMessages(aiResponse: Text): seq<Text>
  {
    if |aiResponse| > ChunkThreshold then Chunks(aiResponse, ChunkSize) else [aiResponse]
  }

  /** A long reply is sent whole and in order, and every message fits Discord's 2000-unit limit. */
  lemma ReplyMessagesFit(aiResponse: Text)
    requires aiResponse != []
    ensures Concat(ReplyMessages(aiResponse)) == aiResponse
    ensures forall i :: 0 <= i < |ReplyMessages(aiResponse)| ==> 1 <= |ReplyMessages(aiResponse)[i]| <= ChunkThreshold
    ensures |aiResponse| <= ChunkThreshold ==> ReplyMessages(aiResponse) == [aiResponse]
  {
    if |aiResponse| <= ChunkThreshold {
      assert Concat([aiResponse]) == aiResponse + Concat([aiResponse][1..]);
    }
  }

  /** The messages the handler sends: the reply when some provider answered, else the failure notice. */
  function ChatReplies(aiResponse: Option<Text>): (r: seq<Text>)
    ensures !Truthy(aiResponse) ==> r == [Lit("❌ All AI providers failed.")]
    ensures Truthy(aiResponse) ==> Concat(r) == aiResponse.value
  {
    if Truthy(aiResponse) then
      ReplyMessagesFit(aiResponse.value);
      ReplyMessages(aiResponse.value)
    else [Lit("❌ All AI providers failed.")]
  }

  /** A regenerated reply longer than 1900 code units is cut to 1900 and '...' is appended. */
  function TruncateRegenerated(r: Text): (t: Text)
    ensures |r| <= RegenerateLimit ==> t == r
    ensures |r| > RegenerateLimit ==>
      |t| == RegenerateLimit + 3 && t[..RegenerateLimit] == r[..RegenerateLimit] && t[RegenerateLimit..] == Lit("...")
    ensures |t| <= RegenerateLimit + 3
  {
    if |r| > RegenerateLimit then r[..RegenerateLimit] + Lit("...") else r
  }
}
