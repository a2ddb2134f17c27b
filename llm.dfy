// The pure parts of the LLM service (src/service/llm_service.py): the token
// estimate, the conversion of messages to the chat API's dictionaries, the
// extraction of a JSON body from a fenced reply, and the prompt list that the
// chat and role-play modules assemble from a conversation's history.  The
// HTTP calls themselves are not part of this model.

module Llm {
  import opened Common
  import opened Models

  /** A message in the chat API's form: a `dict[str, str]`. */
  type ApiMessage = map<string, string>

  /** An element of the `list[ChatMessage] | list[dict]` the service accepts;
      `OtherInput` stands for any other Python object found in the list. */
  datatype LlmInput = DictInput(fields: ApiMessage) | ChatInput(message: ChatMessage) | OtherInput

  const ATTRIBUTE_ERROR := "AttributeError: object has no attribute 'content'"

  function Entry(role: string, content: string): (r: ApiMessage)
    ensures "role" in r && "content" in r && r["role"] == role && r["content"] == content
  {
    map["role" := role, "content" := content]
  }

  // ---------------------------------------------------------------------------
  // Token estimate
  // ---------------------------------------------------------------------------

  /** A character of the CJK Unified Ideographs block, U+4E00 to U+9FFF. */
  predicate IsCjk(c: char)
  {
    '一' <= c <= '鿿'
  }

  /** The number of CJK ideographs in `s`. */
  function CountCjk(s: string): (n: nat)
    ensures n <= |s|
  {
    if s == [] then 0 else CountCjk(s[..|s| - 1]) + (if IsCjk(s[|s| - 1]) then 1 else 0)
  }

  /** `estimate_tokens`: one token per ideograph, one per four other
      characters (rounded down), plus one. */
  function EstimateTokens(text: string): (r: nat)
    ensures 1 <= r <= |text| + 1
    ensures |text| / 4 + 1 <= r
  {
    var cjk := CountCjk(text);
    cjk + (|text| - cjk) / 4 + 1
  }

  lemma {:induction false} CountCjkAppend(a: string, b: string)
    ensures CountCjk(a + b) == CountCjk(a) + CountCjk(b)
    decreases |b|
  {
    if b == [] {
      assert a + b == a;
    } else {
      assert (a + b)[..|a + b| - 1] == a + b[..|b| - 1];
      CountCjkAppend(a, b[..|b| - 1]);
    }
  }

  lemma {:induction false} CountCjkAll(s: string)
    requires forall i :: 0 <= i < |s| ==> IsCjk(s[i])
    ensures CountCjk(s) == |s|
  {
    if s != [] {
      CountCjkAll(s[..|s| - 1]);
    }
  }

  lemma {:induction false} CountCjkNone(s: string)
    requires forall i :: 0 <= i < |s| ==> !IsCjk(s[i])
    ensures CountCjk(s) == 0
  {
    if s != [] {
      CountCjkNone(s[..|s| - 1]);
    }
  }

  /** Text made only of ideographs costs one token per character, plus one. */
  lemma EstimateAllCjk(text: string)
    requires forall i :: 0 <= i < |text| ==> IsCjk(text[i])
    ensures EstimateTokens(text) == |text| + 1
  {
    CountCjkAll(text);
  }

  /** Text without ideographs costs a quarter token per character, plus one. */
  lemma EstimateNoCjk(text: string)
    requires forall i :: 0 <= i < |text| ==> !IsCjk(text[i])
    ensures EstimateTokens(text) == |text| / 4 + 1
  {
    CountCjkNone(text);
  }

  /** The documented examples: four ideographs give 5, eleven Latin
      characters give 3, two ideographs after five Latin letters give 4. */
  lemma EstimateExamples()
    ensures EstimateTokens("你好世界") == 5
    ensures EstimateTokens("Hello world") == 3
    ensures EstimateTokens("Hello世界") == 4
  {
    EstimateAllCjk("你好世界");
    EstimateNoCjk("Hello world");
    assert "Hello世界" == "Hello" + "世界";
    CountCjkAppend("Hello", "世界");
    CountCjkNone("Hello");
    CountCjkAll("世界");
  }

  // ---------------------------------------------------------------------------
  // Message-list token estimate
  // ---------------------------------------------------------------------------

  predicate Estimable(messages: seq<LlmInput>)
  {
    forall i :: 0 <= i < |messages| ==> !messages[i].OtherInput?
  }

  /** The text the estimate reads: `msg.get("content", "")` for a dict,
      `msg.content` for a message. */
  function ContentOf(m: LlmInput): string
    requires !m.OtherInput?
  {
    match m
    case DictInput(fields) => if "content" in fields then fields["content"] else ""
    case ChatInput(message) => message.content
  }

  /** The sum of the contents' estimates. */
  function TokensSum(messages: seq<LlmInput>): (r: nat)
    requires Estimable(messages)
    ensures r >= |messages|
  {
    if messages == [] then 0
    else TokensSum(messages[..|messages| - 1]) + EstimateTokens(ContentOf(messages[|messages| - 1]))
  }

  /** `estimate_messages_tokens` when every element has a content. */
  function MessagesTokens(messages: seq<LlmInput>): nat
    requires Estimable(messages)
  {
    TokensSum(messages) + 4 * |messages|
  }

  lemma {:induction false} TokensSumAppend(a: seq<LlmInput>, b: seq<LlmInput>)
    requires Estimable(a) && Estimable(b)
    ensures Estimable(a + b) && TokensSum(a + b) == TokensSum(a) + TokensSum(b)
    decreases |b|
  {
    if b == [] {
      assert a + b == a;
    } else {
      assert (a + b)[..|a + b| - 1] == a + b[..|b| - 1];
      TokensSumAppend(a, b[..|b| - 1]);
    }
  }

  /** The estimate of a list is the sum of the estimates of its parts. */
  lemma MessagesTokensAppend(a: seq<LlmInput>, b: seq<LlmInput>)
    requires Estimable(a) && Estimable(b)
    ensures Estimable(a + b) && MessagesTokens(a + b) == MessagesTokens(a) + MessagesTokens(b)
  {
    TokensSumAppend(a, b);
  }

  /** Every message costs at least five tokens: one for its content, four of overhead. */
  lemma MessagesTokensLower(messages: seq<LlmInput>)
    requires Estimable(messages)
    ensures MessagesTokens(messages) >= 5 * |messages|
  {
  }

  /** `estimate_messages_tokens`: a running total over the list; an element
      that is neither a dict nor a message has no `content` and raises. */
  method EstimateMessagesTokens(messages: seq<LlmInput>) returns (r: Outcome<nat>)
    ensures r.Raised? <==> !Estimable(messages)
    ensures r.Ok? ==> Estimable(messages) && r.value == MessagesTokens(messages)
  {
    var total := 0;
    for k := 0 to |messages|
      invariant Estimable(messages[..k])
      invariant total == TokensSum(messages[..k])
    {
      if messages[k].OtherInput? {
        return Raised(ATTRIBUTE_ERROR);
      }
      assert messages[..k + 1][..k] == messages[..k];
      total := total + EstimateTokens(ContentOf(messages[k]));
    }
    assert messages[..|messages|] == messages;
    r := Ok(total + |messages| * 4);
  }

  // ---------------------------------------------------------------------------
  // Conversion to the API form
  // ---------------------------------------------------------------------------

  /** One element in the API form: a dict as it is, a message as its role
      value and content, anything else dropped. */
  function ApiForm(m: LlmInput): (r: Option<ApiMessage>)
    ensures r.None? <==> m.OtherInput?
  {
    match m
    case DictInput(fields) => Some(fields)
    case ChatInput(message) => Some(Entry(RoleValue(message.role), message.content))
    case OtherInput => None
  }

  /** `_convert_messages`. */
  function Converted(messages: seq<LlmInput>): (r: seq<ApiMessage>)
    ensures |r| <= |messages|
  {
    if messages == [] then []
    else
      var last := ApiForm(messages[|messages| - 1]);
      Converted(messages[..|messages| - 1]) + (if last.Some? then [last.value] else [])
  }

  /** Conversion works element by element, so it keeps the order of the input. */
  lemma {:induction false} ConvertedAppend(a: seq<LlmInput>, b: seq<LlmInput>)
    ensures Converted(a + b) == Converted(a) + Converted(b)
    decreases |b|
  {
    if b == [] {
      assert a + b == a;
    } else {
      assert (a + b)[..|a + b| - 1] == a + b[..|b| - 1];
      ConvertedAppend(a, b[..|b| - 1]);
    }
  }

  /** With no foreign element, nothing is dropped and each element keeps its place. */
  lemma {:induction false} ConvertedPointwise(messages: seq<LlmInput>)
    requires Estimable(messages)
    ensures |Converted(messages)| == |messages|
    ensures forall i :: 0 <= i < |messages| ==> Converted(messages)[i] == ApiForm(messages[i]).value
  {
    if messages != [] {
      ConvertedPointwise(messages[..|messages| - 1]);
    }
  }

  /** Foreign elements are dropped and leave no trace. */
  lemma {:induction false} ConvertedOnlyForeign(messages: seq<LlmInput>)
    requires forall i :: 0 <= i < |messages| ==> messages[i].OtherInput?
    ensures Converted(messages) == []
  {
    if messages != [] {
      ConvertedOnlyForeign(messages[..|messages| - 1]);
    }
  }

  /** `_convert_messages` as the loop it is. */
  method ConvertMessages(messages: seq<LlmInput>) returns (r: seq<ApiMessage>)
    ensures r == Converted(messages)
  {
    r := [];
    for k := 0 to |messages|
      invariant r == Converted(messages[..k])
    {
      assert messages[..k + 1][..k] == messages[..k];
      match messages[k]
      case DictInput(fields) =>
        r := r + [fields];
      case ChatInput(message) =>
        r := r + [Entry(RoleValue(message.role), message.content)];
      case OtherInput =>
    }
    assert messages[..|messages|] == messages;
  }

  // ---------------------------------------------------------------------------
  // Prompt assembly shared by the chat and role-play modules
  // ---------------------------------------------------------------------------

  /** The history in the API form, without its SYSTEM-role messages. */
  function Transcript(history: seq<ChatMessage>): (r: seq<ApiMessage>)
    ensures |r| <= |history|
    ensures forall i :: 0 <= i < |r| ==> "role" in r[i] && r[i]["role"] != "system"
  {
    if history == [] then []
    else
      var last := history[|history| - 1];
      Transcript(history[..|history| - 1]) +
      (if last.role != SystemRole then [Entry(RoleValue(last.role), last.content)] else [])
  }

  lemma {:induction false} TranscriptAppend(a: seq<ChatMessage>, b: seq<ChatMessage>)
    ensures Transcript(a + b) == Transcript(a) + Transcript(b)
    decreases |b|
  {
    if b == [] {
      assert a + b == a;
    } else {
      assert (a + b)[..|a + b| - 1] == a + b[..|b| - 1];
      TranscriptAppend(a, b[..|b| - 1]);
    }
  }

  /** A history without SYSTEM messages is passed on whole and in order. */
  lemma {:induction false} TranscriptKeepsConversation(history: seq<ChatMessage>)
    requires forall i :: 0 <= i < |history| ==> history[i].role != SystemRole
    ensures |Transcript(history)| == |history|
    ensures forall i :: 0 <= i < |history| ==>
      Transcript(history)[i] == Entry(RoleValue(history[i].role), history[i].content)
  {
    if history != [] {
      TranscriptKeepsConversation(history[..|history| - 1]);
    }
  }

  /** The prompt list: the system prompt, the history without its SYSTEM
      messages, then the user's message. */
  function PromptList(systemPrompt: string, history: seq<ChatMessage>, userMessage: string): (r: seq<ApiMessage>)
    ensures |r| >= 2 && r[0] == Entry("system", systemPrompt) && r[|r| - 1] == Entry("user", userMessage)
    ensures r[1..|r| - 1] == Transcript(history)
    ensures forall i :: 0 < i < |r| ==> "role" in r[i] && r[i]["role"] != "system"
  {
    [Entry("system", systemPrompt)] + Transcript(history) + [Entry("user", userMessage)]
  }

  /** The loop that appends the history to the list begun with the system prompt. */
  method AppendHistory(messages: seq<ApiMessage>, history: seq<ChatMessage>) returns (r: seq<ApiMessage>)
    ensures r == messages + Transcript(history)
  {
    r := messages;
    for k := 0 to |history|
      invariant r == messages + Transcript(history[..k])
    {
      assert history[..k + 1][..k] == history[..k];
      if history[k].role != SystemRole {
        r := r + [Entry(RoleValue(history[k].role), history[k].content)];
      }
    }
    assert history[..|history|] == history;
  }

  // ---------------------------------------------------------------------------
  // JSON extraction from a fenced reply
  // ---------------------------------------------------------------------------

  const JSON_FENCE := "```json"
  const FENCE := "```"

  /** `text.find(needle)`, absent instead of -1. */
  function IndexOf(text: string, needle: string): (r: Option<nat>)
    ensures r.Some? ==> r.value + |needle| <= |text|
    decreases |text|
  {
    if StartsWith(text, needle) then Some(0)
    else if text == [] then None
    else
      var rest := IndexOf(text[1..], needle);
      if rest.None? then None else Some(rest.value + 1)
  }

  /** `IndexOf` finds the first occurrence, and finds none only when there is none. */
  lemma {:induction false} IndexOfFirst(text: string, needle: string)
    ensures var r := IndexOf(text, needle);
      (r.Some? ==> OccursAt(text, needle, r.value) && forall j :: 0 <= j < r.value ==> !OccursAt(text, needle, j)) &&
      (r.None? ==> forall j :: !OccursAt(text, needle, j))
    decreases |text|
  {
    if text != [] {
      ShiftOccurrence(text, needle);
      if !StartsWith(text, needle) {
        IndexOfFirst(text[1..], needle);
      }
    }
  }

  lemma ShiftOccurrence(text: string, needle: string)
    requires text != []
    ensures forall j :: 0 <= j ==> (OccursAt(text[1..], needle, j) <==> OccursAt(text, needle, j + 1))
    ensures forall j :: 1 <= j ==> (OccursAt(text, needle, j) <==> OccursAt(text[1..], needle, j - 1))
    ensures OccursAt(text, needle, 0) <==> StartsWith(text, needle)
  {
    forall j | 0 <= j
      ensures OccursAt(text[1..], needle, j) <==> OccursAt(text, needle, j + 1)
    {
      if j <= |text| - 1 - |needle| {
        assert text[1..][j..j + |needle|] == text[j + 1..j + 1 + |needle|];
      }
    }
  }

  /** `needle in text` holds exactly when `find` succeeds. */
  lemma ContainsIndexOf(text: string, needle: string)
    ensures Contains(text, needle) <==> IndexOf(text, needle).Some?
  {
    ContainsIffWindow(text, needle);
    IndexOfFirst(text, needle);
  }

  /** `text.split(sep)[0]`. */
  function Head(text: string, sep: string): (r: string)
    ensures StartsWith(text, r)
  {
    match IndexOf(text, sep)
    case None => text
    case Some(i) => text[..i]
  }

  /** What follows the first `sep`. */
  function After(text: string, sep: string): (r: string)
    requires IndexOf(text, sep).Some?
    ensures |r| <= |text|
  {
    text[IndexOf(text, sep).value + |sep|..]
  }

  /** `text.split(sep)[1]`, for a `text` that holds `sep`. */
  function Second(text: string, sep: string): string
    requires IndexOf(text, sep).Some?
  {
    Head(After(text, sep), sep)
  }

  /** The JSON text `classify_intent` hands to `json.loads`: the stripped reply,
      or the stripped part after its first "```json" (else "```") up to the
      next "```". */
  function ExtractJsonText(response: string): string
  {
    var t := Strip(response);
    ContainsIndexOf(t, JSON_FENCE);
    ContainsIndexOf(t, FENCE);
    if Contains(t, JSON_FENCE) then Strip(Head(Second(t, JSON_FENCE), FENCE))
    else if Contains(t, FENCE) then Strip(Head(Second(t, FENCE), FENCE))
    else t
  }

  /** A reply without any fence is only stripped. */
  lemma ExtractWithoutFence(response: string)
    requires !Contains(Strip(response), FENCE)
    ensures ExtractJsonText(response) == Strip(response)
  {
    var t := Strip(response);
    ContainsIffWindow(t, JSON_FENCE);
    ContainsIffWindow(t, FENCE);
    if Contains(t, JSON_FENCE) {
      var i :| OccursAt(t, JSON_FENCE, i);
      assert t[i..i + 3] == t[i..i + 7][..3];
      assert OccursAt(t, FENCE, i);
    }
  }

  /** Searching past a prefix with no backtick for a needle that begins with one. */
  lemma {:induction false} IndexOfPastPlain(body: string, tail: string, needle: string)
    requires needle != [] && needle[0] == '`'
    requires forall i :: 0 <= i < |body| ==> body[i] != '`'
    ensures IndexOf(body + tail, needle) ==
      match IndexOf(tail, needle) case None => None case Some(i) => Some(|body| + i)
    decreases |body|
  {
    if body != [] {
      assert !StartsWith(body + tail, needle) by {
        assert (body + tail)[0] == body[0];
      }
      assert (body + tail)[1..] == body[1..] + tail;
      IndexOfPastPlain(body[1..], tail, needle);
    } else {
      assert body + tail == tail;
    }
  }

  lemma ClosingFence()
    ensures IndexOf(FENCE, FENCE) == Some(0)
    ensures IndexOf(FENCE, JSON_FENCE).None?
  {
    assert !StartsWith(FENCE[1..][1..], JSON_FENCE);
  }

  /** A reply that is exactly a "```json" block yields its stripped body. */
  lemma JsonFenceRoundTrip(body: string)
    requires forall i :: 0 <= i < |body| ==> body[i] != '`'
    ensures ExtractJsonText(JSON_FENCE + body + FENCE) == Strip(body)
  {
    var t := JSON_FENCE + body + FENCE;
    StripFixpoint(t);
    assert StartsWith(t, JSON_FENCE);
    assert IndexOf(t, JSON_FENCE) == Some(0);
    assert After(t, JSON_FENCE) == body + FENCE;
    ClosingFence();
    IndexOfPastPlain(body, FENCE, JSON_FENCE);
    IndexOfPastPlain(body, FENCE, FENCE);
    assert Second(t, JSON_FENCE) == body + FENCE;
    assert (body + FENCE)[..|body|] == body;
  }

  /** A reply that is exactly a plain "```" block yields its stripped body,
      unless the body itself begins with "json". */
  lemma PlainFenceRoundTrip(body: string)
    requires forall i :: 0 <= i < |body| ==> body[i] != '`'
    requires !StartsWith(body, "json")
    ensures ExtractJsonText(FENCE + body + FENCE) == Strip(body)
  {
    var t := FENCE + body + FENCE;
    StripFixpoint(t);
    ClosingFence();
    IndexOfPastPlain(body, FENCE, JSON_FENCE);
    IndexOfPastPlain(body, FENCE, FENCE);
    NoJsonFence(body);
    ContainsIndexOf(t, JSON_FENCE);
    assert StartsWith(t, FENCE);
    assert IndexOf(t, FENCE) == Some(0);
    assert After(t, FENCE) == body + FENCE;
    assert body + FENCE == body + FENCE + [];
    IndexOfPastPlain(body, [], FENCE);
    assert body + [] == body;
    assert Second(t, FENCE) == body;
  }

  lemma NoJsonFence(body: string)
    requires forall i :: 0 <= i < |body| ==> body[i] != '`'
    requires !StartsWith(body, "json")
    requires IndexOf(body + FENCE, JSON_FENCE).None?
    ensures IndexOf(FENCE + body + FENCE, JSON_FENCE).None?
  {
    var rest := body + FENCE;
    NotOpenedAtLaterTick("`" + rest, body);
    PrependTick(rest);
    NotOpenedAtLaterTick("`" + ("`" + rest), body);
    PrependTick("`" + rest);
    NotOpenedAtFirstTick(body);
    FenceTicks(body);
    PrependTick("`" + ("`" + rest));
  }

  lemma FenceTicks(body: string)
    ensures FENCE + body + FENCE == "`" + ("`" + ("`" + (body + FENCE)))
  {
    assert FENCE == ['`', '`', '`'];
    assert FENCE + body + FENCE == FENCE + (body + FENCE);
    var rest := body + FENCE;
    assert FENCE + rest == "`" + ("`" + ("`" + rest)) by {
      assert forall k :: 0 <= k < |FENCE + rest| ==> (FENCE + rest)[k] == ("`" + ("`" + ("`" + rest)))[k];
    }
  }

  /** A tick in front of a text without "```json" adds an occurrence only if the result begins with one. */
  lemma PrependTick(x: string)
    requires IndexOf(x, JSON_FENCE).None?
    ensures !StartsWith("`" + x, JSON_FENCE) ==> IndexOf("`" + x, JSON_FENCE).None?
  {
    assert ("`" + x)[1..] == x;
  }

  /** Where the text does not begin with the needle, the search goes on one character later. */
  lemma SkipNonMatch(text: string, needle: string)
    requires text != [] && !StartsWith(text, needle)
    ensures IndexOf(text, needle).None? <==> IndexOf(text[1..], needle).None?
  {
  }

  /** "```" + body + "```" does not begin with "```json". */
  lemma NotOpenedAtFirstTick(body: string)
    requires forall i :: 0 <= i < |body| ==> body[i] != '`'
    requires !StartsWith(body, "json")
    ensures !StartsWith(FENCE + body + FENCE, JSON_FENCE)
  {
    var t := FENCE + body + FENCE;
    assert StartsWith(t, JSON_FENCE) ==> t[3..7] == JSON_FENCE[3..7];
    if |body| >= 4 {
      assert t[3..7] == body[..4];
    } else {
      assert t[3 + |body|] == '`' && JSON_FENCE[3 + |body|] != '`';
    }
  }

  /** A string with one or two ticks and then the plain body does not begin with "```json". */
  lemma NotOpenedAtLaterTick(t: string, body: string)
    requires forall i :: 0 <= i < |body| ==> body[i] != '`'
    requires t == "`" + ("`" + (body + FENCE)) || t == "`" + (body + FENCE)
    ensures !StartsWith(t, JSON_FENCE)
  {
    var k := if t == "`" + ("`" + (body + FENCE)) then 2 else 1;
    assert t[k..] == body + FENCE;
    if body != [] {
      assert t[k] == body[0];
    }
  }
}
