/**
 * The conversation controller (CopilotPanel): the append-only message list, the one-request-at-a-time
 * send turn, the capped query history, the keyword category classifier and the
 * `VISUALIZATION:` response parser.
 */
module Copilot {
  import opened Wrappers
  import opened Strings
  import opened Seqs
  import opened Json
  import opened Entities
  import opened Base44
  import opened Thinking
  import opened Classifier

  // ---------------------------------------------------------------- query history

  const HistoryCap: nat := 50

  /** The history after one more query: the new entry goes last and only the newest 50 are kept. */
  function RecordQuery(history: seq<HistoryEntry>, entry: HistoryEntry): (r: seq<HistoryEntry>)
    ensures |r| == if |history| < HistoryCap then |history| + 1 else HistoryCap
    ensures r[|r| - 1] == entry
    ensures r[..|r| - 1] == history[|history| + 1 - |r|..]
  {
    var h := LastN(history + [entry], HistoryCap);
    assert h == (history + [entry])[|history| + 1 - |h|..];
    assert h[..|h| - 1] == (history + [entry])[|history| + 1 - |h|..|history|];
    h
  }

  /** The history after a run of queries, one `RecordQuery` each, oldest first. */
  function RecordAll(history: seq<HistoryEntry>, entries: seq<HistoryEntry>): seq<HistoryEntry>
    decreases |entries|
  {
    if entries == [] then history
    else RecordQuery(RecordAll(history, entries[..|entries| - 1]), entries[|entries| - 1])
  }

  /** However many queries are recorded, the history holds exactly the newest 50 of everything. */
  lemma {:induction false} RecordAllKeepsNewest(history: seq<HistoryEntry>, entries: seq<HistoryEntry>)
    requires entries != []
    ensures RecordAll(history, entries) == LastN(history + entries, HistoryCap)
    decreases |entries|
  {
    var init := entries[..|entries| - 1];
    var last := entries[|entries| - 1];
    assert history + entries == (history + init) + [last];
    if init == [] {
      assert history + init == history;
      LastNAppend(history, last, HistoryCap);
      if |history| <= HistoryCap { } else {
        assert LastN(history, HistoryCap) + [last] == history[|history| - HistoryCap..] + [last];
      }
    } else {
      RecordAllKeepsNewest(history, init);
      LastNAppend(history + init, last, HistoryCap);
    }
  }

  /** From an empty history, a run of at least fifty queries leaves exactly the last fifty of them. */
  lemma RecordAllOverflow(entries: seq<HistoryEntry>)
    requires |entries| >= HistoryCap
    ensures RecordAll([], entries) == entries[|entries| - HistoryCap..]
  {
    RecordAllKeepsNewest([], entries);
    assert [] + entries == entries;
    var kept := LastN(entries, HistoryCap);
    assert |kept| == HistoryCap;
  }

  /** The record written for a first query: its history holds only that entry. */
  function FreshPreference(entry: HistoryEntry): UserPreference {
    UserPreference(0, "", [entry], [], [])
  }

  /**
   * What a completed history write leaves in the store: the user's first record rewritten with
   * the new entry recorded, or, when the user has none, a new record holding only that entry.
   */
  ghost predicate HistorySaved(before: seq<UserPreference>, after: seq<UserPreference>, email: string, entry: HistoryEntry) {
    var mine := OwnedBy(before, email);
    if mine != [] then
      after == ReplaceById(before, mine[0].id, mine[0].(queryHistory := RecordQuery(mine[0].queryHistory, entry)))
    else
      after == before + [UserPreference(|before|, email, [entry], [], [])]
  }

  // ---------------------------------------------------------------- response parser

  const Delimiter: string := "VISUALIZATION:"

  /** The result of parsing a reply: the text to show, the decoded directive, and whether decoding succeeded. */
  datatype Parsed = Parsed(content: Json, visualization: Option<Json>, decoded: bool)

  /** The text between the first delimiter and the next one, or the end: `split(...)[1]`. */
  function SegmentAfterFirst(s: string): string
    requires Contains(s, Delimiter)
  {
    var rest := s[IndexOf(s, Delimiter).value + |Delimiter|..];
    match IndexOf(rest, Delimiter)
    case None => rest
    case Some(m) => rest[..m]
  }

  /**
   * The parse step of a chat turn. A reply that is not a string, or has no delimiter, is shown
   * verbatim with no directive. Otherwise the text before the first delimiter (trimmed) is shown,
   * and the trimmed segment up to the second delimiter is handed to the JSON decoder `decode`;
   * a decoding failure just leaves no directive.
   */
  function ParseResponse(response: Json, decode: string -> Option<Json>): (p: Parsed)
    ensures !(response.JString? && Contains(response.s, Delimiter)) ==> p == Parsed(response, None, false)
    ensures response.JString? && Contains(response.s, Delimiter) ==> (
      && p.content == JString(Trim(response.s[..IndexOf(response.s, Delimiter).value]))
      && p.visualization == decode(Trim(SegmentAfterFirst(response.s)))
      && (p.decoded <==> p.visualization.Some?))
  {
    if response.JString? && Contains(response.s, Delimiter) then
      var parts := Split(response.s, Delimiter);
      SecondPiece(response.s, Delimiter);
      var v := decode(Trim(parts[1]));
      Parsed(JString(Trim(parts[0])), v, v.Some?)
    else
      Parsed(response, None, false)
  }

  /** In "A VISUALIZATION: B" with one delimiter, the delimiter is found right after A. */
  lemma {:induction false} DelimiterAfter(a: string, b: string)
    requires !Contains(a, Delimiter)
    ensures IndexOf(a + Delimiter + b, Delimiter) == Some(|a|)
  {
    var s := a + Delimiter + b;
    assert OccursAt(s, Delimiter, |a|) by {
      assert s[|a|..|a| + |Delimiter|] == Delimiter;
    }
    forall j | 0 <= j < |a|
      ensures !OccursAt(s, Delimiter, j)
    {
      if j + |Delimiter| <= |a| {
        assert s[j..j + |Delimiter|] == a[j..j + |Delimiter|];
        assert !OccursAt(a, Delimiter, j);
        assert !OccursAt(s, Delimiter, j);
      } else {
        // The ':' that ends the delimiter would fall inside the delimiter that follows A.
        var p := j + |Delimiter| - 1;
        assert s[p] == Delimiter[p - |a|];
        assert forall i :: 0 <= i < |Delimiter| - 1 ==> Delimiter[i] != ':';
        assert Delimiter[p - |a|] != ':';
        assert s[j..j + |Delimiter|][|Delimiter| - 1] != Delimiter[|Delimiter| - 1];
        assert !OccursAt(s, Delimiter, j);
      }
    }
  }

  /**
   * A reply "A VISUALIZATION: B" in which neither part holds the delimiter shows trim(A) and
   * carries the decoding of trim(B), whether or not it decodes.
   */
  lemma ParseOneDelimiter(a: string, b: string, decode: string -> Option<Json>)
    requires !Contains(a, Delimiter) && !Contains(b, Delimiter)
    ensures ParseResponse(JString(a + Delimiter + b), decode) == Parsed(JString(Trim(a)), decode(Trim(b)), decode(Trim(b)).Some?)
  {
    var s := a + Delimiter + b;
    DelimiterAfter(a, b);
    assert s[..|a|] == a;
    assert s[|a| + |Delimiter|..] == b;
  }

  /** The segment after the first delimiter of "A VISUALIZATION: B VISUALIZATION: C" is B. */
  lemma {:induction false} SegmentOfTwo(a: string, b: string, c: string)
    requires !Contains(a, Delimiter) && !Contains(b, Delimiter)
    ensures Contains(a + Delimiter + b + Delimiter + c, Delimiter)
    ensures SegmentAfterFirst(a + Delimiter + b + Delimiter + c) == b
  {
    var rest := b + Delimiter + c;
    var s := a + Delimiter + b + Delimiter + c;
    assert s == a + Delimiter + rest;
    DelimiterAfter(a, rest);
    DelimiterAfter(b, c);
    assert s[|a| + |Delimiter|..] == rest;
    assert rest[..|b|] == b;
  }

  /**
   * Only the first two delimiters matter: "A VISUALIZATION: B VISUALIZATION: C" decodes B alone,
   * not "B VISUALIZATION: C".
   */
  lemma ParseTwoDelimiters(a: string, b: string, c: string, decode: string -> Option<Json>)
    requires !Contains(a, Delimiter) && !Contains(b, Delimiter)
    ensures ParseResponse(JString(a + Delimiter + b + Delimiter + c), decode).visualization == decode(Trim(b))
  {
    SegmentOfTwo(a, b, c);
  }

  // ---------------------------------------------------------------- the conversation

  datatype Role = User | Assistant

  /** A message; `visualization` is `None` where the source leaves it undefined or null. */
  datatype Message = Message(role: Role, content: Json, visualization: Option<Json>)

  const Greeting: string :=
    "\U{1F44B} Hello! I'm Bloom, your AI market analyst. Ask me about current market conditions, specific stocks, trends, or get real-time stock analysis."
  const Apology: string := "I apologize, but I encountered an error analyzing that request. Please try again."

  const ChatSteps: seq<ThinkingStep> := [
    ThinkingStep("database", "Uploading resources to Captain", "Preparing context..."),
    ThinkingStep("sparkles", "Fetching real-time market data", "Searching financial sources..."),
    ThinkingStep("brain", "Analyzing with AI", "Processing insights..."),
    ThinkingStep("chart", "Generating response", "Finalizing analysis...")
  ]

  function UserMessage(text: string): Message {
    Message(User, JString(text), None)
  }

  /** The assistant's answer to a completion outcome: the parsed reply, or the fixed apology. */
  function AssistantMessage(reply: Result<Json>, decode: string -> Option<Json>): (m: Message)
    ensures m.role == Assistant
    ensures reply.Failure? ==> m == Message(Assistant, JString(Apology), None)
    ensures reply.Success? ==> (m.content == ParseResponse(reply.value, decode).content
                                && m.visualization == ParseResponse(reply.value, decode).visualization)
  {
    if reply.Failure? then Message(Assistant, JString(Apology), None)
    else
      var p := ParseResponse(reply.value, decode);
      Message(Assistant, p.content, p.visualization)
  }

  /** `visualization.type || "correlation"`: the chart kind the visualize button requests. */
  function ChartType(visualization: Json): (t: Json)
    ensures Truthy(t)
    ensures Field(visualization, "type").Some? && Truthy(Field(visualization, "type").value) ==> t == Field(visualization, "type").value
  {
    match Field(visualization, "type")
    case Some(t) => if Truthy(t) then t else JString("correlation")
    case None => JString("correlation")
  }

  class CopilotPanel {
    var messages: seq<Message>
    var input: string
    var isLoading: bool
    var thinkingSteps: seq<ThinkingStep>
    var hasVisualization: bool

    /** A fresh panel: the greeting alone, an empty input, nothing loading. */
    constructor()
      ensures messages == [Message(Assistant, JString(Greeting), None)]
      ensures input == [] && !isLoading && thinkingSteps == [] && !hasVisualization
    {
      messages := [Message(Assistant, JString(Greeting), None)];
      input := [];
      isLoading := false;
      thinkingSteps := [];
      hasVisualization := false;
    }

    /** The input's `onChange`, and a click on a suggested prompt. */
    method SetInput(text: string)
      modifies this`input
      ensures input == text
    {
      input := text;
    }

    /** The guard of `handleSend`: a non-blank input and no request in flight. */
    predicate CanSend()
      reads this
    {
      Trim(input) != [] && !isLoading
    }

    /**
     * `handleSend` up to its first `await`: a blank input or a request in flight changes nothing;
     * otherwise the raw input becomes a user message, the input is cleared, loading starts and the
     * narrator gets the chat steps. The query is returned for the rest of the turn.
     */
    method BeginSend() returns (query: Option<string>)
      modifies this`messages, this`input, this`isLoading, this`thinkingSteps
      ensures old(CanSend()) <==> query.Some?
      ensures query.None? ==> (messages == old(messages) && input == old(input)
                               && isLoading == old(isLoading) && thinkingSteps == old(thinkingSteps))
      ensures query.Some? ==> (query.value == old(input) && messages == old(messages) + [UserMessage(old(input))]
                               && input == [] && isLoading && thinkingSteps == ChatSteps)
    {
      if !CanSend() {
        return None;
      }
      messages := messages + [UserMessage(input)];
      query := Some(input);
      input := [];
      isLoading := true;
      thinkingSteps := ChatSteps;
    }

    /**
     * The best-effort history write of a chat turn: look up the user's record, record the query
     * in it and write it back, or create a record; any failing call abandons the write silently.
     */
    static method SaveHistory(svc: Services, query: string)
      modifies svc`preferences
      ensures svc.preferences == old(svc.preferences)
              || (svc.currentUser.Some? &&
                  HistorySaved(old(svc.preferences), svc.preferences, svc.currentUser.value,
                               HistoryEntry(query, DetectCategory(query))))
    {
      var user := svc.Me();
      if user.Failure? {
        return;
      }
      var prefs := svc.FilterPreferences(user.value);
      if prefs.Failure? {
        return;
      }
      var entry := HistoryEntry(query, DetectCategory(query));
      if prefs.value != [] {
        var pref := prefs.value[0];
        var _ := svc.UpdatePreference(pref.id, pref.(queryHistory := RecordQuery(pref.queryHistory, entry)));
      } else {
        var _ := svc.CreatePreference(FreshPreference(entry));
      }
    }

    /**
     * `handleSend` after its first `await`: the history write, exactly one completion request,
     * then exactly one assistant message (the parsed reply or the apology); loading ends and the
     * narrator's steps are cleared on both paths. The completion outcome is returned.
     */
    method FinishSend(query: string, svc: Services, decode: string -> Option<Json>) returns (reply: Result<Json>)
      requires isLoading
      modifies this`messages, this`isLoading, this`thinkingSteps, this`hasVisualization
      modifies svc`preferences, svc`requests
      ensures svc.requests == old(svc.requests) + [ChatRequest(query)]
      ensures svc.preferences == old(svc.preferences)
              || (svc.currentUser.Some? &&
                  HistorySaved(old(svc.preferences), svc.preferences, svc.currentUser.value,
                               HistoryEntry(query, DetectCategory(query))))
      ensures messages == old(messages) + [AssistantMessage(reply, decode)]
      ensures !isLoading && thinkingSteps == []
      ensures hasVisualization == (old(hasVisualization) || (reply.Success? && ParseResponse(reply.value, decode).decoded))
    {
      SaveHistory(svc, query);
      reply := svc.InvokeLLM(query);
      if reply.Success? {
        var parsed := ParseResponse(reply.value, decode);
        if parsed.decoded {
          hasVisualization := true;
        }
        messages := messages + [Message(Assistant, parsed.content, parsed.visualization)];
      } else {
        messages := messages + [Message(Assistant, JString(Apology), None)];
      }
      isLoading := false;
      thinkingSteps := [];
    }

    /**
     * A whole `handleSend`. A rejected send changes nothing and calls no service; an accepted one
     * appends exactly two messages, the user's raw input and the assistant's answer, clears the
     * input, records the query in the history at most once, and ends with loading off, no
     * thinking steps, and the visualize button shown if a directive decoded.
     */
    method HandleSend(svc: Services, decode: string -> Option<Json>) returns (reply: Option<Result<Json>>)
      modifies this, svc`preferences, svc`requests
      ensures reply.Some? <==> old(CanSend())
      ensures reply.None? ==> unchanged(this) && unchanged(svc)
      ensures reply.Some? ==>
        && messages == old(messages) + [UserMessage(old(input)), AssistantMessage(reply.value, decode)]
        && input == [] && !isLoading && thinkingSteps == []
        && svc.requests == old(svc.requests) + [ChatRequest(old(input))]
        && hasVisualization == (old(hasVisualization) || (reply.value.Success? && ParseResponse(reply.value.value, decode).decoded))
        && (svc.preferences == old(svc.preferences)
            || (svc.currentUser.Some? &&
                HistorySaved(old(svc.preferences), svc.preferences, svc.currentUser.value,
                             HistoryEntry(old(input), DetectCategory(old(input))))))
    {
      var query := BeginSend();
      if query.None? {
        return None;
      }
      var r := FinishSend(query.value, svc, decode);
      reply := Some(r);
    }

    /**
     * `handleVisualize`: when the last message carries a (truthy) directive, the chart kind is
     * handed to the visualization callback and the button is hidden; otherwise nothing happens.
     */
    method HandleVisualize() returns (requested: Option<Json>)
      modifies this`hasVisualization
      ensures var ok := messages != [] && messages[|messages| - 1].visualization.Some?
                        && Truthy(messages[|messages| - 1].visualization.value);
              && (ok ==> requested == Some(ChartType(messages[|messages| - 1].visualization.value)) && !hasVisualization)
              && (!ok ==> requested.None? && hasVisualization == old(hasVisualization))
    {
      if messages != [] {
        var last := messages[|messages| - 1];
        if last.visualization.Some? && Truthy(last.visualization.value) {
          requested := Some(ChartType(last.visualization.value));
          hasVisualization := false;
          return;
        }
      }
      requested := None;
    }
  }

  /** Two rapid submissions: the second one, made while the first is in flight, adds nothing. */
  method DoubleSubmit(panel: CopilotPanel, text: string) returns (first: Option<string>, second: Option<string>)
    requires Trim(text) != [] && !panel.isLoading
    modifies panel
    ensures first == Some(text) && second.None?
    ensures panel.messages == old(panel.messages) + [UserMessage(text)]
  {
    panel.SetInput(text);
    first := panel.BeginSend();
    panel.SetInput(text);
    second := panel.BeginSend();
  }
}
