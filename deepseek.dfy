/**
 * Model of `DeepSeekSummarizer` (summarizers/deepseek.py).
 *
 * `generate_summary` joins the formatted contents of a batch of messages,
 * keeps the trailing 12000 characters, resolves a system/user prompt pair
 * through the prompt template provider, sends one chat-completion request
 * and returns the first choice's text, or a fixed-prefix error text when
 * anything on the way fails.
 *
 * The collaborators the method calls but that are not part of this file
 * (the template provider's `get_prompts` and `format_user_prompt`, and the
 * client's `chat.completions.create`) are parameters: total functions whose
 * results say whether the call returned or raised. The log is recorded as
 * a list of entries in the trace the model returns.
 */
module DeepSeek {
  import opened PyText

  /** The character budget of the combined text (called `max_tokens` in the source). */
  const TruncationBudget: nat := 12000
  const ModelName: string := "deepseek-chat"
  const MaxOutputTokens: nat := 1000
  const BaseUrl: string := "https://api.deepseek.com"
  const SystemPromptKey: string := "system_prompt"
  const ErrorPrefix: string := "Unable to generate summary with DeepSeek. Error: "
  /** `str(e)` of the `KeyError` raised by `prompts['system_prompt']`. */
  const MissingKeyText: string := "'system_prompt'"
  /** `str(e)` of the `IndexError` raised by `choices[0]` on an empty list. */
  const IndexErrorText: string := "list index out of range"

  datatype Option<T> = None | Some(value: T)

  /** A message record; the summarizer reads only its formatted content. */
  datatype Message = Message(formattedContent: string)

  /** The four selector/override arguments passed through to both template calls. */
  datatype PromptContext = PromptContext(
    channelName: Option<string>,
    promptType: Option<string>,
    overrideSystemPrompt: Option<string>,
    overrideUserPrompt: Option<string>)

  /** What a collaborator call does: return a value, or raise an exception with this text. */
  datatype Fallible<T> = Returned(value: T) | Raised(error: string)

  /** The client handle built once by the constructor and never changed. */
  datatype Client = Client(apiKey: string, baseUrl: string)

  datatype ChatMessage = ChatMessage(role: string, content: string)

  /** The arguments of `chat.completions.create`. */
  datatype Request = Request(model: string, messages: seq<ChatMessage>, maxTokens: nat)

  /** The remote call: the message contents of the returned choices, or the raised error's text. */
  datatype Outcome = Ok(choices: seq<string>) | Err(error: string)

  datatype LogEntry =
    | TruncationWarning(fromLength: nat, toLength: nat)
    | SendingInfo(messageCount: nat)
    | SuccessInfo
    | ErrorLog(detail: string)

  /** One call of `generate_summary`: its return value, the requests sent and the log written. */
  datatype Trace = Trace(summary: string, requests: seq<(Client, Request)>, log: seq<LogEntry>)

  type GetPrompts = PromptContext -> Fallible<map<string, string>>
  type FormatUserPrompt = (string, PromptContext) -> Fallible<string>
  type Send = (Client, Request) -> Outcome

  /** `__init__`: the client talks to the DeepSeek endpoint with the caller's key. */
  function NewClient(apiKey: string): (c: Client)
    ensures c.apiKey == apiKey && c.baseUrl == BaseUrl
  {
    Client(apiKey, BaseUrl)
  }

  /** Line 35: each message's formatted content, in input order. */
  function FormattedContents(messages: seq<Message>): (r: seq<string>)
    ensures |r| == |messages|
    ensures forall i :: 0 <= i < |r| ==> r[i] == messages[i].formattedContent
  {
    seq(|messages|, i requires 0 <= i < |messages| => messages[i].formattedContent)
  }

  /** Whether the joined text is over budget, which is when the warning is logged. */
  predicate NeedsTruncation(text: string) {
    |text| > TruncationBudget
  }

  /** Lines 39-42: keep the text when it fits the budget, otherwise its trailing window. */
  function Truncate(text: string): (r: string)
    ensures |r| <= TruncationBudget
    ensures IsSuffix(r, text)
    ensures !NeedsTruncation(text) ==> r == text
    ensures NeedsTruncation(text) ==> |r| == TruncationBudget
  {
    if NeedsTruncation(text) then SliceFrom(text, -(TruncationBudget as int)) else text
  }

  /** Lines 35-42: the text handed to the user-prompt formatter. */
  function CombinedText(messages: seq<Message>): (r: string)
    ensures |r| <= TruncationBudget
    ensures IsSuffix(r, Join(FormattedContents(messages)))
    ensures |Join(FormattedContents(messages))| <= TruncationBudget ==> r == Join(FormattedContents(messages))
  {
    Truncate(Join(FormattedContents(messages)))
  }

  /** Lines 56-75: one system message, then one user message, fixed model and token cap. */
  function BuildRequest(systemPrompt: string, userPrompt: string): (r: Request)
    ensures r.model == ModelName && r.maxTokens == MaxOutputTokens
    ensures |r.messages| == 2
    ensures r.messages[0].role == "system" && r.messages[0].content == systemPrompt
    ensures r.messages[1].role == "user" && r.messages[1].content == userPrompt
  {
    Request(ModelName, [ChatMessage("system", systemPrompt), ChatMessage("user", userPrompt)], MaxOutputTokens)
  }

  /** Lines 80-82: the error is logged and reported, never raised. */
  function Fail(log: seq<LogEntry>, requests: seq<(Client, Request)>, error: string): (t: Trace)
    ensures IsErrorReport(t.summary) && t.summary[|ErrorPrefix|..] == error
    ensures t.requests == requests
    ensures |t.log| == |log| + 1 && t.log[..|log|] == log && t.log[|log|] == ErrorLog(error)
  {
    Trace(ErrorPrefix + error, requests, log + [ErrorLog(error)])
  }

  /** `generate_summary`, step by step, with every collaborator outcome as an input. */
  function Run(client: Client, messages: seq<Message>, ctx: PromptContext,
               getPrompts: GetPrompts, formatUserPrompt: FormatUserPrompt, send: Send): (t: Trace)
    // at most one request goes out, through the summarizer's own client
    ensures |t.requests| <= 1
    ensures forall k :: 0 <= k < |t.requests| ==> t.requests[k].0 == client
    // template resolution fails: nothing is sent
    ensures getPrompts(ctx).Raised? ==>
      t.requests == [] && t.summary == ErrorPrefix + getPrompts(ctx).error
    ensures getPrompts(ctx).Returned? && SystemPromptKey !in getPrompts(ctx).value ==>
      t.requests == [] && t.summary == ErrorPrefix + MissingKeyText
    ensures getPrompts(ctx).Returned? && SystemPromptKey in getPrompts(ctx).value
            && formatUserPrompt(CombinedText(messages), ctx).Raised? ==>
      t.requests == [] && t.summary == ErrorPrefix + formatUserPrompt(CombinedText(messages), ctx).error
    // templates resolve: exactly one request, of the fixed shape, carrying the combined text's prompt
    ensures getPrompts(ctx).Returned? && SystemPromptKey in getPrompts(ctx).value
            && formatUserPrompt(CombinedText(messages), ctx).Returned? ==>
      |t.requests| == 1
      && t.requests[0].1.model == ModelName
      && t.requests[0].1.maxTokens == MaxOutputTokens
      && |t.requests[0].1.messages| == 2
      && t.requests[0].1.messages[0] == ChatMessage("system", getPrompts(ctx).value[SystemPromptKey])
      && t.requests[0].1.messages[1] == ChatMessage("user", formatUserPrompt(CombinedText(messages), ctx).value)
    // the remote outcome decides the result
    ensures |t.requests| == 1 && send(client, t.requests[0].1).Err? ==>
      t.summary == ErrorPrefix + send(client, t.requests[0].1).error
    ensures |t.requests| == 1 && send(client, t.requests[0].1).Ok? && send(client, t.requests[0].1).choices == [] ==>
      t.summary == ErrorPrefix + IndexErrorText
    ensures |t.requests| == 1 && send(client, t.requests[0].1).Ok? && send(client, t.requests[0].1).choices != [] ==>
      t.summary == send(client, t.requests[0].1).choices[0] && |t.log| > 0 && t.log[|t.log| - 1] == SuccessInfo
  {
    var joined := Join(FormattedContents(messages));
    var warned := if NeedsTruncation(joined) then [TruncationWarning(|joined|, TruncationBudget)] else [];
    var rest := Respond(client, Truncate(joined), |messages|, ctx, getPrompts, formatUserPrompt, send);
    Trace(rest.summary, rest.requests, warned + rest.log)
  }

  /** Lines 44-82: everything after truncation, given the combined text and the number of
      messages to report; the log holds only what is written from line 53 on. */
  function Respond(client: Client, text: string, messageCount: nat, ctx: PromptContext,
                   getPrompts: GetPrompts, formatUserPrompt: FormatUserPrompt, send: Send): Trace
  {
    match getPrompts(ctx)
    case Raised(e) => Fail([], [], e)
    case Returned(prompts) =>
      var log := [SendingInfo(messageCount)];
      if SystemPromptKey !in prompts then Fail(log, [], MissingKeyText)
      else
        match formatUserPrompt(text, ctx)
        case Raised(e) => Fail(log, [], e)
        case Returned(userPrompt) =>
          var request := BuildRequest(prompts[SystemPromptKey], userPrompt);
          match send(client, request)
          case Err(e) => Fail(log, [(client, request)], e)
          case Ok(choices) =>
            // the success line is logged before `choices[0]` is read
            var delivered := log + [SuccessInfo];
            if choices == [] then Fail(delivered, [(client, request)], IndexErrorText)
            else Trace(choices[0], [(client, request)], delivered)
  }

  /** The reported count reaches only the log: the summary and the requests do not depend on it. */
  lemma RespondIgnoresCount(client: Client, text: string, n1: nat, n2: nat, ctx: PromptContext,
                            getPrompts: GetPrompts, formatUserPrompt: FormatUserPrompt, send: Send)
    ensures Respond(client, text, n1, ctx, getPrompts, formatUserPrompt, send).summary
         == Respond(client, text, n2, ctx, getPrompts, formatUserPrompt, send).summary
    ensures Respond(client, text, n1, ctx, getPrompts, formatUserPrompt, send).requests
         == Respond(client, text, n2, ctx, getPrompts, formatUserPrompt, send).requests
  {
  }

  /** What `generate_summary` logs: the truncation warning first and exactly when the joined
      text is over budget, the number of input messages (unaffected by truncation) once the
      prompts resolve, each failure with the same text it reports, and an error entry last
      whenever the request was not answered. */
  lemma RunLog(client: Client, messages: seq<Message>, ctx: PromptContext,
               getPrompts: GetPrompts, formatUserPrompt: FormatUserPrompt, send: Send)
    ensures var t := Run(client, messages, ctx, getPrompts, formatUserPrompt, send);
      var joined := Join(FormattedContents(messages));
      (NeedsTruncation(joined) <==> (|t.log| > 0 && t.log[0] == TruncationWarning(|joined|, TruncationBudget)))
      && (forall e :: e in t.log && e.TruncationWarning? ==> NeedsTruncation(joined))
      && (forall e :: e in t.log && e.SendingInfo? ==> e.messageCount == |messages|)
      && (getPrompts(ctx).Returned? <==> SendingInfo(|messages|) in t.log)
      && (forall e :: e in t.log && e.ErrorLog? ==> t.summary == ErrorPrefix + e.detail)
      && (!Answered(client, t, send) ==> |t.log| > 0 && t.log[|t.log| - 1].ErrorLog?)
  {
    var t := Run(client, messages, ctx, getPrompts, formatUserPrompt, send);
    var joined := Join(FormattedContents(messages));
    var warned := if NeedsTruncation(joined) then [TruncationWarning(|joined|, TruncationBudget)] else [];
    var rest := Respond(client, Truncate(joined), |messages|, ctx, getPrompts, formatUserPrompt, send);
    RespondLog(client, Truncate(joined), |messages|, ctx, getPrompts, formatUserPrompt, send);
    assert t == Trace(rest.summary, rest.requests, warned + rest.log);
    assert forall e :: e in t.log <==> e in warned || e in rest.log;
    if !NeedsTruncation(joined) && |t.log| > 0 {
      assert t.log[0] in rest.log;
    }
  }

  /** The log written from line 53 on: no truncation warning, the given count exactly when
      the prompts resolve, each failure with the same text it reports, and an error entry
      last whenever the request was not answered. */
  lemma RespondLog(client: Client, text: string, messageCount: nat, ctx: PromptContext,
                   getPrompts: GetPrompts, formatUserPrompt: FormatUserPrompt, send: Send)
    ensures var r := Respond(client, text, messageCount, ctx, getPrompts, formatUserPrompt, send);
      (forall e :: e in r.log ==> !e.TruncationWarning?)
      && (forall e :: e in r.log && e.SendingInfo? ==> e.messageCount == messageCount)
      && (getPrompts(ctx).Returned? <==> SendingInfo(messageCount) in r.log)
      && (forall e :: e in r.log && e.ErrorLog? ==> r.summary == ErrorPrefix + e.detail)
      && (!Answered(client, r, send) ==> |r.log| > 0 && r.log[|r.log| - 1].ErrorLog?)
  {
    var r := Respond(client, text, messageCount, ctx, getPrompts, formatUserPrompt, send);
    match getPrompts(ctx)
    case Raised(e) =>
      assert r.log == [ErrorLog(e)];
    case Returned(prompts) =>
      var log := [SendingInfo(messageCount)];
      if SystemPromptKey !in prompts {
        assert r.log == log + [ErrorLog(MissingKeyText)];
      } else {
        match formatUserPrompt(text, ctx)
        case Raised(e) =>
          assert r.log == log + [ErrorLog(e)];
        case Returned(userPrompt) =>
          match send(client, BuildRequest(prompts[SystemPromptKey], userPrompt))
          case Err(e) =>
            assert r.log == log + [ErrorLog(e)];
          case Ok(choices) =>
            if choices == [] {
              assert r.log == log + [SuccessInfo, ErrorLog(IndexErrorText)];
            } else {
              assert r.log == log + [SuccessInfo];
            }
      }
  }

  /** The summarizer built by the constructor sends its request through its own client:
      to the DeepSeek endpoint, with the caller's key. */
  lemma RequestsUseOwnClient(apiKey: string, messages: seq<Message>, ctx: PromptContext,
                             getPrompts: GetPrompts, formatUserPrompt: FormatUserPrompt, send: Send)
    ensures var t := Run(NewClient(apiKey), messages, ctx, getPrompts, formatUserPrompt, send);
      forall k :: 0 <= k < |t.requests| ==>
        t.requests[k].0.baseUrl == BaseUrl && t.requests[k].0.apiKey == apiKey
  {
  }

  /** The text starts with the fixed error prefix. */
  predicate IsErrorReport(s: string) {
    |ErrorPrefix| <= |s| && s[..|ErrorPrefix|] == ErrorPrefix
  }

  /** The one request of the trace went out and came back with at least one choice. */
  predicate Answered(client: Client, t: Trace, send: Send) {
    |t.requests| == 1 && send(client, t.requests[0].1).Ok? && send(client, t.requests[0].1).choices != []
  }

  /** The return value of `generate_summary`: never an exception, always a string. It is the
      first choice verbatim when the request was answered, and an error report otherwise. */
  function GenerateSummary(client: Client, messages: seq<Message>, ctx: PromptContext,
                           getPrompts: GetPrompts, formatUserPrompt: FormatUserPrompt, send: Send): (r: string)
    ensures var t := Run(client, messages, ctx, getPrompts, formatUserPrompt, send);
      Answered(client, t, send) ==> r == send(client, t.requests[0].1).choices[0]
    ensures var t := Run(client, messages, ctx, getPrompts, formatUserPrompt, send);
      !Answered(client, t, send) ==> IsErrorReport(r)
  {
    var t := Run(client, messages, ctx, getPrompts, formatUserPrompt, send);
    var joined := Join(FormattedContents(messages));
    RespondReports(client, Truncate(joined), |messages|, ctx, getPrompts, formatUserPrompt, send);
    t.summary
  }

  /** Every failure after truncation comes back as an error report. */
  lemma RespondReports(client: Client, text: string, messageCount: nat, ctx: PromptContext,
                       getPrompts: GetPrompts, formatUserPrompt: FormatUserPrompt, send: Send)
    ensures var r := Respond(client, text, messageCount, ctx, getPrompts, formatUserPrompt, send);
      !Answered(client, r, send) ==> IsErrorReport(r.summary)
  {
    var r := Respond(client, text, messageCount, ctx, getPrompts, formatUserPrompt, send);
    if !Answered(client, r, send) {
      match getPrompts(ctx)
      case Raised(e) =>
        assert r.summary == ErrorPrefix + e;
      case Returned(prompts) =>
        if SystemPromptKey !in prompts {
          assert r.summary == ErrorPrefix + MissingKeyText;
        } else {
          match formatUserPrompt(text, ctx)
          case Raised(e) =>
            assert r.summary == ErrorPrefix + e;
          case Returned(userPrompt) =>
            match send(client, BuildRequest(prompts[SystemPromptKey], userPrompt))
            case Err(e) =>
              assert r.summary == ErrorPrefix + e;
            case Ok(choices) =>
              assert r.summary == ErrorPrefix + IndexErrorText;
        }
    }
  }

  /** Truncating a second time changes nothing. */
  lemma TruncateIdempotent(text: string)
    ensures Truncate(Truncate(text)) == Truncate(text)
  {
  }

  /** Truncation keeps exactly the last `TruncationBudget` characters of an over-budget text. */
  lemma TruncateKeepsTail(text: string)
    requires NeedsTruncation(text)
    ensures Truncate(text) == text[|text| - TruncationBudget..]
  {
  }

  /** An empty batch gives the empty combined text (and the call still proceeds). */
  lemma EmptyBatch()
    ensures CombinedText([]) == ""
  {
  }

  /** A batch whose joined contents fit the budget is sent whole: the newline-joined
      contents in input order. */
  lemma ShortBatchSentWhole(messages: seq<Message>)
    requires |Join(FormattedContents(messages))| <= TruncationBudget
    ensures CombinedText(messages) == Join(FormattedContents(messages))
  {
  }

  /** A non-empty batch of single-line contents whose lengths plus separators fit the budget
      is sent whole, and splitting the sent text on newlines recovers each message's content
      in input order. */
  lemma {:induction false} ShortBatchRecoverable(messages: seq<Message>)
    requires messages != []
    requires TotalLength(FormattedContents(messages)) + |messages| - 1 <= TruncationBudget
    requires forall i :: 0 <= i < |messages| ==> Newline !in messages[i].formattedContent
    ensures Split(CombinedText(messages)) == FormattedContents(messages)
  {
    JoinLength(FormattedContents(messages));
    ShortBatchSentWhole(messages);
    SplitJoin(FormattedContents(messages));
  }

  /** Most-recent bias: once the newer messages alone fill the budget, older ones make no
      difference to the text that is sent. */
  lemma {:induction false} OlderMessagesIrrelevant(older: seq<Message>, newer: seq<Message>)
    requires |Join(FormattedContents(newer))| >= TruncationBudget
    ensures CombinedText(older + newer) == CombinedText(newer)
  {
    if older == [] {
      assert older + newer == newer;
      return;
    }
    var a, b := FormattedContents(older), FormattedContents(newer);
    assert FormattedContents(older + newer) == a + b;
    JoinAppend(a, b);
    var whole := Join(a) + [Newline] + Join(b);
    var jb := Join(b);
    assert whole[|whole| - TruncationBudget..] == jb[|jb| - TruncationBudget..];
  }

  /** The request depends on the messages only through the combined text: two batches whose
      combined texts agree lead to the same request and the same summary. */
  lemma SameCombinedTextSameResult(client: Client, m1: seq<Message>, m2: seq<Message>, ctx: PromptContext,
                                   getPrompts: GetPrompts, formatUserPrompt: FormatUserPrompt, send: Send)
    requires CombinedText(m1) == CombinedText(m2)
    ensures Run(client, m1, ctx, getPrompts, formatUserPrompt, send).requests
         == Run(client, m2, ctx, getPrompts, formatUserPrompt, send).requests
    ensures GenerateSummary(client, m1, ctx, getPrompts, formatUserPrompt, send)
         == GenerateSummary(client, m2, ctx, getPrompts, formatUserPrompt, send)
  {
    RespondIgnoresCount(client, CombinedText(m1), |m1|, |m2|, ctx, getPrompts, formatUserPrompt, send);
  }
}
