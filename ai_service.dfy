/** services/aiService.js: model selection for one request, the request
    counter, and the store-free continuation loop. The Groq chat-completion
    call is the `client` parameter: a function from the request sent to what
    the service returns, or the error it throws. */
module AiService {
  import opened Wrappers
  import opened Seqs
  import opened JsText
  import opened Models
  import opened Continuation

  /** The falsy-option fallback of the continuation ceiling (config/constants.js:30). */
  const MAX_CONTINUES: int := 3
  /** The user turn appended to ask for the rest of a cut reply. */
  const CONTINUE_PROMPT: string := "أكمل من حيث توقفت"

  /** An element of the `messages` array: a bare string, or a
      `{role, content}` record whose `content` may be missing. */
  datatype ChatMessage = Plain(text: string) | Record(role: string, content: Option<string>)

  /** The fields of the `context`/`options` object that `selectOptimalModel`
      reads. The five `Option` fields are the keys the `...context` spread can
      bring into the requirements record; `None` means the key is absent. */
  datatype Context = Context(hasImage: bool, hasDocument: bool,
                             difficulty: Option<string>, kind: Option<string>,
                             requiresVision: Option<bool>, requiresLongContext: Option<bool>,
                             requiresCode: Option<bool>)

  /** The options of `sendRequest`/`sendRequestWithContinuation`; the whole
      object is also the context of the model selection. */
  datatype Options = Options(maxTokens: Option<int>, maxContinues: Option<int>, context: Context)

  /** A context with none of the fields set, as `{}`. */
  const NO_CONTEXT: Context := Context(false, false, None, None, None, None, None)

  /** `completion.usage`; a missing counter counts as zero. */
  datatype Usage = Usage(promptTokens: Option<nat>, completionTokens: Option<nat>, totalTokens: Option<nat>)
  datatype Totals = Totals(promptTokens: nat, completionTokens: nat, totalTokens: nat)

  /** The request configuration handed to the SDK. `maxTokens` is `None` when
      `max_tokens` ends up undefined. */
  datatype Request = Request(model: string, messages: seq<ChatMessage>, maxTokens: Option<int>)

  /** What the SDK call yields: the first choice and the usage block. */
  datatype Completion = Completion(content: string, finishReason: string, usage: Option<Usage>)

  /** What `sendRequest` returns, without the clock-derived `responseTime`. */
  datatype Response = Response(content: string, model: string, finishReason: string, usage: Option<Usage>)

  /** What `sendRequestWithContinuation` returns, without `responseTime`. */
  datatype Continued = Continued(content: string, model: string, continuations: nat, usage: Totals)

  type Client = Request -> Result<Completion, string>

  function Or<T>(o: Option<T>, dflt: T): T
  {
    match o case Some(v) => v case None => dflt
  }

  /** The requirements record of `selectOptimalModel` for a message: the
      computed fields, each replaced by the context's own when it has one. */
  function RequirementsFor(message: string, ctx: Context): (req: Requirements)
    ensures req.requiresLongContext == Or(ctx.requiresLongContext, |message| > 2000 || ctx.hasDocument)
    ensures req.requiresCode == Or(ctx.requiresCode,
                                   AnalyzeContentType(message) == "code" || Contains(message, CODE_FENCE))
    ensures req.requiresVision == Or(ctx.requiresVision, ctx.hasImage)
    ensures req.difficulty == Some(Or(ctx.difficulty, AnalyzeDifficulty(message)))
    ensures req.kind == Some(Or(ctx.kind, AnalyzeContentType(message)))
  {
    Models.Requirements(
      Some(Or(ctx.difficulty, AnalyzeDifficulty(message))),
      Some(Or(ctx.kind, AnalyzeContentType(message))),
      Or(ctx.requiresVision, ctx.hasImage),
      Or(ctx.requiresLongContext, |message| > 2000 || ctx.hasDocument),
      Or(ctx.requiresCode, AnalyzeContentType(message) == "code" || Contains(message, CODE_FENCE)))
  }

  /** `selectOptimalModel(message, context)`. A message that is not a string
      makes the analysis throw; the catch path routes as `{difficulty: 'moderate'}`. */
  function SelectOptimalModel(message: Option<string>, ctx: Context): (m: ModelInfo)
    ensures message.None? ==> m == BALANCED
    ensures message.Some? ==> m == SelectModel(RequirementsFor(message.value, ctx))
  {
    match message
    case None => SelectModel(Models.Requirements(Some(MODERATE), None, false, false, false))
    case Some(text) => SelectModel(RequirementsFor(text, ctx))
  }

  /** Without overrides, a message with a code fence goes to the code model
      and a message over 2000 chars without code goes to the long-context
      model, whatever its keywords say. */
  lemma RoutingOfPlainContext(message: string)
    ensures Contains(message, CODE_FENCE) ==> SelectOptimalModel(Some(message), NO_CONTEXT) == CODE
    ensures |message| > 2000 && AnalyzeContentType(message) != "code"
            ==> SelectOptimalModel(Some(message), NO_CONTEXT) == LONG_CONTEXT
  {
  }

  /** The continuation instruction is routed to the fast model: `أكمل`
      contains the simple keyword `كم`, and no other rule applies. Each
      continuation request of the loop therefore goes to FAST when the caller
      gives no context, whichever model answered the first request. */
  lemma ContinuationRoutedFast(messages: seq<ChatMessage>, full: string)
    ensures SelectOptimalModel(UserMessage(ContinueMessages(messages, full)[|messages| + 1]), NO_CONTEXT) == FAST
  {
    PromptDifficulty();
    PromptContentType();
  }

  lemma PromptDifficulty()
    ensures AnalyzeDifficulty(CONTINUE_PROMPT) == SIMPLE
  {
    PromptIsLower();
    PromptIsSimple();
    PromptLacksExpert();
    PromptLacksComplex();
  }

  lemma PromptLacksExpert()
    ensures !ContainsAny(CONTINUE_PROMPT, EXPERT_KEYWORDS)
  {
    LacksAll(CONTINUE_PROMPT, EXPERT_KEYWORDS, [1, 1, 0, 2, 0, 0, 0]);
  }

  lemma PromptLacksComplex()
    ensures !ContainsAny(CONTINUE_PROMPT, COMPLEX_KEYWORDS)
  {
    LacksAll(CONTINUE_PROMPT, COMPLEX_KEYWORDS, [0, -1, 1, 1, 0, 0, 0, 0, 0]);
  }

  lemma PromptContentType()
    ensures AnalyzeContentType(CONTINUE_PROMPT) == "text"
  {
    PromptIsLower();
    PromptLacksCode();
    PromptLacksResearch();
  }

  lemma PromptLacksCode()
    ensures !ContainsAny(CONTINUE_PROMPT, CODE_KEYWORDS) && !Contains(CONTINUE_PROMPT, CODE_FENCE)
  {
    LacksAll(CONTINUE_PROMPT, CODE_KEYWORDS, [2, 0, 0, 0, 0, 0, 0]);
    OccurrenceParts(CONTINUE_PROMPT, CODE_FENCE);
  }

  lemma PromptLacksResearch()
    ensures !ContainsAny(CONTINUE_PROMPT, RESEARCH_KEYWORDS)
  {
    LacksAll(CONTINUE_PROMPT, RESEARCH_KEYWORDS, [0, 0, 0, 0, 0]);
  }

  lemma PromptIsLower()
    ensures ToLower(CONTINUE_PROMPT) == CONTINUE_PROMPT
  {
  }

  lemma PromptIsSimple()
    ensures ContainsAny(CONTINUE_PROMPT, SIMPLE_KEYWORDS)
  {
    assert OccursAt(CONTINUE_PROMPT, "كم", 1);
    assert Contains(CONTINUE_PROMPT, SIMPLE_KEYWORDS[4]);
  }

  /** Each keyword has a char that `s` lacks (`marks[k]` is its index),
      or, when `marks[k]` is negative, a first pair of chars that is never
      adjacent in `s`; then no keyword occurs in `s`. */
  lemma LacksAll(s: string, keywords: seq<string>, marks: seq<int>)
    requires |marks| == |keywords|
    requires forall k :: 0 <= k < |keywords| ==>
               if marks[k] >= 0 then marks[k] < |keywords[k]| && keywords[k][marks[k]] !in s
               else |keywords[k]| >= 2
                    && forall i :: 0 <= i < |s| - 1 ==> !(s[i] == keywords[k][0] && s[i + 1] == keywords[k][1])
    ensures !ContainsAny(s, keywords)
  {
    forall k | 0 <= k < |keywords|
      ensures !Contains(s, keywords[k])
    {
      OccurrenceParts(s, keywords[k]);
    }
  }

  /** A context that sets `requiresVision` wins over everything computed. */
  lemma VisionOverride(message: Option<string>, ctx: Context)
    requires message.Some? && ctx.requiresVision == Some(true)
    ensures SelectOptimalModel(message, ctx) == VISION
  {
  }

  /** `formatMessages(messages)`: strings become user records, records pass. */
  function FormatMessages(messages: seq<ChatMessage>): (r: seq<ChatMessage>)
    ensures |r| == |messages|
    ensures forall k :: 0 <= k < |messages| ==>
              r[k] == (if messages[k].Plain? then Record("user", Some(messages[k].text)) else messages[k])
    ensures forall k :: 0 <= k < |r| ==> r[k].Record?
  {
    Map((m: ChatMessage) => if m.Plain? then Record("user", Some(m.text)) else m, messages)
  }

  /** Formatting is idempotent and distributes over concatenation. */
  lemma FormatMessagesLaws(a: seq<ChatMessage>, b: seq<ChatMessage>)
    ensures FormatMessages(FormatMessages(a)) == FormatMessages(a)
    ensures FormatMessages(a + b) == FormatMessages(a) + FormatMessages(b)
  {
  }

  /** `typeof last === 'string' ? last : last.content`, for a non-empty array. */
  function UserMessage(last: ChatMessage): Option<string>
  {
    match last
    case Plain(text) => Some(text)
    case Record(_, content) => content
  }

  /** `options.maxTokens || LIMITS.MAX_TOKENS`; the limit is not defined in
      config/constants.js, so a falsy option leaves `max_tokens` undefined. */
  function MaxTokens(options: Options): Option<int>
  {
    if options.maxTokens.Some? && options.maxTokens.value != 0 then options.maxTokens else None
  }

  /** What one `sendRequest` call returns or throws. An empty array throws
      while reading the last message. */
  function RequestOutcome(messages: seq<ChatMessage>, options: Options, client: Client): Result<Response, string>
  {
    if messages == [] then Failure("TypeError: cannot read the last message")
    else
      var model := SelectOptimalModel(UserMessage(messages[|messages| - 1]), options.context);
      match client(Request(model.name, FormatMessages(messages), MaxTokens(options)))
      case Failure(e) => Failure(e)
      case Success(c) => Success(Response(c.content, model.name, c.finishReason, c.usage))
  }

  /** `options.maxContinues || LIMITS.MAX_CONTINUES`: 0 and a missing option both give 3. */
  function MaxContinues(options: Options): (n: int)
    ensures options.maxContinues.None? || options.maxContinues == Some(0) ==> n == MAX_CONTINUES
    ensures options.maxContinues.Some? && options.maxContinues.value != 0 ==> n == options.maxContinues.value
  {
    if options.maxContinues.Some? && options.maxContinues.value != 0 then options.maxContinues.value
    else MAX_CONTINUES
  }

  /** The messages of a continuation request: the caller's, the reply so far,
      and the instruction to go on. */
  function ContinueMessages(messages: seq<ChatMessage>, full: string): seq<ChatMessage>
  {
    messages + [Record("assistant", Some(full)), Record("user", Some(CONTINUE_PROMPT))]
  }

  predicate IsCut(r: Response)
  {
    r.finishReason == "length"
  }

  function ContentOf(r: Response): string
  {
    r.content
  }

  /** `sendRequest` as a function of its messages, for fixed options. */
  function Send(options: Options, client: Client): seq<ChatMessage> -> Result<Response, string>
  {
    ms => RequestOutcome(ms, options, client)
  }

  /** The continuation call for the text so far. */
  function NextCall(messages: seq<ChatMessage>, send: seq<ChatMessage> -> Result<Response, string>)
    : string -> Result<Response, string>
  {
    full => send(ContinueMessages(messages, full))
  }

  /** The run of the continuation loop, for any `sendRequest`. */
  function RunWith(messages: seq<ChatMessage>, send: seq<ChatMessage> -> Result<Response, string>,
                   ceiling: int): Run<Response>
  {
    Controller(send(messages), NextCall(messages, send), IsCut, ContentOf, ceiling)
  }

  /** The run of the continuation loop for these arguments. */
  function RunOf(messages: seq<ChatMessage>, options: Options, client: Client): Run<Response>
  {
    RunWith(messages, Send(options, client), MaxContinues(options))
  }

  /** `allUsage` after adding one response's usage block. */
  function AddUsage(t: Totals, u: Option<Usage>): Totals
  {
    match u
    case None => t
    case Some(v) => Totals(t.promptTokens + Or(v.promptTokens, 0),
                           t.completionTokens + Or(v.completionTokens, 0),
                           t.totalTokens + Or(v.totalTokens, 0))
  }

  function SumPrompt(rs: seq<Response>): nat
  {
    if rs == [] then 0 else SumPrompt(rs[..|rs| - 1]) + (if rs[|rs| - 1].usage.Some? then Or(rs[|rs| - 1].usage.value.promptTokens, 0) else 0)
  }

  function SumCompletion(rs: seq<Response>): nat
  {
    if rs == [] then 0 else SumCompletion(rs[..|rs| - 1]) + (if rs[|rs| - 1].usage.Some? then Or(rs[|rs| - 1].usage.value.completionTokens, 0) else 0)
  }

  function SumTotal(rs: seq<Response>): nat
  {
    if rs == [] then 0 else SumTotal(rs[..|rs| - 1]) + (if rs[|rs| - 1].usage.Some? then Or(rs[|rs| - 1].usage.value.totalTokens, 0) else 0)
  }

  /** The field-wise sums over all responses, a missing field counting 0. */
  function UsageTotals(rs: seq<Response>): Totals
  {
    Totals(SumPrompt(rs), SumCompletion(rs), SumTotal(rs))
  }

  lemma UsageTotalsSnoc(rs: seq<Response>, r: Response)
    ensures UsageTotals(rs + [r]) == AddUsage(UsageTotals(rs), r.usage)
  {
    assert (rs + [r])[..|rs|] == rs;
  }

  /** The result of a run: the error of the failed call, or the joined parts. */
  function OutcomeWith(messages: seq<ChatMessage>, send: seq<ChatMessage> -> Result<Response, string>,
                       ceiling: int): Result<Continued, string>
  {
    var run := RunWith(messages, send, ceiling);
    if run.error.Some? then Failure(run.error.value)
    else if run.responses == [] then Failure("unreachable")
    else
      var rs := run.responses;
      Success(Continued(Combined(ContentOf, rs), rs[|rs| - 1].model, |rs| - 1, UsageTotals(rs)))
  }

  /** What `sendRequestWithContinuation` returns or throws for these arguments. */
  function ContinuationOutcome(messages: seq<ChatMessage>, options: Options, client: Client): Result<Continued, string>
  {
    OutcomeWith(messages, Send(options, client), MaxContinues(options))
  }

  /** The promises of the continuation loop, for any `sendRequest` and
      ceiling: at most `1 + ceiling` calls; every part but the last was cut
      by length and the last was not, unless the ceiling stopped the loop;
      each continuation request carries the caller's messages, the text so
      far and the instruction; the content is the parts joined by a blank
      line and `continuations` counts them. */
  lemma ContinuationContract(messages: seq<ChatMessage>, send: seq<ChatMessage> -> Result<Response, string>,
                             ceiling: int)
    ensures var run := RunWith(messages, send, ceiling);
            && Calls(run) <= 1 + (if ceiling < 0 then 0 else ceiling)
            && (OutcomeWith(messages, send, ceiling).Success? <==> run.error.None?)
            && (run.error.None? ==>
                  var rs := run.responses;
                  var c := OutcomeWith(messages, send, ceiling).value;
                  && send(messages) == Success(rs[0])
                  && (forall i :: 1 <= i < |rs| ==>
                        send(ContinueMessages(messages, Combined(ContentOf, rs[..i]))) == Success(rs[i]))
                  && (forall i :: 0 <= i < |rs| - 1 ==> rs[i].finishReason == "length")
                  && (rs[|rs| - 1].finishReason != "length" || c.continuations == (if ceiling < 0 then 0 else ceiling))
                  && c.content == Join(Map(ContentOf, rs), "\n\n")
                  && c.continuations == |rs| - 1 <= (if ceiling < 0 then 0 else ceiling)
                  && c.model == rs[|rs| - 1].model
                  && c.usage == UsageTotals(rs))
  {
    ControllerFollows(send(messages), NextCall(messages, send), IsCut, ContentOf, ceiling);
  }

  /** A first reply cut by length and a second one that finishes join into
      one text, with one continuation. */
  lemma TwoPartReply(messages: seq<ChatMessage>, send: seq<ChatMessage> -> Result<Response, string>,
                     r1: Response, r2: Response)
    requires send(messages) == Success(r1) && r1.finishReason == "length"
    requires send(ContinueMessages(messages, r1.content)) == Success(r2) && r2.finishReason == "stop"
    ensures OutcomeWith(messages, send, MAX_CONTINUES).Success?
    ensures OutcomeWith(messages, send, MAX_CONTINUES).value.content == r1.content + "\n\n" + r2.content
    ensures OutcomeWith(messages, send, MAX_CONTINUES).value.continuations == 1
  {
    var next := NextCall(messages, send);
    CombinedSingle(ContentOf, r1);
    assert next(Combined(ContentOf, [r1])) == Success(r2);
    assert [r1] + [r2] == [r1, r2];
    assert Continue(next, IsCut, ContentOf, MAX_CONTINUES, [r1, r2]) == Run([r1, r2], None);
    assert RunWith(messages, send, MAX_CONTINUES) == Run([r1, r2], None);
    CombinedSnoc(ContentOf, [r1], r2);
  }

  // One step of the loop at a time, for any `sendRequest`.

  lemma StartStep(messages: seq<ChatMessage>, send: seq<ChatMessage> -> Result<Response, string>, ceiling: int)
    ensures send(messages).Failure? ==>
              OutcomeWith(messages, send, ceiling) == Failure(send(messages).error)
              && Calls(RunWith(messages, send, ceiling)) == 1
    ensures send(messages).Success? ==>
              RunWith(messages, send, ceiling)
              == Continue(NextCall(messages, send), IsCut, ContentOf, ceiling, [send(messages).value])
  {
  }

  lemma LoopStep(messages: seq<ChatMessage>, send: seq<ChatMessage> -> Result<Response, string>,
                 ceiling: int, rs: seq<Response>)
    requires rs != []
    requires RunWith(messages, send, ceiling) == Continue(NextCall(messages, send), IsCut, ContentOf, ceiling, rs)
    requires IsCut(rs[|rs| - 1]) && |rs| - 1 < ceiling
    ensures var o := send(ContinueMessages(messages, Combined(ContentOf, rs)));
            && (o.Failure? ==> OutcomeWith(messages, send, ceiling) == Failure(o.error)
                               && Calls(RunWith(messages, send, ceiling)) == |rs| + 1)
            && (o.Success? ==> RunWith(messages, send, ceiling)
                               == Continue(NextCall(messages, send), IsCut, ContentOf, ceiling, rs + [o.value]))
  {
  }

  lemma StopStep(messages: seq<ChatMessage>, send: seq<ChatMessage> -> Result<Response, string>,
                 ceiling: int, rs: seq<Response>)
    requires rs != []
    requires RunWith(messages, send, ceiling) == Continue(NextCall(messages, send), IsCut, ContentOf, ceiling, rs)
    requires !(IsCut(rs[|rs| - 1]) && |rs| - 1 < ceiling)
    ensures OutcomeWith(messages, send, ceiling)
            == Success(Continued(Combined(ContentOf, rs), rs[|rs| - 1].model, |rs| - 1, UsageTotals(rs)))
    ensures Calls(RunWith(messages, send, ceiling)) == |rs|
  {
  }

  datatype ServiceStats = ServiceStats(totalRequests: nat, cacheSize: nat)

  /** The `AIService` singleton. Its cache map is never written, so only
      its size (zero) is kept. */
  class AIService {
    var requestCount: nat

    constructor()
      ensures requestCount == 0
    {
      requestCount := 0;
    }

    /** `sendRequest(messages, options)`: counts the call first, so a call
        that throws is counted too. */
    method SendRequest(messages: seq<ChatMessage>, options: Options, client: Client)
      returns (r: Result<Response, string>)
      modifies this
      ensures requestCount == old(requestCount) + 1
      ensures r == RequestOutcome(messages, options, client)
    {
      requestCount := requestCount + 1;
      if messages == [] {
        return Failure("TypeError: cannot read the last message");
      }
      var model := SelectOptimalModel(UserMessage(messages[|messages| - 1]), options.context);
      var completion := client(Request(model.name, FormatMessages(messages), MaxTokens(options)));
      if completion.Failure? {
        return Failure(completion.error);
      }
      var c := completion.value;
      r := Success(Response(c.content, model.name, c.finishReason, c.usage));
    }

    /** SendRequest, seen through the `send` function the loop is specified with. */
    method Call(messages: seq<ChatMessage>, options: Options, client: Client,
                ghost send: seq<ChatMessage> -> Result<Response, string>)
      returns (r: Result<Response, string>)
      requires send == Send(options, client)
      modifies this
      ensures requestCount == old(requestCount) + 1
      ensures r == send(messages)
    {
      r := SendRequest(messages, options, client);
    }

    /** `sendRequestWithContinuation(messages, options)`: the loop, counting
        one request per call it makes. */
    method SendRequestWithContinuation(messages: seq<ChatMessage>, options: Options, client: Client)
      returns (r: Result<Continued, string>)
      modifies this
      ensures r == ContinuationOutcome(messages, options, client)
      ensures requestCount == old(requestCount) + Calls(RunOf(messages, options, client))
    {
      var maxContinues := MaxContinues(options);
      ghost var send := Send(options, client);
      var first := Call(messages, options, client, send);
      StartStep(messages, send, maxContinues);
      if first.Failure? {
        return Failure(first.error);
      }
      var response := first.value;
      var fullResponse := response.content;
      var allUsage := AddUsage(Totals(0, 0, 0), response.usage);
      var continueCount := 0;
      ghost var rs := [response];
      CombinedSingle(ContentOf, response);
      UsageTotalsSnoc([], response);
      assert [] + [response] == [response];
      while response.finishReason == "length" && continueCount < maxContinues
        invariant |rs| == continueCount + 1 && response == rs[|rs| - 1]
        invariant fullResponse == Combined(ContentOf, rs)
        invariant allUsage == UsageTotals(rs)
        invariant RunWith(messages, send, maxContinues) == Continue(NextCall(messages, send), IsCut, ContentOf, maxContinues, rs)
        invariant requestCount == old(requestCount) + |rs|
        decreases maxContinues - continueCount
      {
        continueCount := continueCount + 1;
        var continueMessages := ContinueMessages(messages, fullResponse);
        var outcome := Call(continueMessages, options, client, send);
        LoopStep(messages, send, maxContinues, rs);
        if outcome.Failure? {
          return Failure(outcome.error);
        }
        CombinedSnoc(ContentOf, rs, outcome.value);
        UsageTotalsSnoc(rs, outcome.value);
        response := outcome.value;
        fullResponse := fullResponse + PART_SEPARATOR + response.content;
        allUsage := AddUsage(allUsage, response.usage);
        rs := rs + [response];
      }
      StopStep(messages, send, maxContinues, rs);
      r := Success(Continued(fullResponse, response.model, continueCount, allUsage));
    }

    function Stats(): (s: ServiceStats)
      reads this
      ensures s.totalRequests == requestCount
    {
      ServiceStats(requestCount, 0)
    }
  }
}
