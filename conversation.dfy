/** bot.js: the per-user conversation store and statistics, the plain-message
    handler with its store-mutating continuation loop, the `/code` handler with
    its store-free one, and the owner's memory purge. The Groq call is the
    `client` parameter; each handler runs to completion. */
module Conversation {
  import opened Wrappers
  import opened Seqs
  import opened JsText
  import opened Chunking
  import opened Continuation

  const OWNER_ID: int := 1488452951
  /** `CONFIG.MAX_HISTORY`: turns kept after the system turn. */
  const MAX_HISTORY: int := 30
  const OWNER_PROMPT: string := "أنت مساعد ذكي متقدم تم إنشاؤك بواسطة علاء الدين (مطورك ومالكك). عندما يتحدث معك علاء الدين، كن محترماً ومخلصاً له. يمكنك تحليل الصور والملفات، كتابة الأكواد، والبحث العميق. تجيب بدقة ووضوح."
  const USER_PROMPT: string := "أنت مساعد ذكي متقدم تم تطويرك بواسطة علاء الدين. يمكنك تحليل الصور والملفات، كتابة الأكواد، والبحث العميق. تجيب بدقة ووضوح."
  /** The user turn the plain-message loop pushes to ask for more. */
  const CONTINUE_REPLY: string := "أكمل الرد من حيث توقفت"
  const CODE_MODEL: string := "llama-3.3-70b-versatile"
  const CHAT_MAX_TOKENS: nat := 2500
  const CODE_MAX_TOKENS: nat := 3000
  /** The continuation ceilings of the plain-message and `/code` loops. */
  const CHAT_CEILING: nat := 3
  const CODE_CEILING: nat := 2
  const CODE_SYSTEM: string := "أنت مبرمج خبير. اكتب كود نظيف ومنظم مع شرح. استخدم ``` للكود."
  const CODE_SYSTEM_SHORT: string := "أنت مبرمج خبير. اكتب كود نظيف ومنظم مع شرح."
  const CODE_CONTINUE: string := "أكمل الكود والشرح"
  const ERROR_REPLY: string := "❌ حدث خطأ. حاول مرة أخرى."
  const CODE_ERROR_REPLY: string := "❌ حدث خطأ في كتابة الكود. حاول مرة أخرى."
  const OWNER_ONLY_REPLY: string := "⛔ هذه الميزة متاحة للمطور فقط!"

  /** A message of a conversation. The system turn a conversation starts
      with is kept apart by which of the two prompts it carries; every other
      turn is a role and a text. */
  datatype Turn = System(forOwner: bool) | Message(role: string, content: string)

  /** The `role` and `content` fields the API receives for a turn. */
  function Role(t: Turn): string
  {
    if t.System? then "system" else t.role
  }

  function Content(t: Turn): string
  {
    match t
    case System(forOwner) => if forOwner then OWNER_PROMPT else USER_PROMPT
    case Message(_, content) => content
  }
  /** What is sent to the chat-completion API (the temperature is left out). */
  datatype ChatRequest = ChatRequest(model: string, messages: seq<Turn>, maxTokens: nat)
  /** `completion.choices[0]`: the message content and the finish reason. */
  datatype Reply = Reply(content: string, finishReason: string)
  type Client = ChatRequest -> Result<Reply, string>

  datatype UserStats = UserStats(messageCount: nat, imagesAnalyzed: nat, documentsRead: nat,
                                 codesGenerated: nat, researchesDone: nat)
  datatype BotStats = BotStats(totalMessages: nat, totalUsers: nat, imagesAnalyzed: nat,
                               documentsProcessed: nat, codesGenerated: nat, researchesDone: nat)

  const FRESH_STATS: UserStats := UserStats(0, 0, 0, 0, 0)

  /** The system turn a conversation starts with: the owner's own text for
      the owner, the general one for everybody else. */
  function SystemTurn(userId: int): (t: Turn)
    ensures Role(t) == "system"
    ensures Content(t) == OWNER_PROMPT <==> userId == OWNER_ID
    ensures Content(t) != CONTINUE_REPLY
  {
    System(userId == OWNER_ID)
  }

  /** The conversation `getUserConversation` finds or creates. */
  function Existing(conversations: map<int, seq<Turn>>, userId: int): seq<Turn>
  {
    if userId in conversations then conversations[userId] else [SystemTurn(userId)]
  }

  function StatsOf(userStats: map<int, UserStats>, userId: int): UserStats
  {
    if userId in userStats then userStats[userId] else FRESH_STATS
  }

  /** The trim of `addMessage`: over `MAX_HISTORY + 1` turns, the first turn
      and the last `MAX_HISTORY` ones. */
  function Bounded(conv: seq<Turn>): (r: seq<Turn>)
    ensures |r| == if |conv| > MAX_HISTORY + 1 then MAX_HISTORY + 1 else |conv|
    ensures conv != [] ==> r[0] == conv[0] && r[1..] == conv[|conv| - (|r| - 1)..]
  {
    if |conv| > MAX_HISTORY + 1 then [conv[0]] + Slice(conv, -MAX_HISTORY) else conv
  }

  /** `addMessage` on a conversation: push, then trim. */
  function AddTurn(conv: seq<Turn>, t: Turn): seq<Turn>
  {
    Bounded(conv + [t])
  }

  /** What every stored conversation looks like: its owner's system turn
      first, and at most `MAX_HISTORY` turns after it. */
  predicate ValidConversation(userId: int, conv: seq<Turn>)
  {
    1 <= |conv| <= MAX_HISTORY + 1 && conv[0] == SystemTurn(userId)
  }

  /** `addMessage` keeps the system turn, keeps the bound and ends with the new
      turn; under the bound it only appends, at the bound it drops exactly the
      oldest turn after the system turn. */
  lemma AddTurnValid(userId: int, conv: seq<Turn>, t: Turn)
    requires ValidConversation(userId, conv)
    ensures ValidConversation(userId, AddTurn(conv, t))
    ensures AddTurn(conv, t)[|AddTurn(conv, t)| - 1] == t
    ensures |conv| <= MAX_HISTORY ==> AddTurn(conv, t) == conv + [t]
    ensures |conv| == MAX_HISTORY + 1 ==> AddTurn(conv, t) == [conv[0]] + conv[2..] + [t]
  {
    var r := AddTurn(conv, t);
    if |conv| == MAX_HISTORY + 1 {
      assert r[1..] == (conv + [t])[2..];
      assert (conv + [t])[2..] == conv[2..] + [t];
    }
  }

  /** Trimming a history that is already within the bound changes nothing,
      so the trim is idempotent. */
  lemma BoundedIdempotent(conv: seq<Turn>)
    ensures Bounded(Bounded(conv)) == Bounded(conv)
  {
  }

  /** The filter applied before the full reply is stored: drop the turns
      whose content is the continuation request. */
  predicate KeepTurn(t: Turn)
  {
    !(t.Message? && t.content == CONTINUE_REPLY)
  }

  /** KeepTurn is the source's test on the content of every turn. */
  lemma KeepTurnIsContentTest(t: Turn)
    ensures KeepTurn(t) <==> Content(t) != CONTINUE_REPLY
  {
  }

  /** Removing the continuation turns keeps a conversation valid. */
  lemma FilterValid(userId: int, conv: seq<Turn>)
    requires ValidConversation(userId, conv)
    ensures ValidConversation(userId, Filter(KeepTurn, conv))
  {
    assert Filter(KeepTurn, conv) == [conv[0]] + Filter(KeepTurn, conv[1..]);
  }

  /** After the last step of the plain-message handler: besides the last turn
      (the full reply) no turn holds the continuation request. */
  predicate NoPendingContinue(conv: seq<Turn>)
  {
    forall k :: 0 <= k < |conv| - 1 ==> KeepTurn(conv[k])
  }

  lemma FinalTurnsKept(userId: int, conv: seq<Turn>, reply: Turn)
    requires ValidConversation(userId, conv)
    ensures NoPendingContinue(AddTurn(Filter(KeepTurn, conv), reply))
  {
    var f := Filter(KeepTurn, conv);
    FilterValid(userId, conv);
    var r := AddTurn(f, reply);
    var n := |f| + 1;
    forall k | 0 <= k < |r| - 1
      ensures KeepTurn(r[k])
    {
      if k > 0 {
        assert r[k] == r[1..][k - 1] == (f + [reply])[n - (|r| - 1) + k - 1];
      }
    }
  }

  /** The trace of one plain-message exchange: the store entry it leaves, the
      completions received, and the full reply or the error thrown. */
  datatype Exchange = Exchange(conv: seq<Turn>, replies: seq<Reply>, outcome: Result<string, string>)

  function ReplyContent(r: Reply): string
  {
    r.content
  }

  predicate IsCutReply(r: Reply)
  {
    r.finishReason == "length"
  }

  /** The plain-message loop, once `replies` have come in and `conv` is the
      stored conversation: push the partial reply and the continuation
      request, ask again; when it stops, drop every continuation request and
      push the full reply. */
  function MessageLoop(client: Client, conv: seq<Turn>, replies: seq<Reply>, full: string): Exchange
    requires replies != []
    decreases if |replies| <= CHAT_CEILING then CHAT_CEILING + 1 - |replies| else 0
  {
    var last := replies[|replies| - 1];
    if IsCutReply(last) && |replies| - 1 < CHAT_CEILING then
      var pending := Pending(conv, last.content);
      match client(ChatRequest(CODE_MODEL, pending, CHAT_MAX_TOKENS))
      case Failure(e) => Exchange(pending, replies, Failure(e))
      case Success(r) => MessageLoop(client, pending, replies + [r], full + PART_SEPARATOR + r.content)
    else
      Exchange(AddTurn(Filter(KeepTurn, conv), Message("assistant", full)), replies, Success(full))
  }

  /** One plain-text message: push it, ask, and continue as MessageLoop. */
  function Converse(client: Client, conv0: seq<Turn>, text: string): Exchange
  {
    var conv1 := AddTurn(conv0, Message("user", text));
    match client(ChatRequest(CODE_MODEL, conv1, CHAT_MAX_TOKENS))
    case Failure(e) => Exchange(conv1, [], Failure(e))
    case Success(r) => MessageLoop(client, conv1, [r], r.content)
  }

  /** How many completion calls an exchange made. */
  function ChatCalls(ex: Exchange): nat
  {
    |ex.replies| + (if ex.outcome.Failure? then 1 else 0)
  }

  /** What the plain-message handler promises about an exchange: the stored
      conversation stays valid, at most 1 + 3 calls are made, every reply but
      the last was cut by length; a full reply is the parts joined by a blank
      line, came when the last part was not cut or the ceiling was reached, and
      is stored with no continuation request left before it; a failed
      continuation leaves its request stored. */
  ghost predicate Settled(userId: int, ex: Exchange)
  {
    && ValidConversation(userId, ex.conv)
    && ChatCalls(ex) <= CHAT_CEILING + 1
    && (forall i :: 0 <= i < |ex.replies| - 1 ==> IsCutReply(ex.replies[i]))
    && (ex.outcome.Success? ==>
          && ex.replies != []
          && ex.outcome.value == Combined(ReplyContent, ex.replies)
          && (!IsCutReply(ex.replies[|ex.replies| - 1]) || |ex.replies| == CHAT_CEILING + 1)
          && NoPendingContinue(ex.conv)
          && ex.conv[|ex.conv| - 1] == Message("assistant", ex.outcome.value))
    && (ex.outcome.Failure? && ex.replies != [] ==>
          && IsCutReply(ex.replies[|ex.replies| - 1]) && |ex.replies| <= CHAT_CEILING
          && ex.conv[|ex.conv| - 1] == Message("user", CONTINUE_REPLY))
  }

  /** The conversation a continuation is asked with. */
  function Pending(conv: seq<Turn>, partial: string): seq<Turn>
  {
    AddTurn(AddTurn(conv, Message("assistant", partial)), Message("user", CONTINUE_REPLY))
  }

  lemma PendingValid(userId: int, conv: seq<Turn>, partial: string)
    requires ValidConversation(userId, conv)
    ensures ValidConversation(userId, Pending(conv, partial))
    ensures Pending(conv, partial)[|Pending(conv, partial)| - 1] == Message("user", CONTINUE_REPLY)
  {
    AddTurnValid(userId, conv, Message("assistant", partial));
    AddTurnValid(userId, AddTurn(conv, Message("assistant", partial)), Message("user", CONTINUE_REPLY));
  }

  /** The loop only adds completions to those it started with. */
  lemma {:induction false} MessageLoopExtends(client: Client, conv: seq<Turn>, replies: seq<Reply>, full: string)
    requires replies != []
    ensures var ex := MessageLoop(client, conv, replies, full);
            |ex.replies| >= |replies| && ex.replies[..|replies|] == replies
    decreases if |replies| <= CHAT_CEILING then CHAT_CEILING + 1 - |replies| else 0
  {
    var last := replies[|replies| - 1];
    if IsCutReply(last) && |replies| - 1 < CHAT_CEILING {
      var pending := Pending(conv, last.content);
      match client(ChatRequest(CODE_MODEL, pending, CHAT_MAX_TOKENS))
      case Failure(e) =>
        assert replies[..|replies|] == replies;
      case Success(r) =>
        var more := replies + [r];
        MessageLoopExtends(client, pending, more, full + PART_SEPARATOR + r.content);
        var ex := MessageLoop(client, pending, more, full + PART_SEPARATOR + r.content);
        assert ex.replies[..|replies|] == ex.replies[..|more|][..|replies|];
    } else {
      assert replies[..|replies|] == replies;
    }
  }

  /** The three ways one round of MessageLoop goes. */
  lemma LoopStop(client: Client, conv: seq<Turn>, replies: seq<Reply>, full: string)
    requires replies != []
    requires !(IsCutReply(replies[|replies| - 1]) && |replies| - 1 < CHAT_CEILING)
    ensures MessageLoop(client, conv, replies, full)
            == Exchange(AddTurn(Filter(KeepTurn, conv), Message("assistant", full)), replies, Success(full))
  {
  }

  lemma LoopFail(client: Client, conv: seq<Turn>, replies: seq<Reply>, full: string, e: string)
    requires replies != []
    requires IsCutReply(replies[|replies| - 1]) && |replies| - 1 < CHAT_CEILING
    requires client(ChatRequest(CODE_MODEL, Pending(conv, replies[|replies| - 1].content), CHAT_MAX_TOKENS)) == Failure(e)
    ensures MessageLoop(client, conv, replies, full)
            == Exchange(Pending(conv, replies[|replies| - 1].content), replies, Failure(e))
  {
  }

  lemma LoopNext(client: Client, conv: seq<Turn>, replies: seq<Reply>, full: string, r: Reply)
    requires replies != []
    requires IsCutReply(replies[|replies| - 1]) && |replies| - 1 < CHAT_CEILING
    requires client(ChatRequest(CODE_MODEL, Pending(conv, replies[|replies| - 1].content), CHAT_MAX_TOKENS)) == Success(r)
    ensures MessageLoop(client, conv, replies, full)
            == MessageLoop(client, Pending(conv, replies[|replies| - 1].content), replies + [r], full + PART_SEPARATOR + r.content)
  {
  }

  lemma StopSettled(userId: int, conv: seq<Turn>, replies: seq<Reply>)
    requires replies != [] && |replies| <= CHAT_CEILING + 1
    requires ValidConversation(userId, conv)
    requires forall i :: 0 <= i < |replies| - 1 ==> IsCutReply(replies[i])
    requires !(IsCutReply(replies[|replies| - 1]) && |replies| - 1 < CHAT_CEILING)
    ensures var full := Combined(ReplyContent, replies);
            Settled(userId, Exchange(AddTurn(Filter(KeepTurn, conv), Message("assistant", full)), replies, Success(full)))
  {
    var full := Combined(ReplyContent, replies);
    FilterValid(userId, conv);
    AddTurnValid(userId, Filter(KeepTurn, conv), Message("assistant", full));
    FinalTurnsKept(userId, conv, Message("assistant", full));
  }

  lemma FailSettled(userId: int, conv: seq<Turn>, replies: seq<Reply>, e: string)
    requires replies != [] && |replies| <= CHAT_CEILING + 1
    requires ValidConversation(userId, conv)
    requires forall i :: 0 <= i < |replies| - 1 ==> IsCutReply(replies[i])
    requires IsCutReply(replies[|replies| - 1]) && |replies| - 1 < CHAT_CEILING
    ensures Settled(userId, Exchange(Pending(conv, replies[|replies| - 1].content), replies, Failure(e)))
  {
    PendingValid(userId, conv, replies[|replies| - 1].content);
  }

  lemma {:induction false} MessageLoopSettled(userId: int, client: Client, conv: seq<Turn>,
                                              replies: seq<Reply>)
    requires replies != [] && |replies| <= CHAT_CEILING + 1
    requires ValidConversation(userId, conv)
    requires forall i :: 0 <= i < |replies| - 1 ==> IsCutReply(replies[i])
    ensures Settled(userId, MessageLoop(client, conv, replies, Combined(ReplyContent, replies)))
    decreases if |replies| <= CHAT_CEILING then CHAT_CEILING + 1 - |replies| else 0
  {
    var full := Combined(ReplyContent, replies);
    var last := replies[|replies| - 1];
    if IsCutReply(last) && |replies| - 1 < CHAT_CEILING {
      var pending := Pending(conv, last.content);
      match client(ChatRequest(CODE_MODEL, pending, CHAT_MAX_TOKENS))
      case Failure(e) =>
        LoopFail(client, conv, replies, full, e);
        FailSettled(userId, conv, replies, e);
      case Success(r) =>
        var more := replies + [r];
        LoopNext(client, conv, replies, full, r);
        CombinedSnoc(ReplyContent, replies, r);
        PendingValid(userId, conv, last.content);
        assert forall i :: 0 <= i < |more| - 1 ==> IsCutReply(more[i]) by {
          forall i | 0 <= i < |more| - 1
            ensures IsCutReply(more[i])
          {
            assert more[i] == replies[i];
          }
        }
        MessageLoopSettled(userId, client, pending, more);
    } else {
      LoopStop(client, conv, replies, full);
      StopSettled(userId, conv, replies);
    }
  }

  /** The promises of the plain-message handler, Settled, for every message
      and client; a failed first call leaves the message itself stored. */
  lemma ConverseSettled(userId: int, client: Client, conv0: seq<Turn>, text: string)
    requires ValidConversation(userId, conv0)
    ensures Settled(userId, Converse(client, conv0, text))
    ensures var ex := Converse(client, conv0, text);
            ex.outcome.Failure? && ex.replies == [] ==> ex.conv[|ex.conv| - 1] == Message("user", text)
  {
    var conv1 := AddTurn(conv0, Message("user", text));
    AddTurnValid(userId, conv0, Message("user", text));
    match client(ChatRequest(CODE_MODEL, conv1, CHAT_MAX_TOKENS))
    case Failure(e) =>
      assert Converse(client, conv0, text) == Exchange(conv1, [], Failure(e));
    case Success(r) =>
      CombinedSingle(ReplyContent, r);
      MessageLoopSettled(userId, client, conv1, [r]);
      MessageLoopExtends(client, conv1, [r], r.content);
  }

  /** The line announcing a reply sent in more than two parts. */
  function Notice(n: nat): string
  {
    "✅ تم إرسال الرد الكامل في " + NatToString(n) + " رسائل"
  }

  /** What a handler sends for a message. */
  datatype HandlerReply = Ignored | Answered(parts: seq<string>, notice: Option<string>) | Failed(message: string)

  /** The `/code` request, the first one and a continuation. */
  function CodeRequest(request: string): ChatRequest
  {
    ChatRequest(CODE_MODEL, [Message("system", CODE_SYSTEM),
                             Message("user", "اكتب كود لـ: " + request + "\n\nمع شرح مختصر وتعليقات توضيحية")],
                CODE_MAX_TOKENS)
  }

  function CodeContinueRequest(request: string, full: string): ChatRequest
  {
    ChatRequest(CODE_MODEL, [Message("system", CODE_SYSTEM_SHORT), Message("user", "اكتب كود لـ: " + request),
                             Message("assistant", full), Message("user", CODE_CONTINUE)],
                CODE_MAX_TOKENS)
  }

  function CodeNext(request: string, client: Client): string -> Result<Reply, string>
  {
    full => client(CodeContinueRequest(request, full))
  }

  /** The `/code` loop is the store-free controller with a ceiling of 2. */
  function CodeRun(request: string, client: Client): Run<Reply>
  {
    Controller(client(CodeRequest(request)), CodeNext(request, client), IsCutReply, ReplyContent, CODE_CEILING)
  }

  /** `/code` makes at most three calls, each continuation carrying the code
      so far, and stops at the first reply not cut by length. */
  lemma CodeRunFacts(request: string, client: Client)
    ensures var run := CodeRun(request, client);
            && Calls(run) <= CODE_CEILING + 1
            && (client(CodeRequest(request)).Failure? ==> run == Run([], Some(client(CodeRequest(request)).error)))
            && (client(CodeRequest(request)).Success? ==>
                  && run.responses[..1] == [client(CodeRequest(request)).value]
                  && (forall i :: 1 <= i < |run.responses| ==>
                        client(CodeContinueRequest(request, Combined(ReplyContent, run.responses[..i])))
                        == Success(run.responses[i]))
                  && (forall i :: 0 <= i < |run.responses| - 1 ==> IsCutReply(run.responses[i]))
                  && (run.error.None? ==>
                        !IsCutReply(run.responses[|run.responses| - 1]) || |run.responses| == CODE_CEILING + 1))
  {
    ControllerFollows(client(CodeRequest(request)), CodeNext(request, client), IsCutReply, ReplyContent, CODE_CEILING);
  }

  /** The report the purge sends, as bot.js:830 computes it from the number of
      stored conversations before the purge. */
  function PurgeReportAsWritten(keys: set<int>): int
  {
    |keys| - 1
  }

  /** The number of conversations the purge deletes. */
  function PurgedCount(keys: set<int>): (n: nat)
    ensures n == |keys| - (if OWNER_ID in keys then 1 else 0)
  {
    assert OWNER_ID in keys ==> keys == (keys - {OWNER_ID}) + {OWNER_ID};
    |keys - {OWNER_ID}|
  }

  /** The report as written is right exactly when the owner has a stored
      conversation; with a single other user and none for the owner it
      reports 0 deletions for 1. */
  lemma PurgeReportOffByOne(keys: set<int>)
    ensures PurgeReportAsWritten(keys) == PurgedCount(keys) <==> OWNER_ID in keys
    ensures PurgeReportAsWritten({7}) == 0 && PurgedCount({7}) == 1
  {
    assert {7} - {OWNER_ID} == {7};
  }

  function PurgeMessage(n: nat): string
  {
    "🗑️ تم مسح " + NatToString(n) + " محادثة من الذاكرة!\n(تم الاحتفاظ بمحادثتك يا علاء الدين)"
  }

  /** The store after the purge against the store before it: the owner's
      conversation alone is kept, unchanged. */
  ghost predicate OwnerSpared(before: map<int, seq<Turn>>, after: map<int, seq<Turn>>)
  {
    && (forall k :: k in after <==> k in before && k == OWNER_ID)
    && (forall k :: k in after ==> after[k] == before[k])
  }

  /** The corrected count is the number of conversations the purge deletes. */
  lemma PurgedCountDeleted(before: map<int, seq<Turn>>, after: map<int, seq<Turn>>)
    requires OwnerSpared(before, after)
    ensures PurgedCount(before.Keys) == |before.Keys| - |after.Keys|
    ensures after.Keys <= before.Keys
  {
    if OWNER_ID in before {
      forall k
        ensures k in after.Keys <==> k in {OWNER_ID}
      {
      }
      assert after.Keys == {OWNER_ID};
    } else {
      forall k
        ensures k !in after.Keys
      {
      }
      assert after.Keys == {};
    }
  }

  /** The notice sent after a reply cut into more than two messages. */
  function NoticeFor(n: nat): (r: Option<string>)
    ensures r.Some? <==> n > 2
  {
    if n > 2 then Some(Notice(n)) else None
  }

  /** What the plain-message handler sends for the outcome of an exchange:
      the generic error, or the full reply cut at line boundaries. */
  ghost predicate Answers(result: Result<string, string>, outcome: HandlerReply)
  {
    && (result.Failure? ==> outcome == Failed(ERROR_REPLY))
    && (result.Success? ==>
          outcome.Answered? && LineChunked(result.value, outcome.parts)
          && outcome.notice == NoticeFor(|outcome.parts|))
  }

  function Counted(s: UserStats): UserStats
  {
    s.(messageCount := s.messageCount + 1)
  }

  function CodeCounted(s: UserStats): UserStats
  {
    s.(codesGenerated := s.codesGenerated + 1)
  }

  /** The store-free `/code` loop: the code and its explanation, or the error
      of the call that failed, as CodeRun describes. */
  method WriteCode(request: string, client: Client) returns (r: Result<string, string>)
    ensures var run := CodeRun(request, client);
            && (r.Success? <==> run.error.None?)
            && (r.Success? ==> r.value == Combined(ReplyContent, run.responses))
            && (r.Failure? ==> r.error == run.error.value)
  {
    ghost var next := CodeNext(request, client);
    var first := client(CodeRequest(request));
    if first.Failure? {
      return Failure(first.error);
    }
    var completion := first.value;
    var fullResponse := completion.content;
    var continueCount := 0;
    ghost var rs := [completion];
    CombinedSingle(ReplyContent, completion);
    while completion.finishReason == "length" && continueCount < CODE_CEILING
      invariant |rs| == continueCount + 1 && completion == rs[|rs| - 1]
      invariant fullResponse == Combined(ReplyContent, rs)
      invariant CodeRun(request, client) == Continue(next, IsCutReply, ReplyContent, CODE_CEILING, rs)
      decreases CODE_CEILING - continueCount
    {
      continueCount := continueCount + 1;
      var call := client(CodeContinueRequest(request, fullResponse));
      assert call == next(Combined(ReplyContent, rs));
      if call.Failure? {
        return Failure(call.error);
      }
      CombinedSnoc(ReplyContent, rs, call.value);
      completion := call.value;
      fullResponse := fullResponse + PART_SEPARATOR + completion.content;
      rs := rs + [completion];
    }
    r := Success(fullResponse);
  }

  /** The module-level state of bot.js: `userConversations`, `userStats` and
      `botStats` (its start time is left out). */
  class BotState {
    var conversations: map<int, seq<Turn>>
    var userStats: map<int, UserStats>
    var botStats: BotStats

    ghost predicate Valid()
      reads this
    {
      forall userId :: userId in conversations ==> ValidConversation(userId, conversations[userId])
    }

    constructor()
      ensures Valid()
      ensures conversations == map[] && userStats == map[]
      ensures botStats == BotStats(0, 0, 0, 0, 0, 0)
    {
      conversations := map[];
      userStats := map[];
      botStats := BotStats(0, 0, 0, 0, 0, 0);
    }

    /** `getUserConversation(userId)`: the stored conversation, created with
        its system turn on first use. */
    method GetUserConversation(userId: int) returns (conv: seq<Turn>)
      requires Valid()
      modifies this
      ensures Valid()
      ensures conv == Existing(old(conversations), userId)
      ensures conversations == old(conversations)[userId := conv]
      ensures userStats == old(userStats) && botStats == old(botStats)
    {
      if userId !in conversations {
        conversations := conversations[userId := [SystemTurn(userId)]];
      }
      conv := conversations[userId];
    }

    /** `getUserStats(userId)`, created with zero counters on first use. */
    method GetUserStats(userId: int) returns (s: UserStats)
      modifies this
      ensures s == StatsOf(old(userStats), userId)
      ensures userStats == old(userStats)[userId := s]
      ensures conversations == old(conversations) && botStats == old(botStats)
    {
      if userId !in userStats {
        userStats := userStats[userId := FRESH_STATS];
      }
      s := userStats[userId];
    }

    /** `addMessage(userId, role, content)`. */
    method AddMessage(userId: int, role: string, content: string)
      requires Valid()
      modifies this
      ensures Valid()
      ensures conversations == old(conversations)[userId := AddTurn(Existing(old(conversations), userId), Message(role, content))]
      ensures userStats == old(userStats) && botStats == old(botStats)
    {
      var conv := GetUserConversation(userId);
      ghost var stored := AddTurn(conv, Message(role, content));
      AddTurnValid(userId, conv, Message(role, content));
      conv := conv + [Message(role, content)];
      if |conv| > MAX_HISTORY + 1 {
        conv := [conv[0]] + Slice(conv, -MAX_HISTORY);
      }
      assert conv == stored;
      conversations := conversations[userId := conv];
    }

    /** `clearConversation(userId)`: back to the system turn alone, whatever
        was stored; doing it twice leaves the same store. */
    method ClearConversation(userId: int)
      requires Valid()
      modifies this
      ensures Valid()
      ensures conversations == old(conversations)[userId := [SystemTurn(userId)]]
      ensures userStats == old(userStats) && botStats == old(botStats)
    {
      conversations := conversations[userId := [SystemTurn(userId)]];
    }

    /** The two turns the plain-message loop pushes before asking again, and
        the conversation it then asks with. */
    method AskToContinue(userId: int, partial: string) returns (conv: seq<Turn>)
      requires Valid() && userId in conversations
      modifies this
      ensures Valid()
      ensures conv == Pending(old(conversations)[userId], partial)
      ensures conversations == old(conversations)[userId := conv]
      ensures userStats == old(userStats) && botStats == old(botStats)
    {
      AddMessage(userId, "assistant", partial);
      AddMessage(userId, "user", CONTINUE_REPLY);
      conv := GetUserConversation(userId);
    }

    /** One round of the plain-message loop: ask to continue after the last
        completion, which was cut, and call the client again. */
    method ChatStep(userId: int, client: Client, ghost replies: seq<Reply>, partial: string, full: string)
      returns (next: Result<Reply, string>)
      requires Valid() && userId in conversations
      requires replies != [] && IsCutReply(replies[|replies| - 1]) && |replies| - 1 < CHAT_CEILING
      requires partial == replies[|replies| - 1].content
      modifies this
      ensures Valid() && userId in conversations
      ensures conversations == old(conversations)[userId := conversations[userId]]
      ensures next.Failure? ==>
                MessageLoop(client, old(conversations)[userId], replies, full)
                == Exchange(conversations[userId], replies, Failure(next.error))
      ensures next.Success? ==>
                MessageLoop(client, old(conversations)[userId], replies, full)
                == MessageLoop(client, conversations[userId], replies + [next.value], full + PART_SEPARATOR + next.value.content)
      ensures userStats == old(userStats) && botStats == old(botStats)
    {
      ghost var before := conversations[userId];
      var conv := AskToContinue(userId, partial);
      next := client(ChatRequest(CODE_MODEL, conv, CHAT_MAX_TOKENS));
      if next.Failure? {
        LoopFail(client, before, replies, full, next.error);
      } else {
        LoopNext(client, before, replies, full, next.value);
      }
    }

    /** The end of a plain-message exchange, once the last completion was not
        cut or the ceiling is reached: drop the continuation requests, store
        the full reply, and cut it into messages. */
    method Deliver(userId: int, client: Client, ghost replies: seq<Reply>, full: string)
      returns (outcome: HandlerReply)
      requires Valid() && userId in conversations
      requires replies != [] && !(IsCutReply(replies[|replies| - 1]) && |replies| - 1 < CHAT_CEILING)
      modifies this
      ensures Valid()
      ensures var ex := MessageLoop(client, old(conversations)[userId], replies, full);
              conversations == old(conversations)[userId := ex.conv] && Answers(ex.outcome, outcome)
      ensures userStats == old(userStats) && botStats == old(botStats)
    {
      var conv := GetUserConversation(userId);
      LoopStop(client, conv, replies, full);
      FilterValid(userId, conv);
      conversations := conversations[userId := Filter(KeepTurn, conv)];
      AddMessage(userId, "assistant", full);
      var parts := LineReply(full);
      outcome := Answered(parts, NoticeFor(|parts|));
    }

    /** The continuation loop of the plain-message handler, once the first
        completion has come in: it does what MessageLoop describes. */
    method ChatLoop(userId: int, client: Client, first: Reply) returns (outcome: HandlerReply)
      requires Valid() && userId in conversations
      modifies this
      ensures Valid()
      ensures var ex := MessageLoop(client, old(conversations)[userId], [first], first.content);
              conversations == old(conversations)[userId := ex.conv] && Answers(ex.outcome, outcome)
      ensures userStats == old(userStats) && botStats == old(botStats)
    {
      var completion := first;
      var fullResponse := completion.content;
      var continueCount := 0;
      ghost var replies := [completion];
      while completion.finishReason == "length" && continueCount < CHAT_CEILING
        invariant Valid() && userId in conversations
        invariant conversations == old(conversations)[userId := conversations[userId]]
        invariant userStats == old(userStats) && botStats == old(botStats)
        invariant |replies| == continueCount + 1 && completion == replies[|replies| - 1]
        invariant MessageLoop(client, conversations[userId], replies, fullResponse)
                  == MessageLoop(client, old(conversations)[userId], [first], first.content)
        decreases CHAT_CEILING - continueCount
      {
        continueCount := continueCount + 1;
        var next := ChatStep(userId, client, replies, completion.content, fullResponse);
        if next.Failure? {
          return Failed(ERROR_REPLY);
        }
        completion := next.value;
        fullResponse := fullResponse + PART_SEPARATOR + completion.content;
        replies := replies + [completion];
      }
      outcome := Deliver(userId, client, replies, fullResponse);
    }

    /** The `message` handler for a text message. Commands and empty texts are
        ignored; otherwise the message is counted and the store ends as
        Converse says, also when a call fails. */
    method HandleMessage(userId: int, text: string, client: Client) returns (outcome: HandlerReply)
      requires Valid()
      modifies this
      ensures Valid()
      ensures text == "" || StartsWith(text, "/") ==>
                outcome == Ignored && conversations == old(conversations)
                && userStats == old(userStats) && botStats == old(botStats)
      ensures !(text == "" || StartsWith(text, "/")) ==>
                var ex := Converse(client, Existing(old(conversations), userId), text);
                && conversations == old(conversations)[userId := ex.conv]
                && Answers(ex.outcome, outcome)
                && userStats == old(userStats)[userId := Counted(StatsOf(old(userStats), userId))]
                && botStats == old(botStats).(totalMessages := old(botStats).totalMessages + 1)
    {
      if text == "" || StartsWith(text, "/") {
        return Ignored;
      }
      CountMessage(userId);
      outcome := Respond(userId, text, client);
    }

    /** The counters a plain message raises. */
    method CountMessage(userId: int)
      modifies this
      ensures userStats == old(userStats)[userId := Counted(StatsOf(old(userStats), userId))]
      ensures botStats == old(botStats).(totalMessages := old(botStats).totalMessages + 1)
      ensures conversations == old(conversations)
    {
      var stats := GetUserStats(userId);
      userStats := userStats[userId := stats.(messageCount := stats.messageCount + 1)];
      botStats := botStats.(totalMessages := botStats.totalMessages + 1);
    }

    /** The answering part of the plain-message handler: store the message,
        ask, and run the continuation loop. */
    method Respond(userId: int, text: string, client: Client) returns (outcome: HandlerReply)
      requires Valid()
      modifies this
      ensures Valid()
      ensures var ex := Converse(client, Existing(old(conversations), userId), text);
              conversations == old(conversations)[userId := ex.conv] && Answers(ex.outcome, outcome)
      ensures userStats == old(userStats) && botStats == old(botStats)
    {
      ghost var conv0 := Existing(conversations, userId);
      AddMessage(userId, "user", text);
      var conv := GetUserConversation(userId);
      var first := client(ChatRequest(CODE_MODEL, conv, CHAT_MAX_TOKENS));
      if first.Failure? {
        assert Converse(client, conv0, text) == Exchange(conv, [], Failure(first.error));
        return Failed(ERROR_REPLY);
      }
      assert Converse(client, conv0, text) == MessageLoop(client, conv, [first.value], first.value.content);
      outcome := ChatLoop(userId, client, first.value);
    }

    /** The `/code` handler for the text after `/code `: the loop of CodeRun;
        the code counters rise only when every call succeeded. */
    method CodeCommand(userId: int, request: string, client: Client) returns (outcome: HandlerReply)
      modifies this
      ensures conversations == old(conversations)
      ensures var run := CodeRun(request, client);
              && (run.error.Some? ==>
                    outcome == Failed(CODE_ERROR_REPLY) && userStats == old(userStats) && botStats == old(botStats))
              && (run.error.None? ==>
                    && outcome.Answered? && outcome.notice == None
                    && LineChunked(Combined(ReplyContent, run.responses), outcome.parts)
                    && userStats == old(userStats)[userId := CodeCounted(StatsOf(old(userStats), userId))]
                    && botStats == old(botStats).(codesGenerated := old(botStats).codesGenerated + 1))
    {
      var code := WriteCode(request, client);
      if code.Failure? {
        return Failed(CODE_ERROR_REPLY);
      }
      var stats := GetUserStats(userId);
      userStats := userStats[userId := stats.(codesGenerated := stats.codesGenerated + 1)];
      botStats := botStats.(codesGenerated := botStats.codesGenerated + 1);
      var parts := LineReply(code.value);
      outcome := Answered(parts, None);
    }

    /** The loop of the purge: every stored conversation but the owner's is
        deleted. */
    method DropOthers()
      requires Valid()
      modifies this
      ensures Valid()
      ensures OwnerSpared(old(conversations), conversations)
      ensures userStats == old(userStats) && botStats == old(botStats)
    {
      var keys := conversations.Keys;
      while keys != {}
        invariant keys <= old(conversations).Keys
        invariant forall k :: k in conversations <==> k in old(conversations) && (k == OWNER_ID || k in keys)
        invariant forall k :: k in conversations ==> conversations[k] == old(conversations)[k]
        invariant userStats == old(userStats) && botStats == old(botStats)
        decreases keys
      {
        ghost var w := Member(keys);
        var id :| id in keys;
        if id != OWNER_ID {
          conversations := conversations - {id};
        }
        keys := keys - {id};
      }
    }

    /** The `admin_clear_memory` callback: only the owner may run it; it
        deletes every conversation but the owner's and reports how many it
        deleted (the corrected count, see PurgeReportOffByOne). */
    method AdminClearMemory(callerId: int) returns (reply: string)
      requires Valid()
      modifies this
      ensures Valid()
      ensures callerId != OWNER_ID ==> reply == OWNER_ONLY_REPLY && conversations == old(conversations)
      ensures callerId == OWNER_ID ==>
                OwnerSpared(old(conversations), conversations)
                && reply == PurgeMessage(PurgedCount(old(conversations).Keys))
      ensures userStats == old(userStats) && botStats == old(botStats)
    {
      if callerId != OWNER_ID {
        return OWNER_ONLY_REPLY;
      }
      var count := PurgedCount(conversations.Keys);
      DropOthers();
      reply := PurgeMessage(count);
    }
  }
}
