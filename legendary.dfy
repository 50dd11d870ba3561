/** bot-legendary-practical.js: the keyword model selector, the plain-message
    handler over the per-user history, the web search with its DuckDuckGo
    result shaping and `/search` reply, the video-link router and the `/start`
    user count. The Groq call, the HTTP APIs and the Serper key are
    parameters; each handler runs to completion. */
module Legendary {
  import opened Wrappers
  import opened JsText

  const FAST_MODEL: string := "llama-3.3-70b-versatile"
  const BALANCED_MODEL: string := "llama-3.3-70b-versatile"
  const POWER_MODEL: string := "llama-3.3-70b-versatile"
  const VISION_MODEL: string := "llama-3.2-11b-vision-preview"
  /** The `max_tokens` of every chat completion. */
  const MAX_TOKENS: nat := 3000
  /** Turns kept after the system turn once a history grows too long. */
  const KEPT_TURNS: int := 30
  const SYSTEM_PROMPT: string := "أنت بوت ذكي اسمك 3laa's Assistant. مطورك هو علاء الدين. فقط عند السؤال عن المطور، اذكر اسمه."
  const ERROR_REPLY: string := "❌ حدث خطأ"

  // ----- the model selector -----

  /** Which of the selector's branches answers. */
  datatype Tier = Fast | Balanced | Power

  predicate AsksForCode(lower: string)
  {
    Contains(lower, "كود") || Contains(lower, "code") || Contains(lower, "برمج")
  }

  predicate AsksToExplain(lower: string)
  {
    Contains(lower, "اشرح") || Contains(lower, "حلل") || Contains(lower, "explain")
  }

  /** A short question: under 50 chars and mentioning 'ما' or 'what'. */
  predicate AsksSimply(message: string, lower: string)
  {
    |message| < 50 && (Contains(lower, "ما") || Contains(lower, "what"))
  }

  /** The branch `selectModel` takes: code first, then explanation, then the
      short question, and the balanced model for everything else. */
  function TierOf(message: string): (t: Tier)
    ensures var lower := ToLower(message);
            && (t == Power <==> AsksForCode(lower) || AsksToExplain(lower))
            && (t == Fast <==> !AsksForCode(lower) && !AsksToExplain(lower) && AsksSimply(message, lower))
  {
    var lower := ToLower(message);
    if AsksForCode(lower) then Power
    else if AsksToExplain(lower) then Power
    else if AsksSimply(message, lower) then Fast
    else Balanced
  }

  function ModelOf(t: Tier): string
  {
    match t
    case Fast => FAST_MODEL
    case Balanced => BALANCED_MODEL
    case Power => POWER_MODEL
  }

  /** `selectModel`: whichever branch answers, the three names are the same
      model, so the choice never changes the request. */
  function SelectModel(message: string): (m: string)
    ensures m == "llama-3.3-70b-versatile"
    ensures m != VISION_MODEL
  {
    ModelOf(TierOf(message))
  }

  /** The keyword tests are case-insensitive: an upper-case "CODE" anywhere
      makes the request a code request, however long or short it is. */
  lemma UpperCaseCodeIsPower(message: string)
    requires Contains(message, "CODE")
    ensures TierOf(message) == Power
  {
    ContainsWitness(message, "CODE");
    LowerKeepsOccurrence(message, "CODE", IndexOf(message, "CODE"));
    assert ToLower("CODE") == "code";
    ContainsAt(ToLower(message), "code", IndexOf(message, "CODE"));
  }

  // ----- the history of the plain-message handler -----

  /** A history entry. The system turn is the one fixed prompt; every other
      turn is a role and a text. */
  datatype Turn = System | Message(role: string, content: string)

  function Content(t: Turn): string
  {
    match t
    case System => SYSTEM_PROMPT
    case Message(_, content) => content
  }

  /** What is sent to the chat-completion API (the temperature is left out). */
  datatype ChatRequest = ChatRequest(model: string, messages: seq<Turn>, maxTokens: nat)
  /** The Groq call: the reply text, or the error it throws. */
  type Client = ChatRequest -> Result<string, string>

  /** `getAIResponse`: the model is chosen from the last turn's text. */
  function AiRequest(conv: seq<Turn>): ChatRequest
    requires conv != []
  {
    ChatRequest(SelectModel(Content(conv[|conv| - 1])), conv, MAX_TOKENS)
  }

  /** The history the handler works on: the stored one, or a fresh one
      holding only the system turn. */
  function Opened(conversations: map<int, seq<Turn>>, userId: int): (conv: seq<Turn>)
    ensures userId !in conversations ==> conv == [System]
    ensures userId in conversations ==> conv == conversations[userId]
  {
    if userId in conversations then conversations[userId] else [System]
  }

  /** The trim after a successful reply: over `KEPT_TURNS + 1` entries, the
      first entry and the last `KEPT_TURNS`. */
  function Trimmed(conv: seq<Turn>): (r: seq<Turn>)
    ensures |r| == if |conv| > KEPT_TURNS + 1 then KEPT_TURNS + 1 else |conv|
    ensures conv != [] ==> r[0] == conv[0] && r[1..] == conv[|conv| - (|r| - 1)..]
  {
    if |conv| > KEPT_TURNS + 1 then [conv[0]] + Slice(conv, -KEPT_TURNS) else conv
  }

  /** The history after one handled message: the user turn is pushed first;
      a reply is pushed after it and the history trimmed, a failure leaves the
      user turn in place and trims nothing. */
  function Exchanged(conv: seq<Turn>, text: string, outcome: Result<string, string>): seq<Turn>
  {
    var asked := conv + [Message("user", text)];
    match outcome
    case Failure(_) => asked
    case Success(reply) => Trimmed(asked + [Message("assistant", reply)])
  }

  /** A reply keeps the first entry, ends with the question and its answer,
      and never leaves more than `KEPT_TURNS + 1` entries; below the bound
      nothing is lost. */
  lemma ExchangeAnswered(conv: seq<Turn>, text: string, reply: string)
    requires conv != []
    ensures var r := Exchanged(conv, text, Success(reply));
            && |r| == (if |conv| + 2 > KEPT_TURNS + 1 then KEPT_TURNS + 1 else |conv| + 2)
            && r[0] == conv[0]
            && r[|r| - 2..] == [Message("user", text), Message("assistant", reply)]
            && (|conv| + 2 <= KEPT_TURNS + 1 ==> r == conv + [Message("user", text), Message("assistant", reply)])
  {
    var full := conv + [Message("user", text)] + [Message("assistant", reply)];
    var r := Trimmed(full);
    assert r[1..] == full[|full| - (|r| - 1)..];
    assert r[|r| - 2..] == r[1..][|r| - 3..];
    assert full[|full| - 2..] == [Message("user", text), Message("assistant", reply)];
  }

  /** A failed call keeps the question and trims nothing. */
  lemma ExchangeFailed(conv: seq<Turn>, text: string, error: string)
    ensures Exchanged(conv, text, Failure(error)) == conv + [Message("user", text)]
    ensures |Exchanged(conv, text, Failure(error))| == |conv| + 1
  {
  }

  /** Each failure adds one entry, so a history at the bound grows past it. */
  lemma FailuresGrowPastBound(conv: seq<Turn>, text: string, error: string)
    requires |conv| == KEPT_TURNS + 1
    ensures |Exchanged(conv, text, Failure(error))| > KEPT_TURNS + 1
  {
    ExchangeFailed(conv, text, error);
  }

  /** A history that grew past the bound through failures is brought back to
      it by the next reply, keeping its first entry. */
  lemma OverlongHistoryRecovers(conv: seq<Turn>, text: string, reply: string)
    requires |conv| > KEPT_TURNS + 1
    ensures |Exchanged(conv, text, Success(reply))| == KEPT_TURNS + 1
    ensures Exchanged(conv, text, Success(reply))[0] == conv[0]
  {
    ExchangeAnswered(conv, text, reply);
  }

  /** The handler's filter: no text, a command, or a photo. */
  predicate Ignores(text: string, hasPhoto: bool)
  {
    text == "" || StartsWith(text, "/") || hasPhoto
  }

  // ----- web search -----

  /** A search result as the reply lists it. */
  datatype Hit = Hit(title: string, link: string, snippet: string)
  /** A successful search: its results and its direct answer, if any. */
  datatype Found = Found(results: seq<Hit>, answer: Option<string>)

  /** One entry of DuckDuckGo's `RelatedTopics`; a missing field is `None`. */
  datatype Topic = Topic(text: Option<string>, firstUrl: Option<string>)
  /** The fields of DuckDuckGo's instant-answer JSON the search reads. */
  datatype InstantAnswer = InstantAnswer(relatedTopics: Option<seq<Topic>>, abstractText: Option<string>)
  /** The fields of Serper's JSON the search reads. */
  datatype SerperAnswer = SerperAnswer(organic: Option<seq<Hit>>, answerBox: Option<string>)

  /** JavaScript truthiness of an optional string: present and non-empty. */
  predicate Truthy(o: Option<string>)
  {
    o.Some? && o.value != ""
  }

  /** `x || null` for an optional string. */
  function OrNull(o: Option<string>): (r: Option<string>)
    ensures r.Some? <==> Truthy(o)
    ensures r.Some? ==> r == o
  {
    if Truthy(o) then o else None
  }

  /** How many related topics the search looks at. */
  const TOPICS_LOOKED_AT: nat := 5
  const TITLE_LENGTH: nat := 100

  predicate Usable(t: Topic)
  {
    Truthy(t.text) && Truthy(t.firstUrl)
  }

  function HitOf(t: Topic): Hit
    requires Usable(t)
  {
    Hit(Prefix(t.text.value, TITLE_LENGTH), t.firstUrl.value, t.text.value)
  }

  /** The results the `forEach` pushes for `topics`, in order. */
  function Shaped(topics: seq<Topic>): seq<Hit>
  {
    if topics == [] then []
    else
      var last := topics[|topics| - 1];
      Shaped(topics[..|topics| - 1]) + (if Usable(last) then [HitOf(last)] else [])
  }

  /** Each shaped result comes from a usable topic: its link is the topic's
      URL, its snippet the topic's text and its title the first 100 code
      units of that text; there are never more results than topics. */
  lemma {:induction false} ShapedFromTopics(topics: seq<Topic>)
    ensures |Shaped(topics)| <= |topics|
    ensures forall i :: 0 <= i < |Shaped(topics)| ==>
              exists j :: 0 <= j < |topics| && Usable(topics[j]) && Shaped(topics)[i] == HitOf(topics[j])
  {
    if topics != [] {
      var init := topics[..|topics| - 1];
      var last := topics[|topics| - 1];
      ShapedFromTopics(init);
      assert Shaped(topics) == Shaped(init) + (if Usable(last) then [HitOf(last)] else []);
      forall i | 0 <= i < |Shaped(topics)|
        ensures exists j :: 0 <= j < |topics| && Usable(topics[j]) && Shaped(topics)[i] == HitOf(topics[j])
      {
        if i < |Shaped(init)| {
          assert Shaped(topics)[i] == Shaped(init)[i];
          var j :| 0 <= j < |init| && Usable(init[j]) && Shaped(init)[i] == HitOf(init[j]);
          assert topics[j] == init[j];
          assert 0 <= j < |topics| && Usable(topics[j]) && Shaped(topics)[i] == HitOf(topics[j]);
        } else {
          var j := |topics| - 1;
          assert Usable(topics[j]) && Shaped(topics)[i] == HitOf(topics[j]);
        }
      }
    }
  }

  /** Every usable topic yields a result: the filter drops exactly the
      topics without a text or a URL. */
  lemma {:induction false} ShapedCount(topics: seq<Topic>, j: int)
    requires 0 <= j < |topics| && Usable(topics[j])
    ensures HitOf(topics[j]) in Shaped(topics)
  {
    var init := topics[..|topics| - 1];
    if j < |topics| - 1 {
      assert init[j] == topics[j];
      ShapedCount(init, j);
    }
  }

  /** Titles are the text cut to 100 chars. */
  lemma TitleIsCut(t: Topic)
    requires Usable(t)
    ensures |HitOf(t).title| <= TITLE_LENGTH
    ensures HitOf(t).snippet[..|HitOf(t).title|] == HitOf(t).title
  {
  }

  /** `duckDuckGoSearch` once the JSON has arrived: look at the first five
      related topics and push a result for each that has both fields. */
  method DuckDuckGoResults(body: InstantAnswer) returns (found: Found)
    ensures found.answer == OrNull(body.abstractText)
    ensures body.relatedTopics.None? ==> found.results == []
    ensures body.relatedTopics.Some? ==>
              found.results == Shaped(Prefix(body.relatedTopics.value, TOPICS_LOOKED_AT))
    ensures |found.results| <= TOPICS_LOOKED_AT
  {
    var results: seq<Hit> := [];
    if body.relatedTopics.Some? {
      var window := Prefix(body.relatedTopics.value, TOPICS_LOOKED_AT);
      var i := 0;
      while i < |window|
        invariant 0 <= i <= |window|
        invariant results == Shaped(window[..i])
      {
        var topic := window[i];
        assert window[..i + 1][..i] == window[..i];
        if topic.text.Some? && topic.text.value != "" && topic.firstUrl.Some? && topic.firstUrl.value != "" {
          results := results + [Hit(Prefix(topic.text.value, TITLE_LENGTH), topic.firstUrl.value, topic.text.value)];
        }
        i := i + 1;
      }
      assert window[..|window|] == window;
      ShapedFromTopics(window);
    }
    found := Found(results, OrNull(body.abstractText));
  }

  /** `serperSearch` once the JSON has arrived. */
  function SerperResults(body: SerperAnswer): (found: Found)
    ensures body.organic.Some? ==> found.results == body.organic.value
    ensures body.organic.None? ==> found.results == []
    ensures found.answer.Some? <==> Truthy(body.answerBox)
  {
    Found(if body.organic.Some? then body.organic.value else [], OrNull(body.answerBox))
  }

  // ----- the /search reply -----

  const SEARCH_FAILED: string := "❌ فشل البحث. حاول مرة أخرى."
  const ANSWER_HEADING: string := "💡 **الإجابة المباشرة:**\n"
  const SOURCES_HEADING: string := "📚 **المصادر:**\n"
  /** How many sources the reply lists. */
  const SOURCES_LISTED: nat := 3

  function SearchHeading(query: string): string
  {
    "🌐 **نتائج البحث عن:** " + query + "\n\n"
  }

  function AnswerBlock(answer: Option<string>): string
  {
    if Truthy(answer) then ANSWER_HEADING + answer.value + "\n\n" else ""
  }

  /** The lines for the source numbered `n`. */
  function SourceEntry(n: nat, h: Hit): string
  {
    "\n" + NatToString(n) + ". **" + h.title + "**\n" + h.snippet + "\n" + "🔗 " + h.link + "\n"
  }

  /** The entries for `shown`, numbered from 1 in order. */
  function Listing(shown: seq<Hit>): string
  {
    if shown == [] then ""
    else Listing(shown[..|shown| - 1]) + SourceEntry(|shown|, shown[|shown| - 1])
  }

  function SourcesBlock(results: seq<Hit>): string
  {
    if |results| > 0 then SOURCES_HEADING + Listing(Prefix(results, SOURCES_LISTED)) else ""
  }

  /** The text `/search` sends for what `webSearch` returned. */
  function SearchReply(query: string, found: Option<Found>): string
  {
    match found
    case None => SEARCH_FAILED
    case Some(f) => SearchHeading(query) + AnswerBlock(f.answer) + SourcesBlock(f.results)
  }

  /** The reply assembly of `/search`: the heading, the answer block, then
      the sources heading and one entry per shown result. */
  method SearchReplyText(query: string, found: Option<Found>) returns (response: string)
    ensures response == SearchReply(query, found)
  {
    if found.None? {
      return SEARCH_FAILED;
    }
    var f := found.value;
    response := SearchHeading(query);
    if f.answer.Some? && f.answer.value != "" {
      response := response + AnswerBlock(f.answer);
    } else {
      assert response == SearchHeading(query) + AnswerBlock(f.answer);
    }
    if |f.results| > 0 {
      response := response + SOURCES_HEADING;
      response := AppendSources(response, Prefix(f.results, SOURCES_LISTED));
    } else {
      assert response == response + SourcesBlock(f.results);
    }
  }

  /** The `forEach` of `/search`: one entry per shown result, numbered from 1. */
  method AppendSources(start: string, shown: seq<Hit>) returns (response: string)
    ensures response == start + Listing(shown)
  {
    response := start;
    var i := 0;
    while i < |shown|
      invariant 0 <= i <= |shown|
      invariant response == start + Listing(shown[..i])
    {
      assert shown[..i + 1][..i] == shown[..i];
      response := response + SourceEntry(i + 1, shown[i]);
      i := i + 1;
    }
    assert shown[..|shown|] == shown;
  }

  /** Results after the third never reach the reply. */
  lemma OnlyThreeSourcesListed(query: string, results: seq<Hit>, more: seq<Hit>, answer: Option<string>)
    requires |results| >= SOURCES_LISTED
    ensures SearchReply(query, Some(Found(results + more, answer)))
            == SearchReply(query, Some(Found(results, answer)))
  {
    assert Prefix(results + more, SOURCES_LISTED) == Prefix(results, SOURCES_LISTED);
  }

  /** A direct answer adds exactly its block between the heading and the
      sources; without one the reply is the heading and the sources only. */
  lemma AnswerBlockOnlyWithAnswer(query: string, results: seq<Hit>, answer: string)
    ensures var without := SearchReply(query, Some(Found(results, None)));
            && without == SearchHeading(query) + SourcesBlock(results)
            && (answer != "" ==>
                  SearchReply(query, Some(Found(results, Some(answer))))
                  == SearchHeading(query) + ANSWER_HEADING + answer + "\n\n" + without[|SearchHeading(query)|..])
  {
    var h, b := SearchHeading(query), SourcesBlock(results);
    var without := SearchReply(query, Some(Found(results, None)));
    assert without == h + "" + b;
    assert h + "" == h;
    assert without[|h|..] == b;
    if answer != "" {
      assert SearchReply(query, Some(Found(results, Some(answer))))
             == h + (ANSWER_HEADING + answer + "\n\n") + b;
      Regroup(h, ANSWER_HEADING, answer, "\n\n", b);
    }
  }

  lemma Regroup<T>(h: seq<T>, x: seq<T>, y: seq<T>, z: seq<T>, b: seq<T>)
    ensures h + (x + y + z) + b == h + x + y + z + b
  {
  }

  /** With no results the reply lists no sources at all. */
  lemma NoResultsNoSources(query: string, answer: Option<string>)
    ensures SearchReply(query, Some(Found([], answer))) == SearchHeading(query) + AnswerBlock(answer)
  {
  }

  // ----- video links -----

  const UNSUPPORTED_LINK: string := "رابط غير مدعوم"
  const DOWNLOAD_FAILED: string := "فشل التحميل"
  const INSTAGRAM_REFUSAL: string := "Instagram يحتاج إعدادات إضافية. استخدم YouTube أو TikTok."

  /** What `downloadVideo` returns: a video URL and title, or a message. */
  datatype Download = Fetched(url: string, title: string) | Refused(message: string)

  /** The Cobalt API's JSON, as `downloadYouTube` reads it. */
  datatype CobaltAnswer = CobaltAnswer(status: string, url: Option<string>, title: Option<string>)
  /** The `data` object of the TikWM API's JSON. */
  datatype TikTokData = TikTokData(play: Option<string>, title: Option<string>)
  /** A POST to an API: its parsed JSON, or the message of the error thrown. */
  type Api<T> = string -> Result<T, string>

  datatype Route = ToYouTube | ToTikTok | ToInstagram | Unsupported

  /** The handler a link goes to: YouTube first, then TikTok, then
      Instagram. */
  function RouteOf(url: string): (r: Route)
    ensures r == ToYouTube <==> Contains(url, "youtube.com") || Contains(url, "youtu.be")
    ensures r == ToTikTok <==> !(Contains(url, "youtube.com") || Contains(url, "youtu.be")) && Contains(url, "tiktok.com")
    ensures r == ToInstagram <==> !(Contains(url, "youtube.com") || Contains(url, "youtu.be"))
                                  && !Contains(url, "tiktok.com") && Contains(url, "instagram.com")
  {
    if Contains(url, "youtube.com") || Contains(url, "youtu.be") then ToYouTube
    else if Contains(url, "tiktok.com") then ToTikTok
    else if Contains(url, "instagram.com") then ToInstagram
    else Unsupported
  }

  /** `downloadYouTube`: a success with a URL is a video, titled
      'YouTube Video' when the API gives none. */
  function FromCobalt(answer: Result<CobaltAnswer, string>): Download
  {
    match answer
    case Failure(message) => Refused(message)
    case Success(a) =>
      if a.status == "success" && Truthy(a.url) then
        Fetched(a.url.value, if Truthy(a.title) then a.title.value else "YouTube Video")
      else Refused(DOWNLOAD_FAILED)
  }

  /** `downloadTikTok`: a `data.play` URL is a video, titled 'TikTok Video'
      when the API gives none. */
  function FromTikTok(answer: Result<Option<TikTokData>, string>): Download
  {
    match answer
    case Failure(message) => Refused(message)
    case Success(data) =>
      if data.Some? && Truthy(data.value.play) then
        Fetched(data.value.play.value, if Truthy(data.value.title) then data.value.title.value else "TikTok Video")
      else Refused(DOWNLOAD_FAILED)
  }

  /** What `downloadVideo` returns for `url`. */
  function Downloaded(url: string, cobalt: Api<CobaltAnswer>, tikwm: Api<Option<TikTokData>>): Download
  {
    match RouteOf(url)
    case ToYouTube => FromCobalt(cobalt(url))
    case ToTikTok => FromTikTok(tikwm(url))
    case ToInstagram => Refused(INSTAGRAM_REFUSAL)
    case Unsupported => Refused(UNSUPPORTED_LINK)
  }

  /** Only YouTube and TikTok links can yield a video, and a video always has
      a non-empty URL and title; an Instagram link always ends in the
      Instagram message and an unrecognised link in the unsupported one,
      whatever the APIs answer. */
  lemma DownloadOutcomes(url: string, cobalt: Api<CobaltAnswer>, tikwm: Api<Option<TikTokData>>)
    ensures var d := Downloaded(url, cobalt, tikwm);
            && (d.Fetched? ==> (RouteOf(url) == ToYouTube || RouteOf(url) == ToTikTok) && d.url != "" && d.title != "")
            && (RouteOf(url) == ToInstagram ==> d == Refused(INSTAGRAM_REFUSAL))
            && (RouteOf(url) == Unsupported ==> d == Refused(UNSUPPORTED_LINK))
  {
  }

  // ----- the bot's state -----

  datatype Stats = Stats(totalUsers: nat, totalMessages: nat, searches: nat,
                         videosDownloaded: nat, imagesSearched: nat)

  /** `/start`'s count: a user without a history is counted, every time. */
  function Started(stats: Stats, conversations: map<int, seq<Turn>>, userId: int): (s: Stats)
    ensures s.totalUsers == stats.totalUsers + (if userId in conversations then 0 else 1)
    ensures s.(totalUsers := stats.totalUsers) == stats
  {
    if userId in conversations then stats else stats.(totalUsers := stats.totalUsers + 1)
  }

  /** `/start` opens no history, so greeting the same new user twice counts
      them twice. */
  lemma StartCountsAgain(stats: Stats, conversations: map<int, seq<Turn>>, userId: int)
    requires userId !in conversations
    ensures Started(Started(stats, conversations, userId), conversations, userId).totalUsers
            == stats.totalUsers + 2
  {
  }

  /** `botData`: the histories and the counters. */
  class Bot {
    var conversations: map<int, seq<Turn>>
    var stats: Stats

    constructor()
      ensures conversations == map[]
      ensures stats == Stats(0, 0, 0, 0, 0)
    {
      conversations := map[];
      stats := Stats(0, 0, 0, 0, 0);
    }

    /** `/start`: count the user when they have no history; the greeting text
        is left out. */
    method Start(userId: int)
      modifies this
      ensures conversations == old(conversations)
      ensures stats == Started(old(stats), old(conversations), userId)
    {
      if userId !in conversations {
        stats := stats.(totalUsers := stats.totalUsers + 1);
      }
    }

    /** The plain-message handler: count the message, open the history,
        push the question, ask the model, then push the answer and trim, or
        send the error text and keep the question. */
    method HandleMessage(userId: int, text: string, hasPhoto: bool, client: Client) returns (reply: Option<string>)
      modifies this
      ensures Ignores(text, hasPhoto) ==>
                reply == None && conversations == old(conversations) && stats == old(stats)
      ensures !Ignores(text, hasPhoto) ==>
                var asked := Opened(old(conversations), userId) + [Message("user", text)];
                var outcome := client(AiRequest(asked));
                && stats == old(stats).(totalMessages := old(stats).totalMessages + 1)
                && conversations == old(conversations)[userId := Exchanged(Opened(old(conversations), userId), text, outcome)]
                && reply == Some(if outcome.Success? then outcome.value else ERROR_REPLY)
    {
      if text == "" || StartsWith(text, "/") || hasPhoto {
        return None;
      }
      stats := stats.(totalMessages := stats.totalMessages + 1);
      if userId !in conversations {
        conversations := conversations[userId := [System]];
      }
      ghost var current := conversations[userId];
      assert current == Opened(old(conversations), userId);
      var conversation := conversations[userId] + [Message("user", text)];
      conversations := conversations[userId := conversation];
      var response := client(AiRequest(conversation));
      if response.Failure? {
        return Some(ERROR_REPLY);
      }
      conversation := conversation + [Message("assistant", response.value)];
      conversations := conversations[userId := conversation];
      if |conversation| > 31 {
        conversations := conversations[userId := [conversation[0]] + Slice(conversation, -30)];
      }
      assert conversations[userId] == Exchanged(current, text, response);
      reply := Some(response.value);
    }

    /** `webSearch`: count the search, then ask Serper when its key is set and
        DuckDuckGo otherwise; a failed request is `null`. */
    method WebSearch(query: string, hasSerperKey: bool, serper: Api<SerperAnswer>,
                     duckDuckGo: Api<InstantAnswer>) returns (found: Option<Found>)
      modifies this
      ensures conversations == old(conversations)
      ensures stats == old(stats).(searches := old(stats).searches + 1)
      ensures hasSerperKey ==>
                found == (if serper(query).Success? then Some(SerperResults(serper(query).value)) else None)
      ensures !hasSerperKey ==> (found.Some? <==> duckDuckGo(query).Success?)
      ensures !hasSerperKey && found.Some? ==> |found.value.results| <= TOPICS_LOOKED_AT
      ensures !hasSerperKey && found.Some? ==>
                var body := duckDuckGo(query).value;
                found.value == Found(if body.relatedTopics.Some?
                                     then Shaped(Prefix(body.relatedTopics.value, TOPICS_LOOKED_AT))
                                     else [],
                                     OrNull(body.abstractText))
    {
      stats := stats.(searches := stats.searches + 1);
      if hasSerperKey {
        var answer := serper(query);
        found := if answer.Success? then Some(SerperResults(answer.value)) else None;
      } else {
        var answer := duckDuckGo(query);
        if answer.Failure? {
          return None;
        }
        var shaped := DuckDuckGoResults(answer.value);
        found := Some(shaped);
      }
    }

    /** `downloadVideo`: count the attempt before looking at the link, then
        route it. */
    method DownloadVideo(url: string, cobalt: Api<CobaltAnswer>, tikwm: Api<Option<TikTokData>>)
      returns (d: Download)
      modifies this
      ensures conversations == old(conversations)
      ensures stats == old(stats).(videosDownloaded := old(stats).videosDownloaded + 1)
      ensures d == Downloaded(url, cobalt, tikwm)
    {
      stats := stats.(videosDownloaded := stats.videosDownloaded + 1);
      if Contains(url, "youtube.com") || Contains(url, "youtu.be") {
        d := FromCobalt(cobalt(url));
      } else if Contains(url, "tiktok.com") {
        d := FromTikTok(tikwm(url));
      } else if Contains(url, "instagram.com") {
        d := Refused(INSTAGRAM_REFUSAL);
      } else {
        d := Refused(UNSUPPORTED_LINK);
      }
    }
  }
}
