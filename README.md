# Telegram assistant bots — a verified model of their logic

The repository is a set of Telegram bots around hosted language models, web
scrapers and video downloaders. This project models the logic between those
services and proves properties of it in Dafny:

- the per-user conversation store of `bot.js`, with its bounded history, its
  reset, its admin purge and the two continuation loops that re-ask the model
  while a reply is cut off;
- the two reply chunkers (the line packer and the `/.{1,4000}/g` splitter);
- the model-routing rules of `config/models.js` and `services/aiService.js`,
  and `sendRequestWithContinuation` with its usage totals and request counter;
- the `bot-legendary-practical.js` variant: its model selector, its history
  trimming, the DuckDuckGo and Serper result shaping, the `/search` reply
  text, the video-download routing and the `/start` user count;
- the in-memory log buffer of `utils/logger.js`;
- the video service: platform detection, the YouTube-id search, the download
  fallback chains, the temp-file age rule and the download counter;
- the vision service: prompt enhancement, the confidence estimate, the merge
  of basic and detailed analyses and the order of the model calls;
- the advanced search service: page-text cleanup, the content selectors,
  Google redirect unwrapping, the result caps and filters, the Google-to-
  DuckDuckGo fallback, the deep-search report and `isValidImageUrl`.

Strings are `seq<char>`, one char per Unicode scalar value. JavaScript
counts UTF-16 code units, so `.length`, `substring` and `slice` agree with
JavaScript exactly on text inside the Basic Multilingual Plane (which holds
all Arabic and Latin text); the length-dependent members listed under
"## Left out" differ on text outside it. `js_text.dfy` gives the
JavaScript string operations the code relies on (`includes`, `indexOf`,
`split`, `join`, `slice`, `trim`, the `\s` class, `toLowerCase`). Every
foreign service — the chat-completion client, the vision client, HTTP
answers, `yt-dlp`, the HTML selector engine, `isValidUrl`,
`decodeURIComponent`, the clock — is a function-typed parameter, and each
handler is modelled as running to completion.

Files: `wrappers.dfy` (`Option`, `Result`), `seqs.dfy` (filter, map,
flatten), `js_text.dfy`, `chunking.dfy`, `continuation.dfy` (the
store-free continuation loop shared by `aiService.js` and the `/code`
handler), `models.dfy`, `ai_service.dfy`, `conversation.dfy` (`bot.js`),
`legendary.dfy`, `logger.dfy`, `video.dfy`, `vision.dfy`, `search.dfy`.

## Model

| member | source | states |
|---|---|---|
| Models.SelectModel | config/models.js:89-127 | The chosen model is in the table; VISION iff vision is required; CODE iff, without vision, code is required or the type is code; LONG_CONTEXT and RESEARCH in that priority order; when none of those rules applies, the model of the difficulty switch; the token limit is at least 8000 |
| Models.DifficultyModel | config/models.js:113-126 | simple maps to FAST, complex and expert to POWER, every other or missing difficulty to BALANCED (both directions) |
| Models.DifficultyDecidesLast | config/models.js:113-126 | With no vision, code, long-context or type match, an unknown difficulty selects the same model as `moderate`, namely BALANCED |
| Models.AnalyzeDifficulty | config/models.js:130-159 | The result is one of the four levels; expert iff an expert keyword occurs in the lowercased text; complex, moderate and simple each characterised by keyword precedence and the 50/150 length thresholds |
| Models.LengthMonotone | config/models.js:151-158 | Without keywords a longer question never gets a lower difficulty, and never reaches expert |
| Models.AnalyzeContentType | config/models.js:162-178 | The type is code iff a code keyword or a code fence occurs; research iff not code and a research keyword occurs; otherwise text |
| AiService.RequirementsFor | services/aiService.js:25-32 | Each requirement is the caller's context field when given, else long context iff length over 2000 or a document, code iff type code or a fence, vision iff an image, and the analysed difficulty and type |
| AiService.SelectOptimalModel | services/aiService.js:18-45 | A missing message (the error path) selects BALANCED; otherwise the model selected for the built requirements |
| AiService.RoutingOfPlainContext | services/aiService.js:25-39 | With an empty context a code fence routes to CODE, and a non-code message over 2000 chars routes to LONG_CONTEXT |
| AiService.VisionOverride | services/aiService.js:25-39 | A context requiring vision selects VISION whatever the message |
| AiService.ContinuationRoutedFast | services/aiService.js:122-126 | When the caller's options set none of the routing fields (no image, no document, no difficulty, type or `requires*` override), the user turn of every continuation request routes to FAST, because the continue instruction contains a simple keyword |
| AiService.PromptDifficulty | services/aiService.js:125 | The continue instruction is analysed as simple (a fact about that one constant, used by `ContinuationRoutedFast`) |
| AiService.PromptContentType | services/aiService.js:125 | The continue instruction is analysed as text (a fact about that one constant, used by `ContinuationRoutedFast`) |
| AiService.FormatMessages | services/aiService.js:150-157 | Length and order are kept; a plain string becomes a user record with that content; a record is returned unchanged |
| AiService.FormatMessagesLaws | services/aiService.js:150-157 | Formatting is idempotent and distributes over concatenation |
| AiService.MaxContinues | services/aiService.js:104 | A missing or zero option falls back to 3; any other value is used as given |
| AiService.UsageTotalsSnoc | services/aiService.js:110-114 | The usage totals of one more response are the previous totals plus its fields, a missing field counting 0 |
| AiService.ContinuationContract | services/aiService.js:100-145 | At most 1 + ceiling calls; success iff no call failed; the first call gets the messages, each later call the continuation of everything joined so far; every response but the last was cut by length; the content joins the parts with a blank line and the continuation count is the loop count |
| AiService.TwoPartReply | services/aiService.js:117-141 | A cut reply followed by a finished one gives their contents joined with a blank line and one continuation |
| AiService.StartStep | services/aiService.js:106-116 | A failing first call fails the whole request after one call; a successful one starts the loop with that response |
| AiService.LoopStep | services/aiService.js:117-136 | While the last response is cut and the ceiling is not reached, the next request is sent; its failure fails the request, its success extends the run |
| AiService.StopStep | services/aiService.js:117-144 | When the loop stops, the result is the joined content, the last model, the loop count and the usage totals |
| AiService.AIService.constructor | services/aiService.js:10-13 | The request counter starts at 0 |
| AiService.AIService.SendRequest | services/aiService.js:50-95 | The counter rises by one and the result is the client's answer to the built request for the model selected from the last message |
| AiService.AIService.Call | services/aiService.js:50-95 | One counted request whose result is the abstract send function's answer |
| AiService.AIService.SendRequestWithContinuation | services/aiService.js:100-145 | The result is the continuation outcome and the counter rises by exactly the number of calls made |
| AiService.AIService.Stats | services/aiService.js:162-167 | The reported total is the request counter |
| Continuation.Continue | bot.js:364-394 | The loop only extends the parts it has been given |
| Continuation.ContinueFollows | bot.js:364-394 | A run follows the protocol: each call continues the text joined so far, every part but the last was cut, the run stops at an uncut part, at the ceiling or at the first failure |
| Continuation.ControllerFollows | bot.js:345-394 | A failing first request yields no parts and that error; a successful one starts the run and the run follows the protocol |
| Continuation.ControllerCallBound | bot.js:364-366 | The controller makes at most 1 + ceiling calls |
| Continuation.AlwaysTruncated | bot.js:364-394 | When every answer is cut and none fails, exactly 1 + ceiling parts are collected |
| Continuation.CombinedSnoc | bot.js:393 | Adding a part appends a blank line and its text |
| Conversation.SystemTurn | bot.js:40-50 | A system turn whose content is the owner text iff the user is the owner, and never the continue instruction |
| Conversation.Bounded | bot.js:76-81 | A history over 31 turns becomes its first turn plus its last 30, otherwise it is kept |
| Conversation.AddTurnValid | bot.js:72-82 | Appending keeps the system turn first and the bound; it ends with the new turn; under the bound it only appends; at the bound it drops exactly the oldest non-system turn |
| Conversation.BoundedIdempotent | bot.js:76-81 | Trimming twice equals trimming once |
| Conversation.KeepTurnIsContentTest | bot.js:730-732 | The filter keeps a turn iff its content is not the continue instruction |
| Conversation.FilterValid | bot.js:729-732 | Filtering out continue turns keeps a well-formed conversation |
| Conversation.FinalTurnsKept | bot.js:729-735 | After filtering and appending the full reply no continue turn is left |
| Conversation.PendingValid | bot.js:710-722 | Pushing the partial reply and the continue turn keeps a well-formed conversation ending with the continue turn |
| Conversation.MessageLoopExtends | bot.js:703-726 | The message loop only extends the replies it has been given |
| Conversation.LoopStop | bot.js:703-735 | When the loop stops, the store holds the filtered history plus the full reply and the outcome is that reply |
| Conversation.LoopFail | bot.js:703-778 | A failing continuation leaves the pushed partial and continue turns in the store and fails the handler |
| Conversation.LoopNext | bot.js:703-726 | A successful continuation request continues the loop from the pushed store |
| Conversation.MessageLoopSettled | bot.js:703-735 | Whatever the client answers, the loop ends with a well-formed store; on success the reply is the parts joined in order and no continue turn remains |
| Conversation.ConverseSettled | bot.js:689-778 | A whole exchange ends settled, and a first call that fails leaves the user's turn last in the store |
| Conversation.CodeRunFacts | bot.js:345-394 | The `/code` loop makes at most 3 calls, the first with the request, each later one with the reply so far, and stops at the first uncut reply or failure |
| Conversation.WriteCode | bot.js:345-394 | Success iff no call failed, and then the reply is the parts joined by blank lines; otherwise the client's error |
| Conversation.PurgedCount | bot.js:823-828 | The number of conversations a purge deletes: every key except the owner's |
| Conversation.PurgeReportOffByOne | bot.js:830 | The reported count equals the deleted count iff the owner has a conversation; with one other user and no owner it reports 0 for 1 |
| Conversation.PurgedCountDeleted | bot.js:822-828 | When only the owner's conversation survives, the deleted count is the difference of the key sets |
| Conversation.NoticeFor | bot.js:765-770 | The closing notice is sent iff there are more than 2 parts |
| Conversation.BotState.constructor | bot.js:18-28 | Empty conversations and statistics, all counters 0 |
| Conversation.BotState.GetUserConversation | bot.js:40-53 | Returns the existing conversation, or creates a single system turn; nothing else changes |
| Conversation.BotState.GetUserStats | bot.js:56-69 | Returns existing statistics or creates zeroed ones; nothing else changes |
| Conversation.BotState.AddMessage | bot.js:72-82 | The user's conversation becomes the bounded append of the new turn; nothing else changes |
| Conversation.BotState.ClearConversation | bot.js:85-95 | The user's conversation becomes exactly one system turn |
| Conversation.BotState.AskToContinue | bot.js:710-722 | The store gets the partial reply and the continue turn pushed |
| Conversation.BotState.ChatStep | bot.js:710-722 | One continuation round updates the store as the loop specification says and returns the client's answer |
| Conversation.BotState.Deliver | bot.js:729-773 | The store is filtered and gets the full reply; the answer is the chunked reply with the notice rule |
| Conversation.BotState.ChatLoop | bot.js:703-773 | Store and answer are those of the message-loop specification |
| Conversation.BotState.HandleMessage | bot.js:671-779 | Empty text and commands are ignored with nothing changed; otherwise the counters rise, the store becomes the exchange's final store and the answer matches its outcome |
| Conversation.BotState.CountMessage | bot.js:682-685 | The user's message count and the total rise by one |
| Conversation.BotState.Respond | bot.js:687-779 | The store and the answer follow the exchange specification |
| Conversation.BotState.CodeCommand | bot.js:336-427 | A failure answers the error text and counts nothing; success counts one code and answers the reply chunked by lines when over 4000 chars; the store is untouched |
| Conversation.BotState.DropOthers | bot.js:824-828 | Only the owner's conversation survives, unchanged |
| Conversation.BotState.AdminClearMemory | bot.js:790-834 | A non-owner gets the refusal with nothing changed; the owner's purge spares only the owner and reports the number actually deleted |
| Chunking.FlattenTerminated | bot.js:403-413 | The lines each followed by a line feed concatenate to the text joined by line feeds plus one line feed |
| Chunking.SplitLines | bot.js:400-413 | The parts concatenate to the text plus a line feed; each part is non-empty, within 4000 chars unless it is one line with its line feed, and ends with a line feed; no two neighbouring parts would fit together |
| Chunking.LineReply | bot.js:400-421 | Texts over 4000 chars are split by lines, others are sent whole; the answer is never empty |
| Chunking.Matches | bot.js:441 | Each match has 1 to 4000 chars and holds no line terminator |
| Chunking.MatchesCover | bot.js:441 | The matches concatenate to the text with its line terminators removed |
| Chunking.MatchAllNull | bot.js:441 | The regex finds nothing iff every char is a line terminator |
| Chunking.RegexReply | bot.js:440-447 | A text within 4000 chars is sent whole; every sent part is within 4000 chars |
| Legendary.TierOf | bot-legendary-practical.js:69-88 | POWER iff a code or explain keyword occurs in the lowercased text; FAST iff neither occurs and a short message asks "what"; BALANCED otherwise |
| Legendary.SelectModel | bot-legendary-practical.js:61-88 | Every tier resolves to `llama-3.3-70b-versatile`, never the vision model |
| Legendary.UpperCaseCodeIsPower | bot-legendary-practical.js:70-75 | "CODE" in any case routes to POWER |
| Legendary.Opened | bot-legendary-practical.js:460-467 | A user without a conversation gets one system turn; otherwise the stored one |
| Legendary.Trimmed | bot-legendary-practical.js:477-482 | A history over 31 turns becomes its first plus its last 30 |
| Legendary.ExchangeAnswered | bot-legendary-practical.js:467-482 | After an answer the history ends with the user and assistant turns, keeps its first turn and the 31 bound, and only appends when within it |
| Legendary.ExchangeFailed | bot-legendary-practical.js:468-488 | After a failure only the user turn is appended and nothing is trimmed |
| Legendary.FailuresGrowPastBound | bot-legendary-practical.js:468-488 | A failure at the bound leaves more than 31 turns |
| Legendary.OverlongHistoryRecovers | bot-legendary-practical.js:474-482 | The next answer trims an overlong history back to 31 turns, keeping the first |
| Legendary.OrNull | bot-legendary-practical.js:170 | `x \|\| null`: present iff the text is truthy, and then unchanged |
| Legendary.ShapedFromTopics | bot-legendary-practical.js:155-164 | No more results than topics, each made from a topic with both text and url |
| Legendary.ShapedCount | bot-legendary-practical.js:156-163 | Every usable topic yields a result |
| Legendary.TitleIsCut | bot-legendary-practical.js:159-161 | The title is at most 100 chars and a prefix of the snippet |
| Legendary.DuckDuckGoResults | bot-legendary-practical.js:150-175 | The answer is the abstract text or null; results come from the first 5 topics only, so at most 5 |
| Legendary.SerperResults | bot-legendary-practical.js:140-144 | The results are the organic list or empty; an answer is present iff the answer box has a truthy answer |
| Legendary.SearchReplyText | bot-legendary-practical.js:343-361 | The reply text built by the handler's string accumulation equals the reply specification |
| Legendary.AppendSources | bot-legendary-practical.js:356-360 | Appending the numbered sources gives the start text plus the listing |
| Legendary.OnlyThreeSourcesListed | bot-legendary-practical.js:354-361 | Results past the third never change the reply |
| Legendary.AnswerBlockOnlyWithAnswer | bot-legendary-practical.js:348-352 | Without an answer the reply is the heading and sources; a non-empty answer inserts exactly the answer block after the heading |
| Legendary.NoResultsNoSources | bot-legendary-practical.js:354 | With no results no sources block is added |
| Legendary.RouteOf | bot-legendary-practical.js:184-198 | YouTube iff a youtube link; TikTok, Instagram and unsupported in that priority |
| Legendary.DownloadOutcomes | bot-legendary-practical.js:179-260 | Only YouTube and TikTok links can yield a file, with a url and title; Instagram is always refused; anything else is unsupported |
| Legendary.Started | bot-legendary-practical.js:307-309 | The user count rises iff the user has no conversation; nothing else changes |
| Legendary.StartCountsAgain | bot-legendary-practical.js:307-309 | Two `/start` calls from a user without a conversation count twice |
| Legendary.Bot.constructor | bot-legendary-practical.js:47-57 | Empty conversations and zero statistics |
| Legendary.Bot.Start | bot-legendary-practical.js:301-309 | Conversations unchanged, statistics per `Started` |
| Legendary.Bot.HandleMessage | bot-legendary-practical.js:451-489 | Ignored messages change nothing; otherwise the message count rises and the stored history is the exchanged one, with the reply the model's answer or the error text |
| Legendary.Bot.WebSearch | bot-legendary-practical.js:114-175 | The search count rises; with a Serper key the Serper shaping of its answer; without one, the DuckDuckGo shaping: the usable topics among the first 5 related topics (none when the list is missing) and the abstract text or null as the answer; a failed call gives no result |
| Legendary.Bot.DownloadVideo | bot-legendary-practical.js:179-204 | The download count rises before routing and the outcome is the routed download |
| Logging.AppendedKeepsBound | utils/logger.js:32-37 | One push keeps at most 1000 entries and ends with the new one; under the bound it appends, at the bound it drops exactly the oldest |
| Logging.LoggedIsLatest | utils/logger.js:32-37 | After any sequence of logs the buffer holds exactly the latest 1000 entries in insertion order |
| Logging.Recent | utils/logger.js:72-74 | A positive count gives the latest that many; 0 gives the whole buffer; a negative count drops that many from the front |
| Logging.Errors | utils/logger.js:76-78 | Exactly the entries at level `error` |
| Logging.ErrorsOfAppend | utils/logger.js:76-78 | The error entries keep their order |
| Logging.Logger.constructor | utils/logger.js:6-11 | The buffer starts empty |
| Logging.Logger.Log | utils/logger.js:24-45 | The buffer becomes the bounded append of the entry and stays within 1000 |
| Logging.Logger.Info | utils/logger.js:56-58 | Appends one entry at level `info` |
| Logging.Logger.Warn | utils/logger.js:60-62 | Appends one entry at level `warn` |
| Logging.Logger.Error | utils/logger.js:64-66 | Appends one entry at level `error` |
| Logging.Logger.Debug | utils/logger.js:68-70 | Appends one entry at level `debug` |
| Logging.Logger.GetRecentLogs | utils/logger.js:72-74 | For a positive count, the last `min(count, length)` entries of the buffer |
| Logging.Logger.GetRecentDefault | utils/logger.js:72-74 | With the count omitted, the last `min(50, length)` entries of the buffer |
| Logging.Logger.GetErrorLogs | utils/logger.js:76-78 | Only error entries of the buffer; it reads and changes nothing |
| Logging.Logger.ClearLogs | utils/logger.js:80-82 | The buffer becomes empty |
| VideoDownload.DetectPlatform | services/videoDownloadService.js:27-38 | youtube iff a youtube link; then tiktok, facebook, instagram in that priority; unknown iff none |
| VideoDownload.PlatformNameKnown | services/videoDownloadService.js:27-38 | The platform name is one of the five names |
| VideoDownload.RunFrom | services/videoDownloadService.js:328-330 | The captured run sits at the start position, holds only id chars and is maximal |
| VideoDownload.Search | services/videoDownloadService.js:334-335 | No match iff no alternative fits anywhere; a match is non-empty and holds no `&`, line feed, `?` or `#` |
| VideoDownload.FirstCaptureShape | services/videoDownloadService.js:333-338 | The first capture over all patterns is a non-empty id, and is null iff no pattern matches |
| VideoDownload.EarlierPatternWins | services/videoDownloadService.js:333-336 | The capture comes from the first pattern that matches |
| VideoDownload.FallbackChains | services/videoDownloadService.js:71-321 | When yt-dlp fails, YouTube, TikTok and Instagram take their API paths, Instagram's always fails, Facebook and generic fail |
| VideoDownload.SavedWhenToolSucceeds | services/videoDownloadService.js:71-321 | When yt-dlp succeeds the file is saved for the platform's name, `generic` for unknown, with the tool's size |
| VideoDownload.CleanupSplits | services/videoDownloadService.js:357-375 | Deleted files are exactly those older than one hour (strict), kept ones the others, and together they are the listed files |
| VideoDownload.Cleanup | services/videoDownloadService.js:363-371 | The loop returns the kept and the deleted files of the age rule |
| VideoDownload.VideoDownloadService.constructor | services/videoDownloadService.js:12-16 | The download counter starts at 0 |
| VideoDownload.VideoDownloadService.DownloadVideo | services/videoDownloadService.js:43-66 | The counter rises by one whatever the outcome, and the outcome is the dispatched download |
| VideoDownload.VideoDownloadService.ExtractYouTubeId | services/videoDownloadService.js:326-339 | The loop's result is the first capture, a non-empty id when present |
| VideoDownload.VideoDownloadService.GetStats | services/videoDownloadService.js:380-384 | The total downloads is the counter |
| Vision.EnhancePrompt | services/visionService.js:127-139 | Under 20 chars the short suffix is appended; otherwise the text note is appended iff the prompt mentions no text |
| Vision.EnhanceKeepsPrompt | services/visionService.js:127-139 | The original prompt is always a prefix, and the prompt is unchanged iff it is long and mentions text |
| Vision.EstimateConfidence | services/visionService.js:144-153 | medium iff a hedge word occurs; high iff no hedge and over 200 chars; good otherwise |
| Vision.ConfidenceMonotone | services/visionService.js:144-153 | Without hedges, a longer description keeps a high estimate |
| Vision.MergeAnalysis | services/visionService.js:158-169 | Description, confidence and model from the basic analysis and the detailed parts from the detailed one |
| Vision.AnalysisCalls | services/visionService.js:17-97 | The first request is the basic one; a detailed analysis after a successful basic one makes three more requests for the fixed aspects, in order; the outcome merges them |
| Vision.AnalysisReadsOnlyRequests | services/visionService.js:17-43 | Two clients that agree on the requests made give the same analysis |
| Vision.ProblemPromptMentionsSubject | services/visionService.js:185-188 | The prompt contains the subject when one is given, and is the plain prompt otherwise |
| Vision.VisionService.constructor | services/visionService.js:10-12 | The analysis counter starts at 0 |
| Vision.VisionService.AnalyzeImage | services/visionService.js:17-43 | The counter rises by one and the result is the analysis specification |
| Vision.VisionService.ExtractText | services/visionService.js:174-180 | One counted non-detailed analysis with the OCR prompt |
| Vision.VisionService.SolveProblem | services/visionService.js:185-191 | One counted detailed analysis with the problem prompt for the subject |
| Vision.VisionService.AnalyzeChart | services/visionService.js:196-202 | One counted detailed analysis with the chart prompt |
| Vision.VisionService.GetStats | services/visionService.js:207-211 | The total analyses is the counter |
| AdvancedSearch.Collapse | services/advancedSearchService.js:195 | Collapsing whitespace never lengthens the text, empties only the empty text, and turns a leading space char into one space |
| AdvancedSearch.CollapseTidy | services/advancedSearchService.js:195 | The collapsed text has no line break and no two adjacent spaces |
| AdvancedSearch.CollapseKeepsText | services/advancedSearchService.js:195 | Collapsing keeps every non-space char in order |
| AdvancedSearch.SquashWithoutLineFeeds | services/advancedSearchService.js:196 | The line-feed rule changes nothing once whitespace is collapsed |
| AdvancedSearch.CleanTextShape | services/advancedSearchService.js:193-197 | Clean page text is at most 3000 chars, without line breaks or adjacent spaces, and starts with no space |
| AdvancedSearch.RedirectTargetIs | services/advancedSearchService.js:87-90 | The unwrapped target is the text right after `/url?q=` up to the next `&`, the next `/url?q=` or the end, and holds neither |
| AdvancedSearch.GoogleStep | services/advancedSearchService.js:79-94 | A kept result has a non-empty title and a valid url, the trimmed title and snippet, and the decoded redirect target or the raw href as url; the step throws iff decoding the redirect fails |
| AdvancedSearch.DuckStep | services/advancedSearchService.js:129-135 | Never throws; kept iff the trimmed title and the url are non-empty, with those fields |
| AdvancedSearch.Collect | services/advancedSearchService.js:76-96 | The loop's result is the collection specification |
| AdvancedSearch.CollectedIs | services/advancedSearchService.js:76-96 | A finished scan keeps the accepted entries of a prefix with no failure, stops early only when full, and keeps at most `maxResults` |
| AdvancedSearch.CollectedFails | services/advancedSearchService.js:76-105 | A failed scan reached a throwing entry before filling up |
| AdvancedSearch.ThrowReachedFails | services/advancedSearchService.js:76-105 | Reaching a throwing entry before filling up fails the scan |
| AdvancedSearch.NoThrowCollects | services/advancedSearchService.js:76-96 | Without throwing entries the scan succeeds |
| AdvancedSearch.DuckDuckGoSearch | services/advancedSearchService.js:111-145 | The method's result is the DuckDuckGo hits specification |
| AdvancedSearch.GoogleSearch | services/advancedSearchService.js:58-106 | The method's result is the Google hits specification |
| AdvancedSearch.DuckHitsShape | services/advancedSearchService.js:111-145 | At most `maxResults` titled hits, the accepted entries of a prefix of the page; a failed request yields none |
| AdvancedSearch.GoogleHitsShape | services/advancedSearchService.js:58-106 | At most `maxResults` titled, accepted hits; a failed request or a throwing entry falls back to the DuckDuckGo hits |
| AdvancedSearch.FirstSelectedIs | services/advancedSearchService.js:179-185 | The selected text comes from the first selector that matches |
| AdvancedSearch.NoneSelected | services/advancedSearchService.js:179-185 | When no selector matches nothing is selected |
| AdvancedSearch.MainContentFromFirstMatch | services/advancedSearchService.js:169-190 | The content is the first matching selector's text, or the body when that text is empty or nothing matches |
| AdvancedSearch.ExtractMainContent | services/advancedSearchService.js:179-190 | The loop's result is the main content |
| AdvancedSearch.Enrich | services/advancedSearchService.js:150-213 | The hit is kept; fetched iff the page loads; content is the snippet on failure, and clean bounded text on success |
| AdvancedSearch.FetchPageContent | services/advancedSearchService.js:150-213 | The method's result is the enrichment specification |
| AdvancedSearch.EnrichAll | services/advancedSearchService.js:33-35 | One enrichment per hit, in order |
| AdvancedSearch.MaxResultsOf | services/advancedSearchService.js:18 | A given non-zero option is used; the result is never 0 |
| AdvancedSearch.SourcesOf | services/advancedSearchService.js:45 | The sources mirror the results' titles and urls in order |
| AdvancedSearch.DeepSearchShape | services/advancedSearchService.js:15-53 | No results iff no hits; failure iff hits exist and the analysis fails; a found report carries the query, the count, the enriched results and their sources |
| AdvancedSearch.ImageLinkAccepted | services/advancedSearchService.js:303-306 | A path, a dot, a listed extension in any case and an optional query make an image ending |
| AdvancedSearch.NoDotNoImage | services/advancedSearchService.js:303-306 | A url without a dot never has an image ending |
| AdvancedSearch.AdvancedSearchService.constructor | services/advancedSearchService.js:7-10 | The counter starts at 0 and the cache is empty |
| AdvancedSearch.AdvancedSearchService.DeepSearch | services/advancedSearchService.js:15-53 | The counter rises by one and the result is the deep-search specification for the effective maximum |
| AdvancedSearch.AdvancedSearchService.GetStats | services/advancedSearchService.js:311-316 | The total is the counter and the cache size is 0 |

## Left out

- Telegram transport: sending messages, photos and videos, the 500 ms pauses between parts, Markdown modes, keyboards and the greeting texts (`/start`, help, admin panel) are output, not logic.
- The `bot.js` photo, document, `/research` and `/imagine` handlers beyond the chunker they share: they call the vision, file-reader and research services, which are foreign code here.
- `searchImages` (both files) and the legendary `/code` and image handlers: they only forward a scraper's or model's answer.
- `analyzeResults` builds a prompt and returns the model's text; its prompt wording is not modelled, the analysis is an abstract function.
- HTML selection and element removal (cheerio) are the `Page.select` and `Page.body` parameters; `isValidUrl` (WHATWG URL parsing) and `decodeURIComponent` (percent-decoding of RFC 3986 section 2.1) are abstract functions.
- `toLowerCase` is modelled for ASCII letters only; Arabic keywords have no case, so keyword tests are unaffected for them.
- Clocks and timestamps: log timestamps, `firstMessage`/`lastMessage`, uptime; `cleanupOldFiles` takes `now` and each file's modification time as inputs.
- File-system effects: creating directories, appending the log file, writing and deleting temp files.
- Concurrency: the hourly cleanup interval, `Promise.all` fan-outs and two handlers of one user interleaving; each handler runs to completion.
- Temperatures and other floating-point options.
- Text outside the Basic Multilingual Plane (emoji and other characters JavaScript stores as a surrogate pair): the model counts one char per Unicode scalar value, JavaScript one per UTF-16 code unit, so a character outside the plane counts 1 where the source counts 2 and a JavaScript cut can split its surrogate pair, which the model cannot represent. On text inside the plane the members below are exact; outside it they differ as each line says.
- AnalyzeDifficulty (`Models.AnalyzeDifficulty`): the 50 and 150 thresholds of `question.length` are counted in scalar values, so a keyword-free question with characters outside the plane can be classed one level lower than the source classes it.
- RequirementsFor (`AiService.RequirementsFor`): the "over 2000" long-context test of `message.length` counts scalar values, so text outside the plane can miss the long-context requirement the source sets.
- RoutingOfPlainContext (`AiService.RoutingOfPlainContext`): its "over 2000 chars" premise is in scalar values, not the UTF-16 length the source tests.
- SplitLines (`Chunking.SplitLines`): the 4000 bound of the packer counts scalar values, so parts holding characters outside the plane can be longer in UTF-16 units than the source's parts, and are packed differently.
- LineReply (`Chunking.LineReply`): the "over 4000" test that decides whether to split counts scalar values, not the UTF-16 `.length` of the source.
- Matches (`Chunking.Matches`): `/.{1,4000}/g` without the `u` flag counts UTF-16 units and can cut a surrogate pair; the model's matches hold up to 4000 scalar values and never cut one.
- RegexReply (`Chunking.RegexReply`): its "within 4000" test counts scalar values, so "a" followed by 2000 characters U+1F600 is one part in the model and two in the source.
- TierOf (`Legendary.TierOf`): the `message.length < 50` test for the fast tier counts scalar values.
- TitleIsCut (`Legendary.TitleIsCut`): `substring(0, 100)` cuts at 100 UTF-16 units; the model cuts at 100 scalar values.
- EnhancePrompt (`Vision.EnhancePrompt`): the `length < 20` test for the short-prompt suffix counts scalar values.
- EstimateConfidence (`Vision.EstimateConfidence`): the `length > 200` test for the high estimate counts scalar values.
- CleanTextShape (`AdvancedSearch.CleanTextShape`): the 3000 bound of `substring(0, 3000)` counts scalar values, so clean text outside the plane can exceed 3000 UTF-16 units.
- Enrich (`AdvancedSearch.Enrich`): the content bound of a fetched page is the 3000 scalar values of `CleanText`, not 3000 UTF-16 units.
- AiService.AIService.SendRequest: the `...options.extraParams` spread, which could override the model, the messages or `max_tokens` of the request sent, is not modelled; the only caller in the repository (`analyzeResults`) passes no `extraParams`.
- The log entries every service pushes into the shared logger (model selection, each request and response, searches, downloads, analyses, cleanup, and the error paths) are not modelled in those services; the logger's own buffer is modelled on its own.
- `config/constants.js` literals are copied in as constants. `LIMITS.MAX_TOKENS` is not defined there, so `max_tokens` is only set when the caller gives `maxTokens`.
- The express status page is HTML output.
- AdvancedSearch.AdvancedSearchService.DeepSearch: the cache is never written by the source, so it is modelled as always empty.
- Logging.Logger.GetErrorLogs: its `ensures` states membership only; the order is stated by `Logging.ErrorsOfAppend` and `Logging.Errors`.

## Findings

| source | as written | input that shows it | evidently intended | confidence | as-written member | corrected member |
|---|---|---|---|---|---|---|
| bot.js:830 | the purge reports `count - 1`, the number of conversations minus one | one non-owner conversation and no owner conversation: one is deleted and 0 is reported | report the number of conversations actually deleted | not executed | Conversation.PurgeReportOffByOne | Conversation.PurgedCountDeleted |

Other behaviour the code has as written, modelled as written:

- The line chunker's parts concatenate to the text plus a line feed, and a 4000-char line gives a 4001-char part.
- The continue instruction of `aiService.js` contains a simple-difficulty keyword, so, when the caller's options set no routing field, every continuation request is routed to the FAST model.
- In the legendary bot a failed reply leaves the user turn without trimming, so repeated failures grow the history past 31 turns.
