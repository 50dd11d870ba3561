/** services/visionService.js: the prompt enhancement, the confidence
    estimate, the merge of a basic and a detailed analysis, the order of the
    vision-model calls and the analysis counter. The Groq vision call is the
    `vision` parameter; sampling temperatures are left out. */
module Vision {
  import opened Wrappers
  import opened JsText
  import Models

  /** `MODELS.GROQ.VISION.name`. */
  const VISION_MODEL: string := Models.VISION.name
  const SHORT_PROMPT_SUFFIX: string := ". قدم وصفاً دقيقاً وتفصيلياً. إذا كان في الصورة نص، اقرأه بدقة. إذا كان في مسألة أو سؤال، حلّه بالتفصيل."
  const TEXT_NOTE_SUFFIX: string := ". ملاحظة: إذا كان في الصورة أي نصوص أو كتابة، اقرأها بدقة."
  /** Prompts shorter than this get the long suffix. */
  const SHORT_PROMPT: nat := 20

  predicate MentionsText(prompt: string)
  {
    Contains(prompt, "نص") || Contains(prompt, "text")
  }

  /** `enhancePrompt`: a short prompt gets the description suffix whatever it
      says, a longer one that does not mention text gets the reading note, and
      any other prompt is sent as it is. */
  function EnhancePrompt(prompt: string): (r: string)
    ensures |prompt| < SHORT_PROMPT ==> r == prompt + SHORT_PROMPT_SUFFIX
    ensures |prompt| >= SHORT_PROMPT && !MentionsText(prompt) ==> r == prompt + TEXT_NOTE_SUFFIX
    ensures |prompt| >= SHORT_PROMPT && MentionsText(prompt) ==> r == prompt
  {
    if |prompt| < SHORT_PROMPT then prompt + SHORT_PROMPT_SUFFIX
    else if !MentionsText(prompt) then prompt + TEXT_NOTE_SUFFIX
    else prompt
  }

  /** The user's prompt always reaches the model whole, at the start of what
      is sent; the result is unchanged exactly when nothing was appended. */
  lemma EnhanceKeepsPrompt(prompt: string)
    ensures |EnhancePrompt(prompt)| >= |prompt|
    ensures EnhancePrompt(prompt)[..|prompt|] == prompt
    ensures EnhancePrompt(prompt) == prompt <==> |prompt| >= SHORT_PROMPT && MentionsText(prompt)
  {
    var r := EnhancePrompt(prompt);
    if |prompt| < SHORT_PROMPT {
      assert r[..|prompt|] == prompt;
      assert |r| > |prompt|;
    } else if !MentionsText(prompt) {
      assert r[..|prompt|] == prompt;
      assert |r| > |prompt|;
    }
  }

  const MEDIUM: string := "متوسط"
  const HIGH: string := "عالي"
  const GOOD: string := "جيد"

  /** A description that hedges: 'غير واضح' or 'ربما'. */
  predicate Hedges(description: string)
  {
    Contains(description, "غير واضح") || Contains(description, "ربما")
  }

  /** `estimateConfidence`: a hedge means medium however long the text is; an
      unhedged text is high exactly when it is longer than 200 chars. */
  function EstimateConfidence(description: string): (c: string)
    ensures c == MEDIUM <==> Hedges(description)
    ensures c == HIGH <==> !Hedges(description) && |description| > 200
    ensures c == GOOD <==> !Hedges(description) && |description| <= 200
  {
    if Hedges(description) then MEDIUM
    else if |description| > 200 then HIGH
    else GOOD
  }

  /** A longer unhedged description never has a lower estimate. */
  lemma ConfidenceMonotone(d1: string, d2: string)
    requires !Hedges(d1) && !Hedges(d2) && |d1| <= |d2|
    ensures EstimateConfidence(d1) == HIGH ==> EstimateConfidence(d2) == HIGH
  {
  }

  /** What `basicAnalysis` returns. */
  datatype Basic = Basic(description: string, confidence: string, model: string)
  /** What `detailedAnalysis` returns. */
  datatype Detailed = Detailed(colors: string, objects: string, context: string)
  /** What `analyzeImage` returns: the basic analysis alone, or merged with
      the detailed one. */
  datatype Analysis = Plain(basic: Basic)
                    | Merged(description: string, detailed: Detailed, confidence: string, model: string)

  /** `mergeAnalysis`. */
  function MergeAnalysis(basic: Basic, detailed: Detailed): (m: Analysis)
    ensures m.Merged?
    ensures m.description == basic.description && m.confidence == basic.confidence && m.model == basic.model
    ensures m.detailed == detailed
  {
    Merged(basic.description, Detailed(detailed.colors, detailed.objects, detailed.context),
           basic.confidence, basic.model)
  }

  /** One vision request: the text part, the image (base64) and `max_tokens`. */
  datatype VisionRequest = VisionRequest(model: string, text: string, image: string, maxTokens: nat)
  type VisionClient = VisionRequest -> Result<string, string>

  const BASIC_MAX_TOKENS: nat := 2000
  const ASPECT_MAX_TOKENS: nat := 500
  const ASPECTS: seq<string> := ["صف الألوان والإضاءة في الصورة بالتفصيل",
                                 "حدد جميع الأشياء والعناصر الموجودة",
                                 "اشرح السياق والموقف في الصورة"]

  function BasicRequest(image: string, prompt: string): VisionRequest
  {
    VisionRequest(VISION_MODEL, EnhancePrompt(prompt), image, BASIC_MAX_TOKENS)
  }

  function AspectRequest(image: string, k: nat): VisionRequest
    requires k < |ASPECTS|
  {
    VisionRequest(VISION_MODEL, ASPECTS[k], image, ASPECT_MAX_TOKENS)
  }

  /** The requests `analyzeImage` makes: the basic one, then, when detail is
      asked for and the basic one answered, the three aspects. */
  function Requests(vision: VisionClient, image: string, prompt: string, detailed: bool): seq<VisionRequest>
  {
    var basic := BasicRequest(image, prompt);
    if detailed && vision(basic).Success?
    then [basic, AspectRequest(image, 0), AspectRequest(image, 1), AspectRequest(image, 2)]
    else [basic]
  }

  /** `basicAnalysis`. */
  function BasicOf(vision: VisionClient, image: string, prompt: string): Result<Basic, string>
  {
    match vision(BasicRequest(image, prompt))
    case Failure(e) => Failure(e)
    case Success(content) => Success(Basic(content, EstimateConfidence(content), VISION_MODEL))
  }

  /** `detailedAnalysis`: the three aspects, in order, become the colours,
      the objects and the context; the first failing one is the error. */
  function DetailedOf(vision: VisionClient, image: string): Result<Detailed, string>
  {
    var colors := vision(AspectRequest(image, 0));
    var objects := vision(AspectRequest(image, 1));
    var context := vision(AspectRequest(image, 2));
    if colors.Failure? then Failure(colors.error)
    else if objects.Failure? then Failure(objects.error)
    else if context.Failure? then Failure(context.error)
    else Success(Detailed(colors.value, objects.value, context.value))
  }

  /** What `analyzeImage` resolves to, or the error it throws. */
  function Analyze(vision: VisionClient, image: string, prompt: string, detailed: bool): Result<Analysis, string>
  {
    match BasicOf(vision, image, prompt)
    case Failure(e) => Failure(e)
    case Success(basic) =>
      if !detailed then Success(Plain(basic))
      else
        match DetailedOf(vision, image)
        case Failure(e) => Failure(e)
        case Success(d) => Success(MergeAnalysis(basic, d))
  }

  /** A plain analysis makes one call; a detailed one four, and when all
      answer, the merged record carries the basic description and estimate
      and the three aspect answers in their fixed order. */
  lemma AnalysisCalls(vision: VisionClient, image: string, prompt: string, detailed: bool)
    ensures var asked := Requests(vision, image, prompt, detailed);
            && asked[0] == BasicRequest(image, prompt)
            && |asked| == (if detailed && vision(BasicRequest(image, prompt)).Success? then 4 else 1)
            && (forall k :: 1 <= k < |asked| ==> asked[k] == AspectRequest(image, k - 1))
    ensures var r := Analyze(vision, image, prompt, detailed);
            r.Success? && detailed ==>
              && vision(BasicRequest(image, prompt)).Success?
              && r.value == Merged(vision(BasicRequest(image, prompt)).value,
                                   Detailed(vision(AspectRequest(image, 0)).value,
                                            vision(AspectRequest(image, 1)).value,
                                            vision(AspectRequest(image, 2)).value),
                                   EstimateConfidence(vision(BasicRequest(image, prompt)).value),
                                   VISION_MODEL)
    ensures var r := Analyze(vision, image, prompt, detailed);
            r.Success? && !detailed ==> r.value.Plain? && r.value.basic.description == vision(BasicRequest(image, prompt)).value
  {
  }

  /** The analysis depends on the answers to those requests and nothing
      else: two clients that agree on them give the same result. */
  lemma AnalysisReadsOnlyRequests(v1: VisionClient, v2: VisionClient, image: string, prompt: string, detailed: bool)
    requires forall k :: 0 <= k < |Requests(v1, image, prompt, detailed)| ==>
               v1(Requests(v1, image, prompt, detailed)[k]) == v2(Requests(v1, image, prompt, detailed)[k])
    ensures Analyze(v1, image, prompt, detailed) == Analyze(v2, image, prompt, detailed)
  {
    var asked := Requests(v1, image, prompt, detailed);
    assert v1(asked[0]) == v2(asked[0]);
    if |asked| == 4 {
      assert v1(asked[1]) == v2(asked[1]);
      assert v1(asked[2]) == v2(asked[2]);
      assert v1(asked[3]) == v2(asked[3]);
    }
  }

  const OCR_PROMPT: string := "اقرأ جميع النصوص الموجودة في هذه الصورة بدقة تامة. احرص على قراءة كل كلمة وحرف بشكل صحيح، مع الحفاظ على التنسيق والترتيب."
  const PROBLEM_PROMPT: string := "اقرأ المسألة أو السؤال في هذه الصورة، ثم قدم الحل الكامل مع الشرح خطوة بخطوة."
  const PROBLEM_SUBJECT_HEAD: string := "هذه صورة لمسألة في "
  const PROBLEM_SUBJECT_TAIL: string := ". اقرأ المسألة بدقة ثم حلها خطوة بخطوة مع الشرح التفصيلي."
  const CHART_PROMPT: string := "هذه صورة لمخطط أو رسم بياني. حلل البيانات الموجودة فيه، واستخرج الأرقام والمعلومات، ثم قدم تحليلاً شاملاً للنتائج والاتجاهات."

  /** The prompt of `solveProblem`. */
  function ProblemPrompt(subject: string): string
  {
    if subject != "" then PROBLEM_SUBJECT_HEAD + subject + PROBLEM_SUBJECT_TAIL else PROBLEM_PROMPT
  }

  /** The subject appears in the prompt when one is given; without one the
      prompt is the fixed general text. */
  lemma ProblemPromptMentionsSubject(subject: string)
    ensures subject != "" ==> Contains(ProblemPrompt(subject), subject)
    ensures subject == "" ==> ProblemPrompt(subject) == PROBLEM_PROMPT
  {
    if subject != "" {
      var p := ProblemPrompt(subject);
      var i := |PROBLEM_SUBJECT_HEAD|;
      assert p[i..i + |subject|] == subject;
      ContainsAt(p, subject, i);
    }
  }

  datatype Stats = Stats(totalAnalyses: nat)

  /** The exported service object. */
  class VisionService {
    var analysisCount: nat

    constructor()
      ensures analysisCount == 0
    {
      analysisCount := 0;
    }

    /** `analyzeImage`: count, ask for the basic analysis, and when detail is
        asked for, the three aspects, then merge. */
    method AnalyzeImage(vision: VisionClient, image: string, prompt: string, detailed: bool)
      returns (r: Result<Analysis, string>)
      modifies this
      ensures analysisCount == old(analysisCount) + 1
      ensures r == Analyze(vision, image, prompt, detailed)
    {
      analysisCount := analysisCount + 1;
      var basic := BasicOf(vision, image, prompt);
      if basic.Failure? {
        return Failure(basic.error);
      }
      if detailed {
        var more := DetailedOf(vision, image);
        if more.Failure? {
          return Failure(more.error);
        }
        return Success(MergeAnalysis(basic.value, more.value));
      }
      return Success(Plain(basic.value));
    }

    /** `extractText`: the reading prompt, without detail. */
    method ExtractText(vision: VisionClient, image: string) returns (r: Result<Analysis, string>)
      modifies this
      ensures analysisCount == old(analysisCount) + 1
      ensures r == Analyze(vision, image, OCR_PROMPT, false)
    {
      r := AnalyzeImage(vision, image, OCR_PROMPT, false);
    }

    /** `solveProblem`: the problem prompt, with detail. */
    method SolveProblem(vision: VisionClient, image: string, subject: string) returns (r: Result<Analysis, string>)
      modifies this
      ensures analysisCount == old(analysisCount) + 1
      ensures r == Analyze(vision, image, ProblemPrompt(subject), true)
    {
      var prompt := if subject != "" then PROBLEM_SUBJECT_HEAD + subject + PROBLEM_SUBJECT_TAIL else PROBLEM_PROMPT;
      r := AnalyzeImage(vision, image, prompt, true);
    }

    /** `analyzeChart`: the chart prompt, with detail. */
    method AnalyzeChart(vision: VisionClient, image: string) returns (r: Result<Analysis, string>)
      modifies this
      ensures analysisCount == old(analysisCount) + 1
      ensures r == Analyze(vision, image, CHART_PROMPT, true)
    {
      r := AnalyzeImage(vision, image, CHART_PROMPT, true);
    }

    /** `getStats`. */
    function GetStats(): (s: Stats)
      reads this
      ensures s.totalAnalyses == analysisCount
    {
      Stats(analysisCount)
    }
  }
}
