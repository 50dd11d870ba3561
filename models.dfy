/** The model catalogue and the routing rules of config/models.js, with the
    difficulty labels of config/constants.js. */
module Models {
  import opened Wrappers
  import opened JsText

  // Difficulty labels (config/constants.js:54-59).
  const SIMPLE: string := "simple"
  const MODERATE: string := "moderate"
  const COMPLEX: string := "complex"
  const EXPERT: string := "expert"

  /** Which difficulties a catalogue entry is meant for: a list, or `'all'`. */
  datatype Suited = All | Levels(levels: seq<string>)

  /** One entry of the `MODELS` table. */
  datatype ModelInfo = ModelInfo(name: string, provider: string, speed: string, quality: string,
                                 difficulty: Suited, tokens: nat, description: string)

  const FAST: ModelInfo := ModelInfo("gemma2-9b-it", "groq", "very_fast", "good",
    Levels([SIMPLE]), 8000, "للأسئلة البسيطة والسريعة")
  const BALANCED: ModelInfo := ModelInfo("llama-3.1-70b-versatile", "groq", "fast", "excellent",
    Levels([SIMPLE, MODERATE]), 8000, "متوازن بين السرعة والجودة")
  const POWER: ModelInfo := ModelInfo("llama-3.3-70b-versatile", "groq", "fast", "superior",
    Levels([MODERATE, COMPLEX, EXPERT]), 8000, "الأقوى - للمسائل المعقدة")
  const VISION: ModelInfo := ModelInfo("llama-3.2-11b-vision-preview", "groq", "fast", "excellent",
    All, 8000, "تحليل الصور والرؤية")
  const CODE: ModelInfo := ModelInfo("llama-3.3-70b-versatile", "groq", "fast", "superior",
    All, 8000, "متخصص في البرمجة")
  const RESEARCH: ModelInfo := ModelInfo("llama-3.1-70b-versatile", "groq", "fast", "excellent",
    Levels([MODERATE, COMPLEX]), 8000, "للبحث والتحليل العميق")
  const LONG_CONTEXT: ModelInfo := ModelInfo("mixtral-8x7b-32768", "groq", "medium", "excellent",
    Levels([COMPLEX]), 32000, "للنصوص الطويلة والتحليل العميق")

  /** `MODELS.GROQ` followed by `MODELS.MIXTRAL`. */
  const CATALOGUE: seq<ModelInfo> := [FAST, BALANCED, POWER, VISION, CODE, RESEARCH, LONG_CONTEXT]

  /** The fields of the requirements record `selectModel` reads. A missing
      `difficulty` or `type` is `None` (it equals no tag); the three flags
      are the truthiness of the corresponding fields. */
  datatype Requirements = Requirements(difficulty: Option<string>, kind: Option<string>,
                                       requiresVision: bool, requiresLongContext: bool,
                                       requiresCode: bool)

  predicate IsKind(o: Option<string>, tag: string)
  {
    o == Some(tag)
  }

  /** `selectModel(context)`: vision first, then code, long context, research,
      then the difficulty switch with BALANCED as its default. */
  function SelectModel(req: Requirements): (m: ModelInfo)
    ensures m in CATALOGUE
    ensures m == VISION <==> req.requiresVision
    ensures m == CODE <==> !req.requiresVision && (req.requiresCode || IsKind(req.kind, "code"))
    ensures m == LONG_CONTEXT <==> !req.requiresVision && !req.requiresCode
                                   && !IsKind(req.kind, "code") && req.requiresLongContext
    ensures m == RESEARCH <==> !req.requiresVision && !req.requiresCode && !IsKind(req.kind, "code")
                               && !req.requiresLongContext && IsKind(req.kind, "research")
    ensures (&& !req.requiresVision && !(req.requiresCode || IsKind(req.kind, "code"))
             && !req.requiresLongContext && !IsKind(req.kind, "research"))
            ==> m == DifficultyModel(req.difficulty)
    ensures m.tokens >= 8000
  {
    if req.requiresVision then VISION
    else if req.requiresCode || IsKind(req.kind, "code") then CODE
    else if req.requiresLongContext then LONG_CONTEXT
    else if IsKind(req.kind, "research") then RESEARCH
    else DifficultyModel(req.difficulty)
  }

  /** The `switch (difficulty)` of `selectModel`. */
  function DifficultyModel(d: Option<string>): (m: ModelInfo)
    ensures m == FAST <==> d == Some(SIMPLE)
    ensures m == POWER <==> d == Some(COMPLEX) || d == Some(EXPERT)
    ensures m == BALANCED <==> !(d == Some(SIMPLE) || d == Some(COMPLEX) || d == Some(EXPERT))
  {
    match d
    case Some(tag) =>
      if tag == SIMPLE then FAST
      else if tag == MODERATE then BALANCED
      else if tag == COMPLEX || tag == EXPERT then POWER
      else BALANCED
    case None => BALANCED
  }

  /** Once none of the four earlier rules applies, the difficulty alone
      decides, and a tag outside the four known ones routes like
      `moderate`. */
  lemma DifficultyDecidesLast(req: Requirements, tag: string)
    requires !req.requiresVision && !req.requiresCode && !req.requiresLongContext
    requires !IsKind(req.kind, "code") && !IsKind(req.kind, "research")
    requires req.difficulty == Some(tag)
    requires tag !in [SIMPLE, MODERATE, COMPLEX, EXPERT]
    ensures SelectModel(req) == SelectModel(req.(difficulty := Some(MODERATE))) == BALANCED
  {
  }

  // Keyword lists of analyzeDifficulty (config/models.js:134-136).
  const SIMPLE_KEYWORDS: seq<string> := ["ما هو", "من هو", "متى", "أين", "كم", "هل", "what", "who", "when", "where"]
  const COMPLEX_KEYWORDS: seq<string> := ["اشرح", "حلل", "قارن", "ناقش", "برهن", "explain", "analyze", "compare", "prove"]
  const EXPERT_KEYWORDS: seq<string> := ["نظرية", "معادلة", "خوارزمية", "فلسفة", "theory", "algorithm", "philosophy"]

  /** `analyzeDifficulty(question)`: keywords of the lowercased question decide
      first (expert over complex over simple), otherwise its length. */
  function AnalyzeDifficulty(question: string): (d: string)
    ensures d in [SIMPLE, MODERATE, COMPLEX, EXPERT]
    ensures d == EXPERT <==> ContainsAny(ToLower(question), EXPERT_KEYWORDS)
    ensures d == COMPLEX <==>
              !ContainsAny(ToLower(question), EXPERT_KEYWORDS)
              && (ContainsAny(ToLower(question), COMPLEX_KEYWORDS)
                  || (!ContainsAny(ToLower(question), COMPLEX_KEYWORDS)
                      && !ContainsAny(ToLower(question), SIMPLE_KEYWORDS) && |question| >= 150))
    ensures d == MODERATE <==> !HasDifficultyKeyword(question) && 50 <= |question| < 150
    ensures d == SIMPLE <==>
              !ContainsAny(ToLower(question), EXPERT_KEYWORDS)
              && !ContainsAny(ToLower(question), COMPLEX_KEYWORDS)
              && (ContainsAny(ToLower(question), SIMPLE_KEYWORDS) || |question| < 50)
  {
    var lower := ToLower(question);
    if ContainsAny(lower, EXPERT_KEYWORDS) then EXPERT
    else if ContainsAny(lower, COMPLEX_KEYWORDS) then COMPLEX
    else if ContainsAny(lower, SIMPLE_KEYWORDS) then SIMPLE
    else if |question| < 50 then SIMPLE
    else if |question| < 150 then MODERATE
    else COMPLEX
  }

  predicate HasDifficultyKeyword(question: string)
  {
    var lower := ToLower(question);
    ContainsAny(lower, EXPERT_KEYWORDS) || ContainsAny(lower, COMPLEX_KEYWORDS)
    || ContainsAny(lower, SIMPLE_KEYWORDS)
  }

  /** Without a keyword the difficulty only grows with the length of the
      question, and it never reaches `expert`. */
  lemma {:induction false} LengthMonotone(q1: string, q2: string)
    requires !HasDifficultyKeyword(q1) && !HasDifficultyKeyword(q2)
    requires |q1| <= |q2|
    ensures Rank(AnalyzeDifficulty(q1)) <= Rank(AnalyzeDifficulty(q2)) < Rank(EXPERT)
  {
  }

  /** Position of a tag on the scale simple < moderate < complex < expert. */
  function Rank(d: string): nat
  {
    if d == SIMPLE then 0 else if d == MODERATE then 1 else if d == COMPLEX then 2 else 3
  }

  const CODE_KEYWORDS: seq<string> := ["كود", "برمج", "code", "program", "function", "class", "script"]
  const RESEARCH_KEYWORDS: seq<string> := ["ابحث", "ابحث عن", "search", "research", "find"]
  const CODE_FENCE: string := "```"

  /** `analyzeContentType(message)`. The fence is looked for in the original
      message, the keywords in the lowercased one. */
  function AnalyzeContentType(message: string): (t: string)
    ensures t in ["code", "research", "text"]
    ensures t == "code" <==> ContainsAny(ToLower(message), CODE_KEYWORDS) || Contains(message, CODE_FENCE)
    ensures t == "research" <==> !(ContainsAny(ToLower(message), CODE_KEYWORDS) || Contains(message, CODE_FENCE))
                                 && ContainsAny(ToLower(message), RESEARCH_KEYWORDS)
  {
    var lower := ToLower(message);
    if ContainsAny(lower, CODE_KEYWORDS) || Contains(message, CODE_FENCE) then "code"
    else if ContainsAny(lower, RESEARCH_KEYWORDS) then "research"
    else "text"
  }
}
