/** `SemanticRouter`: the intent of a message, from keyword rules first and
    from the language model only when no rule applies. */
module Router {
  import opened Outcomes
  import opened Text
  import opened Json
  import opened LlmClient

  datatype IntentType = GREETING | KNOWLEDGE_QUERY | TASK_ACTION | OUT_OF_SCOPE

  /** The enum's values, which are also its names. */
  function IntentName(i: IntentType): string
  {
    match i
    case GREETING => "GREETING"
    case KNOWLEDGE_QUERY => "KNOWLEDGE_QUERY"
    case TASK_ACTION => "TASK_ACTION"
    case OUT_OF_SCOPE => "OUT_OF_SCOPE"
  }

  /** `IntentType(value)`: None for a value that names no member (the enum
      raises). */
  function FromName(s: string): (r: Option<IntentType>)
    ensures r.Some? ==> IntentName(r.GetOr(TASK_ACTION)) == s
  {
    if s == "GREETING" then Some(GREETING)
    else if s == "KNOWLEDGE_QUERY" then Some(KNOWLEDGE_QUERY)
    else if s == "TASK_ACTION" then Some(TASK_ACTION)
    else if s == "OUT_OF_SCOPE" then Some(OUT_OF_SCOPE)
    else None
  }

  /** `[e.value for e in IntentType]`. */
  function Categories(): seq<string>
  {
    ["GREETING", "KNOWLEDGE_QUERY", "TASK_ACTION", "OUT_OF_SCOPE"]
  }

  /** Every category the model may answer with names an intent. */
  lemma CategoriesAreNames(c: string)
    requires c in Categories() || c == "OUT_OF_SCOPE"
    ensures FromName(c).Some?
  {
  }

  function GreetingWords(): seq<string>
  {
    ["hello", "hi", "hey", "good morning", "good afternoon", "namaste"]
  }

  function KnowledgePhrases(): seq<string>
  {
    ["what is", "how does", "can you explain", "tell me about", "interest rate", "eligibility", "documents required"]
  }

  function OffTopicWords(): seq<string>
  {
    ["weather", "joke", "movie", "recipe", "sports", "politics"]
  }

  /** `_quick_classify`: the first rule that applies, in the order greeting
      (only for a message shorter than 50 characters), knowledge question,
      off-topic request, and an active flow; None when none applies. The
      keywords are looked up in the stripped, lower-cased message, but the
      length is that of the raw message. */
  function QuickClassify(message: string, state: string): (r: Option<IntentType>)
    ensures var m := Strip(Lower(message));
            var greeting := ContainsAny(m, GreetingWords()) && |message| < 50;
            var knowledge := ContainsAny(m, KnowledgePhrases());
            var offTopic := ContainsAny(m, OffTopicWords());
            var active := state != "GREETING" && state != "COMPLETED";
            (r == Some(GREETING) <==> greeting) &&
            (r == Some(KNOWLEDGE_QUERY) <==> !greeting && knowledge) &&
            (r == Some(OUT_OF_SCOPE) <==> !greeting && !knowledge && offTopic) &&
            (r == Some(TASK_ACTION) <==> !greeting && !knowledge && !offTopic && active) &&
            (r.None? <==> !greeting && !knowledge && !offTopic && !active)
  {
    var m := Strip(Lower(message));
    if ContainsAny(m, GreetingWords()) && |message| < 50 then Some(GREETING)
    else if ContainsAny(m, KnowledgePhrases()) then Some(KNOWLEDGE_QUERY)
    else if ContainsAny(m, OffTopicWords()) then Some(OUT_OF_SCOPE)
    else if state != "GREETING" && state != "COMPLETED" then Some(TASK_ACTION)
    else None
  }

  /** `route`: a rule's answer when one applies; otherwise the model's
      category, and TASK_ACTION when the request raises or the category
      names no intent. */
  function Route(message: string, state: string, oracle: Oracle): (r: IntentType)
    ensures QuickClassify(message, state).Some? ==> Some(r) == QuickClassify(message, state)
    ensures QuickClassify(message, state).None? && Classify(oracle, message, Categories()).Raised? ==>
              r == TASK_ACTION
  {
    match QuickClassify(message, state)
    case Some(i) => i
    case None =>
      match Classify(oracle, message, Categories())
      case Raised(_) => TASK_ACTION
      case Ok(c) =>
        match FromName(c)
        case Some(i) => i
        case None => TASK_ACTION
  }

  /** When no rule applies and the model answers, the route is the intent
      the model named: `classify` only ever answers with one of the
      categories or OUT_OF_SCOPE, so the ValueError fallback is never
      taken. */
  lemma RouteFollowsModel(message: string, state: string, oracle: Oracle)
    requires QuickClassify(message, state).None?
    requires Classify(oracle, message, Categories()).Ok?
    ensures IntentName(Route(message, state, oracle)) == Classify(oracle, message, Categories()).value
  {
    var c := Classify(oracle, message, Categories()).value;
    assert c in Categories() || c == "OUT_OF_SCOPE";
    CategoriesAreNames(c);
  }

  /** The model is consulted only outside an active flow: in any state but
      GREETING and COMPLETED the route does not depend on the model. */
  lemma ActiveFlowIgnoresModel(message: string, state: string, o1: Oracle, o2: Oracle)
    requires state != "GREETING" && state != "COMPLETED"
    ensures Route(message, state, o1) == Route(message, state, o2)
  {
  }

  /** A message of 50 characters or more is never taken for a greeting by
      the rules. */
  lemma LongMessageIsNoGreeting(message: string, state: string)
    requires |message| >= 50
    ensures QuickClassify(message, state) != Some(GREETING)
  {
  }

  /** A label the model makes up is normalised by `classify` to
      OUT_OF_SCOPE, so it routes there rather than to the TASK_ACTION
      fallback. */
  lemma UnknownLabelIsOutOfScope(message: string, state: string, oracle: Oracle, category: string)
    requires QuickClassify(message, state).None?
    requires ClassifyQuery(message, Categories()) in oracle
    requires oracle[ClassifyQuery(message, Categories())] == Decoded(map["category" := JString(category)])
    requires category !in Categories()
    ensures Route(message, state, oracle) == OUT_OF_SCOPE
  {
    ClassifyReadsCategory(oracle, message, Categories(), category);
    assert FromName("OUT_OF_SCOPE") == Some(OUT_OF_SCOPE);
  }

  /** Without a model, a message no rule classifies is a task action. */
  lemma OfflineIsTaskAction(message: string, state: string)
    requires QuickClassify(message, state).None?
    ensures Route(message, state, Offline) == TASK_ACTION
  {
  }
}
