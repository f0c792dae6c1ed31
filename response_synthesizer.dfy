/** `ResponseSynthesizer`: turns a worker's structured result into the text
    the customer sees, rephrasing a reply that would repeat a recent one. The
    output guardrail is a parameter: its code is not part of this model. */
module ResponseSynthesizer {
  import opened Outcomes
  import opened Text
  import opened Json
  import opened LlmClient
  import opened StateMachine
  import opened Sets

  /** One history entry: who spoke and what was said. */
  datatype Message = Message(role: string, content: string)

  /** The context `synthesize` is given: the state's name (absent when the
      caller gives none) and the conversation history. */
  datatype Context = Context(state: Option<string>, history: seq<Message>)

  /** `output_guardrail.validate(response, in_loan_flow)`. */
  type OutputGuardrail = (Json, bool) -> string

  /** `synthesize` lets one exception escape: a non-text reply compared with
      the history has no `lower`. */
  datatype SynthesisError = NotText

  /** The set of words of `s.lower().split()`. */
  function WordSet(s: string): set<string>
  {
    set w | w in Words(Lower(s))
  }

  /** The ratio of a shared count to a total count: between 0 and 1, and 1
      exactly when the two counts agree. */
  function Ratio(shared: nat, total: nat): (r: real)
    requires 0 < total && shared <= total
    ensures 0.0 <= r <= 1.0
    ensures r == 1.0 <==> shared == total
  {
    (shared as real) / (total as real)
  }

  /** `_similarity`: the Jaccard index of the two word sets, 0 when either
      set is empty. */
  function Similarity(a: string, b: string): (r: real)
    ensures 0.0 <= r <= 1.0
    ensures WordSet(a) == {} || WordSet(b) == {} ==> r == 0.0
  {
    var w1 := WordSet(a);
    var w2 := WordSet(b);
    if w1 == {} || w2 == {} then 0.0
    else
      SubsetCard(w1 * w2, w1 + w2);
      Ratio(|w1 * w2|, |w1 + w2|)
  }

  /** The similarity does not depend on the order of the texts. */
  lemma SimilaritySymmetric(a: string, b: string)
    ensures Similarity(a, b) == Similarity(b, a)
  {
    assert WordSet(a) * WordSet(b) == WordSet(b) * WordSet(a);
    assert WordSet(a) + WordSet(b) == WordSet(b) + WordSet(a);
  }

  /** The similarity is 1 exactly when the two texts have the same words,
      and at least one. */
  lemma SimilarityOne(a: string, b: string)
    ensures Similarity(a, b) == 1.0 <==> WordSet(a) != {} && WordSet(a) == WordSet(b)
  {
    hide Ratio;
    var w1 := WordSet(a);
    var w2 := WordSet(b);
    if w1 != {} && w2 != {} {
      if w1 != w2 {
        var x :| (x in w1 && x !in w2) || (x in w2 && x !in w1);
        SubsetCard(w1 * w2, w1 + w2);
        assert |w1 * w2| < |w1 + w2|;
      } else {
        assert w1 * w2 == w1 + w2;
      }
    }
  }

  /** `history[-3:]`. */
  function Recent(history: seq<Message>): (r: seq<Message>)
    ensures |r| == if |history| < 3 then |history| else 3
    ensures r == history[|history| - |r|..]
  {
    if |history| <= 3 then history else history[|history| - 3..]
  }

  /** The contents of the assistant's entries, in order. */
  function AssistantContents(history: seq<Message>): (r: seq<string>)
    ensures forall c :: c in r <==> exists m :: m in history && m.role == "assistant" && m.content == c
    ensures |r| <= |history|
  {
    if history == [] then []
    else
      var rest := AssistantContents(history[1..]);
      assert forall m :: m in history[1..] ==> m in history;
      assert forall m :: m in history ==> m == history[0] || m in history[1..];
      if history[0].role == "assistant" then [history[0].content] + rest else rest
  }

  /** The reply repeats one of the assistant's last entries: the similarity
      to it is above 0.7. */
  predicate Repeats(response: string, history: seq<Message>)
  {
    exists c :: c in AssistantContents(Recent(history)) && Similarity(response, c) > 0.7
  }

  /** `_should_rephrase`: looks through the assistant's entries among the
      last three for one the reply is too similar to. */
  method ShouldRephrase(response: string, history: seq<Message>) returns (r: bool)
    ensures r <==> Repeats(response, history)
  {
    hide Similarity, WordSet, AssistantContents;
    var recent := AssistantContents(Recent(history));
    var i := 0;
    while i < |recent|
      invariant 0 <= i <= |recent|
      invariant forall j :: 0 <= j < i ==> Similarity(response, recent[j]) <= 0.7
    {
      if Similarity(response, recent[i]) > 0.7 {
        assert recent[i] in recent;
        return true;
      }
      i := i + 1;
    }
    assert forall c :: c in recent ==> Similarity(response, c) <= 0.7;
    return false;
  }

  /** `in_loan_flow`: any state but GREETING and COMPLETED, an absent one
      included. */
  predicate InLoanFlow(state: Option<string>)
  {
    state != Some("GREETING") && state != Some("COMPLETED")
  }

  /** For the flow's own states, the loan flow is every state strictly
      between the greeting and completion. */
  lemma InLoanFlowStates(s: ConversationState)
    ensures InLoanFlow(Some(StateName(s))) <==> s != GREETING && s != COMPLETED
  {
  }

  /** The texts `_generate_from_structured` chooses from. */
  datatype Fallback = Issue(detail: string) | ApprovedNote | NotApproved | UnderReview | Continue

  function FallbackText(k: Fallback): string
  {
    match k
    case Issue(detail) => "I encountered an issue: " + detail + ". Could you please try again?"
    case ApprovedNote => "Congratulations! Your loan application has been approved."
    case NotApproved => "I'm sorry, but your loan application was not approved at this time."
    case UnderReview => "Your application is under review."
    case Continue => "Thank you for the information. Let's continue with your application."
  }

  /** `_generate_from_structured`: an error is reported first, whatever the
      state; in the DECISION state the decision picks the text; otherwise the
      conversation simply continues. */
  function FromStructured(data: map<string, Json>, state: Option<string>): (r: Fallback)
    ensures r.Issue? <==> "error" in data
    ensures "error" in data ==> r.detail == PyStr(data["error"])
    ensures r == Continue <==> "error" !in data && state != Some("DECISION")
    ensures r == ApprovedNote <==>
              "error" !in data && state == Some("DECISION") && Get(data, "decision") == Some(JString("APPROVED"))
    ensures r == NotApproved <==>
              "error" !in data && state == Some("DECISION") && Get(data, "decision") == Some(JString("REJECTED"))
  {
    if "error" in data then Issue(PyStr(data["error"]))
    else if state.GetOr("UNKNOWN") == "DECISION" then
      var decision := Get(data, "decision");
      if decision == Some(JString("APPROVED")) then ApprovedNote
      else if decision == Some(JString("REJECTED")) then NotApproved
      else UnderReview
    else Continue
  }

  /** The model's rephrasing of `base` when it gives a truthy one, and
      `base` itself when the request raises or the rephrasing is empty. */
  function Rephrased(oracle: Oracle, base: string): (r: Json)
    ensures RephraseQuery(base, "professional") !in oracle ==> r == JString(base)
    ensures r != JString(base) ==> Truthy(r)
  {
    match Rephrase(oracle, base, "professional")
    case Raised(_) => JString(base)
    case Ok(v) => if Truthy(v) then v else JString(base)
  }

  /** `synthesize`: a worker's reply is kept as it is unless it repeats a
      recent assistant reply, in which case the model's rephrasing replaces
      it; without a reply the text comes from the structured data. Either
      way the output guardrail has the last word, told whether the
      conversation is inside the loan flow. */
  method Synthesize(data: map<string, Json>, context: Context, oracle: Oracle, guard: OutputGuardrail)
    returns (r: Result<string, SynthesisError>)
    ensures "response" !in data ==>
              r == Ok(guard(JString(FallbackText(FromStructured(data, context.state))), InLoanFlow(context.state)))
    ensures "response" in data && data["response"].JString? ==>
              var base := data["response"].s;
              r == Ok(guard(if Repeats(base, context.history) then Rephrased(oracle, base) else JString(base),
                            InLoanFlow(context.state)))
    ensures "response" in data && !data["response"].JString? ==>
              if AssistantContents(Recent(context.history)) == [] then r == Ok(guard(data["response"], InLoanFlow(context.state)))
              else r == Raised(NotText)
  {
    var response: Json;
    if "response" in data {
      var base := data["response"];
      if !base.JString? {
        if AssistantContents(Recent(context.history)) != [] {
          return Raised(NotText);
        }
        response := base;
      } else {
        var rephrase := ShouldRephrase(base.s, context.history);
        if rephrase {
          response := Rephrased(oracle, base.s);
        } else {
          response := base;
        }
      }
    } else {
      response := JString(FallbackText(FromStructured(data, context.state)));
    }
    r := Ok(guard(response, InLoanFlow(context.state)));
  }

  /** A reply that repeats, word for word, one of the assistant's last three
      replies is always rephrased, as long as it has a word at all. */
  lemma ExactRepeatIsRephrased(response: string, history: seq<Message>)
    requires WordSet(response) != {}
    requires Message("assistant", response) in Recent(history)
    ensures Repeats(response, history)
  {
    SimilarityOne(response, response);
    assert response in AssistantContents(Recent(history));
  }

  /** Only the assistant's replies are compared: a history of the customer's
      own messages never causes a rephrasing. */
  lemma UserHistoryNeverRephrases(response: string, history: seq<Message>)
    requires forall m :: m in history ==> m.role != "assistant"
    ensures !Repeats(response, history)
  {
    assert forall m :: m in Recent(history) ==> m in history;
  }

  /** A reply with no words is never taken for a repetition. */
  lemma EmptyReplyNeverRephrases(response: string, history: seq<Message>)
    requires WordSet(response) == {}
    ensures !Repeats(response, history)
  {
  }
}
