/** The eight stage workers of workers.py, the re-prompt templates and the
    two reply composers. Each worker yields the next stage, the reply and the
    state fields to overwrite; the consent and amount workers also keep a
    retry counter on the state. */
module Workers {
  import opened Outcomes
  import opened Text
  import opened Json
  import opened Session
  import opened MockServices
  import opened Underwriting
  import opened Nlu
  import NumberFormat

  /** One entry of a worker's `updates` dictionary: the field it overwrites
      and the new value. */
  datatype Update =
    | SetCustomerId(customerId: string)
    | SetRequestedAmount(amount: int)
    | SetCrmProfile(profile: Option<CustomerProfile>)
    | SetBureauReport(report: Option<BureauReport>)
    | SetUnderwritingResult(result: Decision)

  datatype WorkerResult = WorkerResult(nextStage: LoanStage, message: string, updates: seq<Update>)

  /** The stage keys of `TEMPLATES`. */
  datatype TemplateKey = CONSENT_KEY | AMOUNT_OUT_OF_RANGE | AMOUNT_UNCLEAR | CUSTOMER_ID | OUT_OF_SCOPE_KEY | META_SHORT

  /** `len(TEMPLATES[key])`; every list has at least two entries. */
  function TemplateCount(key: TemplateKey): (n: nat)
    ensures n >= 2
  {
    match key
    case CONSENT_KEY => 4
    case AMOUNT_OUT_OF_RANGE => 4
    case AMOUNT_UNCLEAR => 4
    case CUSTOMER_ID => 3
    case OUT_OF_SCOPE_KEY => 2
    case META_SHORT => 2
  }

  /** `TEMPLATES[key][i]`: the re-prompt wording per stage key, mildest first. */
  function TemplateText(key: TemplateKey, i: nat): string
    requires i < TemplateCount(key)
  {
    match key
    case CONSENT_KEY =>
      if i == 0 then "I need your consent to process basic loan checks (ID & credit bureau). Please say YES to continue or NO to stop."
      else if i == 1 then "Before I proceed, please confirm that I can process your loan request (reply YES/NO)."
      else if i == 2 then "Quick confirm: may I proceed with checking your details for the loan? A simple YES works."
      else "I can only continue with a clear YES. If you'd like help from a human instead, say 'human'."
    case AMOUNT_OUT_OF_RANGE =>
      if i == 0 then "That amount is outside our supported personal loan range (max ₹10,00,000). Please enter an amount up to ₹10,00,000."
      else if i == 1 then "We generally offer personal loans up to ₹10,00,000. Could you pick a lesser amount?"
      else if i == 2 then "Too high for our product — keep it under ₹10L and I'll continue."
      else "Let's be realistic — max personal loan is ₹10,00,000. Please choose a smaller amount."
    case AMOUNT_UNCLEAR =>
      if i == 0 then "I didn't quite catch the amount. You can say '4 lakh' or '400000'."
      else if i == 1 then "Please state the amount clearly: e.g., '₹4 lakh' or '4,00,000'."
      else if i == 2 then "Could you rephrase the amount? Try '1 lakh', '2.5 lakh', or '400000'."
      else "I'm still not sure about the amount. If you'd like help, say 'help with amounts'."
    case CUSTOMER_ID =>
      if i == 0 then "Please provide your Customer ID in the format CUST001."
      else if i == 1 then "I need your Customer ID (e.g., CUST001) to fetch your profile."
      else "Tell me your Customer ID (CUSTxyz). I'll look up your profile."
    case OUT_OF_SCOPE_KEY =>
      if i == 0 then "I can only help with personal loan applications. For other topics, please contact support."
      else "Sorry, that's out of my scope — I handle loan origination matters."
    case META_SHORT =>
      if i == 0 then "I assist users through a conversational loan application — short checks and eligibility."
      else "This bot guides you through an AI-assisted personal loan application in chat."
  }

  /** The workers' fixed replies, one key per text. */
  datatype ReplyKey =
    | GREETING_TEXT
    | CONSENT_WHY | CONSENT_THANKS | CONSENT_REFUSED | CONSENT_FIRM
    | ID_WHY | ID_ASK | ID_FORMAT | ID_RECORDED
    | AMOUNT_WHY | AMOUNT_ASK | AMOUNT_INVALID | AMOUNT_NOTED(amount: int)
    | CRM_FOUND | CRM_MISSING | BUREAU_FOUND | BUREAU_MISSING
    | UNDERWRITING_FAILED | UNDERWRITING_DONE
    | NO_DECISION | APPROVED(approved: int) | MANUAL_REVIEW

  /** The text of each fixed reply. */
  function ReplyText(k: ReplyKey): string
  {
    match k
    case GREETING_TEXT => "Hi — I can help you apply for a personal loan. I will ask for a few details and run checks."
    case CONSENT_WHY => "I need your permission to process basic loan checks (ID & bureau)."
    case CONSENT_THANKS => "Great — thanks for confirming. Please provide your Customer ID (e.g. CUST001)."
    case CONSENT_REFUSED => "Understood. We won't proceed without your consent. If you change your mind, say YES."
    case CONSENT_FIRM => "I need a clear YES to proceed. If you are unsure, reply 'help' or 'speak to human'."
    case ID_WHY => "I need your Customer ID to fetch your profile."
    case ID_ASK => "Please give your Customer ID (e.g., CUST001)."
    case ID_FORMAT => "Please provide Customer ID in format CUST001."
    case ID_RECORDED => "Customer ID recorded. How much loan amount do you need?"
    case AMOUNT_WHY => "I need the loan amount to proceed."
    case AMOUNT_ASK => "Please tell me the loan amount you want (e.g., 4 lakh)."
    case AMOUNT_INVALID => "That doesn't look like a valid amount. Try again with numbers only or '4 lakh'."
    case AMOUNT_NOTED(amt) => "Understood — you requested ₹" + IntToString(amt) + ". Checking your profile now."
    case CRM_FOUND => "Internal profile lookup complete. Now reviewing credit bureau details."
    case CRM_MISSING => "No internal profile found; proceeding with available info. Now reviewing credit bureau details."
    case BUREAU_FOUND => "Credit bureau review completed. Evaluating eligibility now."
    case BUREAU_MISSING => "No bureau report available; proceeding with limited info. Evaluating eligibility now."
    case UNDERWRITING_FAILED => "There was a problem evaluating your application; we'll escalate this to a human reviewer."
    case UNDERWRITING_DONE => "Underwriting completed. Preparing final decision."
    case NO_DECISION => "Decision could not be made automatically; escalating to manual review."
    case APPROVED(amt) => "Congratulations — your loan has been approved for ₹" + IntToString(amt) + ". We will send details shortly."
    case MANUAL_REVIEW => "Your case requires manual review. Our team will contact you."
  }

  /** `min(attempt - 1, len - 1)`: the attempt's template, the last one once
      they run out. */
  function TemplateIndex(attempt: int, count: nat): (i: nat)
    requires attempt >= 1 && count >= 1
    ensures i < count
    ensures i == attempt - 1 || (i == count - 1 && attempt - 1 >= count - 1)
  {
    if attempt - 1 <= count - 1 then attempt - 1 else count - 1
  }

  /** A stripped model answer holding "\n" has a second line. */
  lemma SecondLine(out: string)
    requires out != [] && !IsSpace(out[|out| - 1])
    requires Contains(out, "\n")
    ensures |SplitLines(out)| >= 2
  {
    var i: nat :| i <= |out| && OccursAt(out, "\n", i);
    assert out[i] == out[i..i + 1][0];
    SplitLinesOfStripped(out);
  }

  /** `out.strip().splitlines()[0]` plus, when the answer holds "\n", a line
      break and its second line. */
  function RephrasedText(out: string): (r: string)
    requires out != [] && !IsSpace(out[0]) && !IsSpace(out[|out| - 1])
  {
    var first := SplitLines(out)[0];
    if Contains(out, "\n") then
      SecondLine(out);
      first + "\n" + SplitLines(out)[1]
    else first
  }

  /** `rephrase_template`: the model's rewording of the chosen template when
      it answers with text, and otherwise `core` (every caller passes one, so
      the chosen template itself is never returned). */
  function RephraseTemplate(stageKey: TemplateKey, attempt: int, core: string, llm: Llm): (r: string)
    requires attempt >= 1
    ensures llm == Unavailable ==> r == core
    ensures CallRaw(llm, RephrasePrompt(ChosenTemplate(stageKey, attempt), ToneFor(attempt))) in {None, Some([])} ==> r == core
  {
    var chosen := ChosenTemplate(stageKey, attempt);
    match CallRaw(llm, RephrasePrompt(chosen, ToneFor(attempt)))
    case Some(out) => if out != [] then RephrasedText(out) else core
    case None => core
  }

  /** The template the model is asked to reword: the stage key's list at the
      attempt's index. Every call site names a key of the table, so the
      `[core]` default list is never used. */
  function ChosenTemplate(stageKey: TemplateKey, attempt: int): (r: string)
    requires attempt >= 1
    ensures attempt <= TemplateCount(stageKey) ==> r == TemplateText(stageKey, attempt - 1)
    ensures attempt >= TemplateCount(stageKey) ==> r == TemplateText(stageKey, TemplateCount(stageKey) - 1)
  {
    TemplateText(stageKey, TemplateIndex(attempt, TemplateCount(stageKey)))
  }

  /** Friendly for the first two attempts, playful from the third on. */
  function ToneFor(attempt: int): (t: Tone)
    ensures t == Playful <==> attempt >= 3
  {
    if attempt >= 3 then Playful else Friendly
  }

  /** `respond_and_redirect`: the first line of the model's rewording of
      `quick` (or `quick` itself), a blank line, then the redirect. */
  function RespondAndRedirect(quick: string, redirect: string, llm: Llm): (r: string)
    ensures EndsWith(r, "\n\n" + redirect)
    ensures CallRaw(llm, RedirectPrompt(quick)) in {None, Some([])} ==> r == quick + "\n\n" + redirect
  {
    hide SplitLines, CallRaw;
    var quickR :=
      match CallRaw(llm, RedirectPrompt(quick))
      case Some(out) => if out != [] then SplitLines(out)[0] else quick
      case None => quick;
    assert (quickR + "\n\n" + redirect)[|quickR|..] == "\n\n" + redirect;
    quickR + "\n\n" + redirect
  }

  // ----- greeting, customer id ------------------------------------------------


  /** `greeting_worker`: always on to CONSENT, nothing written. */
  function GreetingWorker(llm: Llm): (r: WorkerResult)
    ensures r.nextStage == CONSENT && r.updates == []
    ensures llm == Unavailable ==> r.message == ReplyText(GREETING_TEXT)
  {
    hide *;
    WorkerResult(CONSENT, RephraseTemplate(META_SHORT, 1, ReplyText(GREETING_TEXT), llm), [])
  }


  /** `customer_id_worker`: a recognised id moves on to COLLECT_AMOUNT and is
      recorded; anything else re-asks. */
  function CustomerIdWorker(stage: LoanStage, text: string, llm: Llm): (r: WorkerResult)
    ensures r.nextStage in {COLLECT_CUSTOMER_ID, COLLECT_AMOUNT}
    ensures r.nextStage == COLLECT_AMOUNT <==>
              ClassifyIntent(text, stage, llm).intent == SLOT_VALUE && ExtractCustomerId(text).Some?
    ensures r.nextStage == COLLECT_AMOUNT ==> r.updates == [SetCustomerId(ExtractCustomerId(text).GetOr([]))]
    ensures r.nextStage == COLLECT_CUSTOMER_ID ==> r.updates == []
  {
    hide *;
    var c := ClassifyIntent(text, stage, llm);
    if c.intent != SLOT_VALUE then
      var short := HintOr(c.hint, ReplyText(ID_WHY));
      WorkerResult(COLLECT_CUSTOMER_ID, RespondAndRedirect(short, ReplyText(ID_ASK), llm), [])
    else match ExtractCustomerId(text)
      case None =>
        WorkerResult(COLLECT_CUSTOMER_ID, RephraseTemplate(CUSTOMER_ID, 1, ReplyText(ID_FORMAT), llm), [])
      case Some(cid) =>
        WorkerResult(COLLECT_AMOUNT, ReplyText(ID_RECORDED), [SetCustomerId(cid)])
  }

  // ----- consent ---------------------------------------------------------------


  /** What `consent_worker` replies on its `attempt`-th call in a row. */
  function ConsentReply(attempt: int, stage: LoanStage, text: string, llm: Llm): (r: WorkerResult)
    requires attempt >= 1
    ensures r.updates == []
    ensures r.nextStage in {CONSENT, COLLECT_CUSTOMER_ID}
  {
    hide *;
    var c := ClassifyIntent(text, stage, llm);
    if c.intent in {META, PROCESS} then
      var short := HintOr(c.hint, ReplyText(CONSENT_WHY));
      WorkerResult(CONSENT, short + "\n\n" + RephraseTemplate(CONSENT_KEY, attempt, short, llm), [])
    else match ExtractConsent(text, llm)
      case Some(true) => WorkerResult(COLLECT_CUSTOMER_ID, ReplyText(CONSENT_THANKS), [])
      case Some(false) => WorkerResult(CONSENT, ReplyText(CONSENT_REFUSED), [])
      case None =>
        if attempt >= 4 then WorkerResult(CONSENT, ReplyText(CONSENT_FIRM), [])
        else
          WorkerResult(CONSENT, RephraseTemplate(CONSENT_KEY, attempt, ChosenTemplate(CONSENT_KEY, attempt), llm), [])
  }

  /** The turn gives consent: not a question about the bot or the process,
      and the consent extractor answers True. */
  predicate ConsentGiven(stage: LoanStage, text: string, llm: Llm)
  {
    ClassifyIntent(text, stage, llm).intent !in {META, PROCESS} && ExtractConsent(text, llm) == Some(true)
  }

  /** Only a turn that gives consent moves on to COLLECT_CUSTOMER_ID. */
  lemma ConsentAdvances(attempt: int, stage: LoanStage, text: string, llm: Llm)
    requires attempt >= 1
    ensures ConsentReply(attempt, stage, text, llm).nextStage == COLLECT_CUSTOMER_ID <==> ConsentGiven(stage, text, llm)
  {
    hide ClassifyIntent, ExtractConsent, ReplyText, RephraseTemplate;
  }

  /** The retry ladder without a model: an unresolved answer gets the
      attempt's consent template, and from the fourth attempt on the firm
      text that offers a human. */
  lemma ConsentLadder(attempt: int, stage: LoanStage, text: string)
    requires attempt >= 1
    requires var i := ClassifyIntent(text, stage, Unavailable).intent;
             i !in {META, PROCESS} && ExtractConsent(text, Unavailable).None?
    ensures attempt >= 4 ==> ConsentReply(attempt, stage, text, Unavailable).message == ReplyText(CONSENT_FIRM)
    ensures attempt < 4 ==> ConsentReply(attempt, stage, text, Unavailable).message == TemplateText(CONSENT_KEY, attempt - 1)
  {
    hide ClassifyIntent, DeterministicIntentGuess, ExtractConsent, ReplyText, TemplateText;
  }

  /** The firm consent text offers a human. */
  lemma FirmConsentOffersHuman()
    ensures Contains(ReplyText(CONSENT_FIRM), "speak to human")
  {
    assert OccursAt(ReplyText(CONSENT_FIRM), "speak to human", 67);
  }

  // ----- amount ----------------------------------------------------------------

  const MaxLoan := 1000000

  /** What `amount_worker` replies on its `attempt`-th call; `extract_amount`
      may raise, and then so does the worker. */
  function AmountReply(attempt: int, stage: LoanStage, text: string, llm: Llm): (r: Result<WorkerResult, AmountError>)
    requires attempt >= 1
    ensures r.Ok? ==> r.value.nextStage in {COLLECT_AMOUNT, CRM_CHECK}
    ensures r.Ok? && r.value.nextStage == COLLECT_AMOUNT ==> r.value.updates == []
    ensures r.Ok? && r.value.nextStage == CRM_CHECK <==>
              ClassifyIntent(text, stage, llm).intent == SLOT_VALUE
              && ExtractAmount(text, llm).Ok? && ExtractAmount(text, llm).value.Some?
              && 1 <= ExtractAmount(text, llm).value.value <= MaxLoan
    ensures r.Ok? && r.value.nextStage == CRM_CHECK ==>
              r.value.updates == [SetRequestedAmount(ExtractAmount(text, llm).value.value)]
    ensures r.Raised? <==> ClassifyIntent(text, stage, llm).intent == SLOT_VALUE && ExtractAmount(text, llm).Raised?
  {
    hide *;
    var c := ClassifyIntent(text, stage, llm);
    if c.intent != SLOT_VALUE then
      var short := HintOr(c.hint, ReplyText(AMOUNT_WHY));
      Ok(WorkerResult(COLLECT_AMOUNT, RespondAndRedirect(short, ReplyText(AMOUNT_ASK), llm), []))
    else match ExtractAmount(text, llm)
      case Raised(e) => Raised(e)
      case Ok(None) =>
        Ok(WorkerResult(COLLECT_AMOUNT, RephraseTemplate(AMOUNT_UNCLEAR, attempt, TemplateText(AMOUNT_UNCLEAR, 0), llm), []))
      case Ok(Some(amt)) =>
        if amt <= 0 then
          Ok(WorkerResult(COLLECT_AMOUNT, ReplyText(AMOUNT_INVALID), []))
        else if amt > MaxLoan then
          Ok(WorkerResult(COLLECT_AMOUNT, RephraseTemplate(AMOUNT_OUT_OF_RANGE, attempt, TemplateText(AMOUNT_OUT_OF_RANGE, 0), llm), []))
        else
          Ok(WorkerResult(CRM_CHECK, ReplyText(AMOUNT_NOTED(amt)), [SetRequestedAmount(amt)]))
  }

  /** Without a model the amount re-prompts never move past the first
      template, whatever the attempt. */
  lemma AmountPromptsStayOnFirst(attempt: int, stage: LoanStage, text: string)
    requires attempt >= 1
    requires ClassifyIntent(text, stage, Unavailable).intent == SLOT_VALUE
    ensures ExtractAmount(text, Unavailable) == Ok(None) ==>
              AmountReply(attempt, stage, text, Unavailable) == Ok(WorkerResult(COLLECT_AMOUNT, TemplateText(AMOUNT_UNCLEAR, 0), []))
    ensures ExtractAmount(text, Unavailable).Ok? && ExtractAmount(text, Unavailable).value.Some?
            && ExtractAmount(text, Unavailable).value.value > MaxLoan ==>
              AmountReply(attempt, stage, text, Unavailable) == Ok(WorkerResult(COLLECT_AMOUNT, TemplateText(AMOUNT_OUT_OF_RANGE, 0), []))
  {
    hide ClassifyIntent, ExtractAmount, ReplyText, TemplateText, Normalize, StackedUnits, RuleAmountAsWritten,
      FirstUnitMatch, OracleAmount, ParseDecimal;
  }

  /** `consent_worker`: counts the call in `_retries["CONSENT"]`, replies, and
      clears the counter once consent is given. */
  method ConsentWorker(state: LoanState, text: string, llm: Llm) returns (r: WorkerResult)
    modifies state`retries
    ensures r == ConsentReply(Count(old(state.retries), "CONSENT") + 1, old(state.stage), text, llm)
    ensures state.retries == old(state.retries)["CONSENT" := if r.nextStage == COLLECT_CUSTOMER_ID then 0
                                                             else Count(old(state.retries), "CONSENT") + 1]
  {
    hide *;
    var stage := state.stage;
    var attempt := state.CountAttempt("CONSENT");
    r := ConsentReply(attempt, stage, text, llm);
    if r.nextStage == COLLECT_CUSTOMER_ID {
      state.ResetAttempts("CONSENT");
    }
  }

  /** `amount_worker`: counts the call in `_retries["AMOUNT"]` (before the
      extractor can raise) and replies. */
  method AmountWorker(state: LoanState, text: string, llm: Llm) returns (r: Result<WorkerResult, AmountError>)
    modifies state`retries
    ensures r == AmountReply(Count(old(state.retries), "AMOUNT") + 1, old(state.stage), text, llm)
    ensures state.retries == old(state.retries)["AMOUNT" := Count(old(state.retries), "AMOUNT") + 1]
  {
    var stage := state.stage;
    var attempt := state.CountAttempt("AMOUNT");
    r := AmountReply(attempt, stage, text, llm);
  }

  // ----- checks and decision ----------------------------------------------------

  /** `crm_worker`: looks the profile up when a customer id is set, and moves
      on to BUREAU_CHECK either way. */
  function CrmWorker(customerId: Option<string>): (r: WorkerResult)
    ensures r.nextStage == BUREAU_CHECK
    ensures r.updates == [SetCrmProfile(if customerId.Some? && customerId.value != [] then GetCrmProfile(customerId.value) else None)]
  {
    hide ReplyText;
    var profile := if customerId.Some? && customerId.value != [] then GetCrmProfile(customerId.value) else None;
    WorkerResult(BUREAU_CHECK, ReplyText(if profile.Some? then CRM_FOUND else CRM_MISSING), [SetCrmProfile(profile)])
  }

  /** `bureau_worker`: the same for the bureau report, on to UNDERWRITING. */
  function BureauWorker(customerId: Option<string>): (r: WorkerResult)
    ensures r.nextStage == UNDERWRITING
    ensures r.updates == [SetBureauReport(if customerId.Some? && customerId.value != [] then GetBureauReport(customerId.value) else None)]
  {
    hide ReplyText;
    var bureau := if customerId.Some? && customerId.value != [] then GetBureauReport(customerId.value) else None;
    WorkerResult(UNDERWRITING, ReplyText(if bureau.Some? then BUREAU_FOUND else BUREAU_MISSING), [SetBureauReport(bureau)])
  }

  /** `underwriting_worker`: an exception from the rule escalates, a decision
      is stored and moves on to DECISION. */
  function UnderwritingWorker(rules: Rules, profile: Option<CustomerProfile>, bureau: Option<BureauReport>,
                              requested: Option<int>): (r: WorkerResult)
    ensures r.nextStage in {ESCALATED, DECISION}
    ensures r.nextStage == ESCALATED <==> EvaluateApplication(rules, profile, bureau, requested).Raised?
    ensures r.nextStage == ESCALATED ==> r.updates == []
    ensures r.nextStage == DECISION ==> r.updates == [SetUnderwritingResult(EvaluateApplication(rules, profile, bureau, requested).value)]
  {
    hide ReplyText;
    match EvaluateApplication(rules, profile, bureau, requested)
    case Raised(_) => WorkerResult(ESCALATED, ReplyText(UNDERWRITING_FAILED), [])
    case Ok(d) => WorkerResult(DECISION, ReplyText(UNDERWRITING_DONE), [SetUnderwritingResult(d)])
  }

  /** The `reason` text of a decision, the FOIR and its limit shown with two
      decimals (`f"{foir:.2f}"`). */
  function ReasonText(r: Reason): (t: string)
    ensures r.DefaultRejection? ==> t == r.text
    ensures r.FoirExceeded? ==>
              t == "FOIR " + NumberFormat.FormatPoint(r.foir, 2) +
                   (" exceeds max " + NumberFormat.FormatPoint(r.maxFoir, 2) + ". Requires documents/manual review.")
    ensures r.TierRequiresProof? ==>
              t == "Score tier requires income proof. Credit score " + IntToString(r.creditScore) +
                   ", tier min_score " + IntToString(r.tierMinScore) + "."
    ensures !r.DefaultRejection? ==> t != []
  {
    match r
    case MissingCreditScore => "Missing credit score in bureau report."
    case DefaultRejection(text) => text
    case NoApplicableTier => "No applicable score tier found."
    case ZeroEligibility => "Income-based eligibility is zero."
    case Eligible => "Eligible as per credit score and income."
    case FoirExceeded(foir, maxFoir) =>
      "FOIR " + NumberFormat.FormatPoint(foir, 2) +
      (" exceeds max " + NumberFormat.FormatPoint(maxFoir, 2) + ". Requires documents/manual review.")
    case TierRequiresProof(score, minScore) =>
      "Score tier requires income proof. Credit score " + IntToString(score) + ", tier min_score " + IntToString(minScore) + "."
  }

  /** The FOIR shown in the referral reason reads back, through `float`,
      within 0.005 of the ratio the engine computed. */
  lemma FoirReasonShowsRatio(foir: real, maxFoir: real)
    requires foir >= 0.0
    ensures var shown := NumberFormat.FormatPoint(foir, 2);
            && ReasonText(FoirExceeded(foir, maxFoir))[5..5 + |shown|] == shown
            && ParseDecimal(shown).Some?
            && foir - 0.005 <= ParseDecimal(shown).GetOr(0.0) <= foir + 0.005
  {
    var shown := NumberFormat.FormatPoint(foir, 2);
    NumberFormat.TwoPlacesReadBack(foir);
    hide *;
    var rest := " exceeds max " + NumberFormat.FormatPoint(maxFoir, 2) + ". Requires documents/manual review.";
    assert ReasonText(FoirExceeded(foir, maxFoir)) == "FOIR " + shown + rest;
    SliceOfConcat("FOIR ", shown, rest);
  }

  /** `decision_worker`: approve and reject complete the application, a
      missing result or a referral for documents escalates. */
  function DecisionWorker(result: Option<Decision>): (r: WorkerResult)
    ensures r.updates == []
    ensures r.nextStage == COMPLETED <==> result.Some? && result.value.verdict in {Approve, Reject}
    ensures r.nextStage == ESCALATED <==> result.None? || result.value.verdict == NeedDocs
    ensures result.Some? && result.value.verdict == Reject ==>
              EndsWith(r.message, "Reason: " + ReasonText(result.value.reason))
  {
    hide ReplyText;
    match result
    case None => WorkerResult(ESCALATED, ReplyText(NO_DECISION), [])
    case Some(d) =>
      match d.verdict
      case Approve =>
        WorkerResult(COMPLETED, ReplyText(APPROVED(d.approvedAmount)), [])
      case Reject =>
        var prefix := "Unfortunately your application was declined. ";
        assert (prefix + ("Reason: " + ReasonText(d.reason)))[|prefix|..] == "Reason: " + ReasonText(d.reason);
        WorkerResult(COMPLETED, prefix + ("Reason: " + ReasonText(d.reason)), [])
      case NeedDocs => WorkerResult(ESCALATED, ReplyText(MANUAL_REVIEW), [])
  }
}
