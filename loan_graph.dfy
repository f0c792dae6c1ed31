/** `run_stage`: the stage-to-worker dispatch of loan_graph.py. */
module LoanGraph {
  import opened Outcomes
  import opened Session
  import opened Underwriting
  import opened Nlu
  import opened Workers

  /** What `run_stage` hands back: None for a stage without a worker, the
      exception `extract_amount` can raise, or the worker's result. */
  datatype StageOutcome = NoWorker | Failed(error: AmountError) | Ran(result: WorkerResult)

  /** The application order, GREETING to COMPLETED. */
  function Successor(s: LoanStage): Option<LoanStage>
  {
    match s
    case GREETING => Some(CONSENT)
    case CONSENT => Some(COLLECT_CUSTOMER_ID)
    case COLLECT_CUSTOMER_ID => Some(COLLECT_AMOUNT)
    case COLLECT_AMOUNT => Some(CRM_CHECK)
    case CRM_CHECK => Some(BUREAU_CHECK)
    case BUREAU_CHECK => Some(UNDERWRITING)
    case UNDERWRITING => Some(DECISION)
    case DECISION => Some(COMPLETED)
    case ESCALATED => None
    case COMPLETED => None
  }

  /** A move that skips nothing: stay, advance one step, or escalate from
      underwriting or decision. */
  predicate AllowedNext(s: LoanStage, t: LoanStage)
  {
    t == s || Successor(s) == Some(t) || (t == ESCALATED && s in {UNDERWRITING, DECISION})
  }

  /** The stages whose worker keeps no counter. */
  function UncountedStage(stage: LoanStage, text: string, fields: Fields, rules: Rules, llm: Llm): (o: StageOutcome)
    requires stage !in {CONSENT, COLLECT_AMOUNT}
    ensures o.NoWorker? <==> stage in {COMPLETED, ESCALATED}
    ensures !o.Failed?
    ensures match o
            case Ran(w) => AllowedNext(stage, w.nextStage) && (w.nextStage == ESCALATED ==> stage in {UNDERWRITING, DECISION})
            case _ => true
  {
    // Only the workers' contracts are needed here, not their replies.
    hide *;
    match stage
    case COMPLETED | ESCALATED => NoWorker
    case GREETING | COLLECT_CUSTOMER_ID => Ran(FrontStage(stage, text, llm))
    case CRM_CHECK | BUREAU_CHECK | UNDERWRITING | DECISION => Ran(BackOfficeStage(stage, fields, rules))
  }

  /** The stages that talk to the customer without counting turns: the
      greeting and the customer ID. */
  function FrontStage(stage: LoanStage, text: string, llm: Llm): (r: WorkerResult)
    requires stage in {GREETING, COLLECT_CUSTOMER_ID}
    ensures AllowedNext(stage, r.nextStage) && r.nextStage != ESCALATED
  {
    hide GreetingWorker, CustomerIdWorker, ClassifyIntent, ExtractCustomerId;
    if stage == GREETING then GreetingWorker(llm) else CustomerIdWorker(stage, text, llm)
  }

  /** The stages that run without the customer's text: the lookups, the
      assessment and the decision. */
  function BackOfficeStage(stage: LoanStage, fields: Fields, rules: Rules): (r: WorkerResult)
    requires stage in {CRM_CHECK, BUREAU_CHECK, UNDERWRITING, DECISION}
    ensures AllowedNext(stage, r.nextStage)
    ensures r.nextStage == ESCALATED ==> stage in {UNDERWRITING, DECISION}
  {
    hide CrmWorker, BureauWorker, UnderwritingWorker, DecisionWorker, EvaluateApplication;
    match stage
    case CRM_CHECK => CrmWorker(fields.customerId)
    case BUREAU_CHECK => BureauWorker(fields.customerId)
    case UNDERWRITING => UnderwritingWorker(rules, fields.crmProfile, fields.bureauReport, fields.requestedAmount)
    case DECISION => DecisionWorker(fields.underwritingResult)
  }

  /** What `run_stage` gives for a stage, the retry counters, the text and
      the fields as they were before the call: the consent and amount
      workers see their counter one up, the others see no counter. A worker
      runs exactly when the stage is not terminal, only the amount stage can
      raise, and the next stage skips nothing. */
  function StageResult(stage: LoanStage, retries: map<string, nat>, text: string, fields: Fields, rules: Rules, llm: Llm): (o: StageOutcome)
    ensures o.NoWorker? <==> stage in {COMPLETED, ESCALATED}
    ensures o.Failed? ==> stage == COLLECT_AMOUNT
    ensures match o
            case Ran(w) => AllowedNext(stage, w.nextStage) && (w.nextStage == ESCALATED ==> stage in {UNDERWRITING, DECISION})
            case _ => true
  {
    hide ConsentReply, AmountReply, UncountedStage, ClassifyIntent, DeterministicIntentGuess, ExtractAmount, ExtractConsent,
      Normalize, RuleAmount, RuleAmountAsWritten, StackedUnits, OracleAmount;
    if stage == CONSENT then Ran(ConsentReply(Count(retries, "CONSENT") + 1, CONSENT, text, llm))
    else if stage == COLLECT_AMOUNT then
      match AmountReply(Count(retries, "AMOUNT") + 1, COLLECT_AMOUNT, text, llm)
      case Ok(r) => Ran(r)
      case Raised(e) => Failed(e)
    else UncountedStage(stage, text, fields, rules, llm)
  }

  /** The retry counters after `run_stage`: the consent counter goes up on
      an unresolved turn and back to zero on consent, the amount counter
      goes up on every turn, and no other stage touches them. */
  function RetriesAfter(stage: LoanStage, retries: map<string, nat>, o: StageOutcome): (r: map<string, nat>)
    ensures stage !in {CONSENT, COLLECT_AMOUNT} ==> r == retries
    ensures forall k :: k in retries ==> k in r
    ensures forall k :: k in r && k != "CONSENT" && k != "AMOUNT" ==> k in retries && r[k] == retries[k]
    ensures stage == COLLECT_AMOUNT ==> "AMOUNT" in r && r["AMOUNT"] == Count(retries, "AMOUNT") + 1
    ensures stage == CONSENT ==> "CONSENT" in r && (r["CONSENT"] == 0 <==> o.Ran? && o.result.nextStage == COLLECT_CUSTOMER_ID)
    ensures stage == CONSENT && r["CONSENT"] != 0 ==> r["CONSENT"] == Count(retries, "CONSENT") + 1
  {
    if stage == CONSENT then
      retries["CONSENT" := if o.Ran? && o.result.nextStage == COLLECT_CUSTOMER_ID then 0 else Count(retries, "CONSENT") + 1]
    else if stage == COLLECT_AMOUNT then retries["AMOUNT" := Count(retries, "AMOUNT") + 1]
    else retries
  }

  /** `run_stage(state, user_input)`: runs the stage's worker on the state
      as it was before the call. It never writes the stage; the consent
      worker counts unresolved turns and clears its counter on consent, the
      amount worker counts every turn (before its extractor can raise), and
      no other worker touches the state. Whatever the input, a worker runs
      exactly when the stage is not terminal, only the amount stage can
      raise, and the next stage skips nothing. */
  method RunStage(state: LoanState, text: string, rules: Rules, llm: Llm) returns (o: StageOutcome)
    modifies state`retries
    ensures o == StageResult(old(state.stage), old(state.retries), text, old(state.Snapshot()), rules, llm)
    ensures state.retries == RetriesAfter(old(state.stage), old(state.retries), o)
    ensures old(state.stage) == CONSENT ==>
              o == Ran(ConsentReply(Count(old(state.retries), "CONSENT") + 1, CONSENT, text, llm))
    ensures old(state.stage) == CONSENT ==>
              state.retries == old(state.retries)["CONSENT" := if o.Ran? && o.result.nextStage == COLLECT_CUSTOMER_ID then 0
                                                                else Count(old(state.retries), "CONSENT") + 1]
    ensures old(state.stage) == COLLECT_AMOUNT ==>
              o == (match AmountReply(Count(old(state.retries), "AMOUNT") + 1, COLLECT_AMOUNT, text, llm)
                    case Ok(r) => Ran(r)
                    case Raised(e) => Failed(e))
    ensures old(state.stage) == COLLECT_AMOUNT ==>
              state.retries == old(state.retries)["AMOUNT" := Count(old(state.retries), "AMOUNT") + 1]
    ensures old(state.stage) !in {CONSENT, COLLECT_AMOUNT} ==>
              o == UncountedStage(old(state.stage), text, old(state.Snapshot()), rules, llm)
    ensures old(state.stage) !in {CONSENT, COLLECT_AMOUNT} ==> state.retries == old(state.retries)
    ensures o.NoWorker? <==> old(state.stage) in {COMPLETED, ESCALATED}
    ensures o.Failed? ==> old(state.stage) == COLLECT_AMOUNT
    ensures o.Ran? ==> AllowedNext(old(state.stage), o.result.nextStage)
    ensures o.Ran? && o.result.nextStage == ESCALATED ==> old(state.stage) in {UNDERWRITING, DECISION}
  {
    hide ConsentReply, AmountReply, UncountedStage, ClassifyIntent, DeterministicIntentGuess, ExtractAmount, ExtractConsent;
    var stage := state.stage;
    if stage == CONSENT {
      var r := ConsentWorker(state, text, llm);
      o := Ran(r);
    } else if stage == COLLECT_AMOUNT {
      var r := AmountWorker(state, text, llm);
      o := match r case Ok(w) => Ran(w) case Raised(e) => Failed(e);
    } else {
      o := UncountedStage(stage, text, state.Snapshot(), rules, llm);
    }
  }

  /** Escalation is reachable only through the underwriting and decision
      workers, and every stage before COMPLETED has exactly one next step. */
  lemma NoStageSkipped(s: LoanStage, t: LoanStage)
    requires AllowedNext(s, t) && t != s
    ensures t == ESCALATED || Successor(s) == Some(t)
    ensures t == COMPLETED ==> s == DECISION
  {
  }
}
