/** `DialogueManager.process_task_action`: a correction moves the
    conversation back where that is still allowed; otherwise the worker of
    the current state handles the message. */
module DialogueManager {
  import opened Outcomes
  import opened Text
  import opened Json
  import opened LlmClient
  import opened SlotFiller
  import opened StateMachine
  import opened ConversationSession
  import ConsentFlow
  import CustomerIdFlow
  import AmountFlow
  import DocumentFlow
  import DecisionFlow

  /** `rewind_state`, whose definition is not part of this model: the state
      and slots it leaves, given those it starts from. */
  type Rewinder = (ConversationState, map<string, Json>) -> (ConversationState, map<string, Json>)

  /** The underwriting worker's turn, whose definition is not part of this
      model: the state, slots and reply it leaves, given those it starts
      from, or None when it raises. */
  type Underwriter = (ConversationState, map<string, Json>) -> Option<(ConversationState, map<string, Json>, TurnReply)>

  /** Everything outside the session that the workers consult: the language
      model, the loan limits, the customer service's ID check, the letter
      generator, the underwriting worker and `rewind_state`. */
  datatype Env = Env(
    oracle: Oracle,
    bounds: LoanBounds,
    validId: string -> bool,
    pdf: DecisionFlow.LetterGenerator,
    underwrite: Underwriter,
    rewind: Rewinder)

  /** The exceptions that escape a worker. */
  datatype TurnError =
    | UnderwritingFailed
    | DecisionFailed(d: DecisionFlow.DecisionError)

  datatype Reply = Rewound | Welcome | Done

  function ReplyText(k: Reply): string
  {
    match k
    case Rewound => "I understand you want to correct something. Let's go back."
    case Welcome =>
      "Hello! Welcome to TIA Personal Loans. I'm here to help you with your loan application. Shall we begin?"
    case Done => "Your loan application has been completed. Is there anything else I can help you with?"
  }

  /** The message is a correction and the current state may still be left
      backwards. */
  predicate Rewinds(message: string, s: ConversationState)
  {
    DetectCorrection(message).Some? && CanRewind(s)
  }

  /** The slots the worker of each state may write. */
  function WrittenSlots(s: ConversationState): set<string>
  {
    match s
    case CONSENT => {"consent"}
    case CUSTOMER_ID => {"customer_id"}
    case AMOUNT => {"loan_amount"}
    case DECISION => {"decision", "decision_document"}
    case _ => {}
  }

  /** `after` differs from `before` at most in the slots `written`. */
  predicate Untouched(before: map<string, Json>, after: map<string, Json>, written: set<string>)
  {
    (forall k :: k in before && k !in written ==> k in after && after[k] == before[k]) &&
    (forall k :: k in after && k !in before ==> k in written)
  }

  /** The reply is about the state the session is left in, and it reports a
      state change exactly when the state moved. */
  predicate Reported(r: TurnReply, before: ConversationState, after: ConversationState)
  {
    r.newState == after && (r.stateChanged <==> after != before)
  }

  /** `_handle_greeting`: the welcome, and on to the consent question. */
  method HandleGreeting(session: SessionData) returns (r: TurnReply)
    modifies session
    ensures session.slots == old(session.slots)
    ensures session.currentState == Advance(old(session.currentState), "greeting_completed")
    ensures r == TurnReply(ReplyText(Welcome), true, session.currentState, map[])
  {
    hide ReplyText;
    var next := GetNextState(session.currentState, "greeting_completed");
    if next.Some? {
      session.TransitionState(next.value);
    }
    r := TurnReply(ReplyText(Welcome), true, session.currentState, map[]);
  }

  /** One worker's turn, from `before` and its slots to `after` and its
      slots: a move along the table or none, writes to the worker's own
      slots only, and a truthful report. */
  predicate Followed(before: ConversationState, beforeSlots: map<string, Json>,
                     after: ConversationState, afterSlots: map<string, Json>, r: TurnReply)
  {
    (after == before || ValidateTransition(before, after)) &&
    Untouched(beforeSlots, afterSlots, WrittenSlots(before)) &&
    Reported(r, before, after)
  }

  /** Writing one of the worker's own slots leaves the others alone. */
  lemma WriteUntouched(before: map<string, Json>, key: string, v: Json, written: set<string>)
    requires key in written
    ensures Untouched(before, before[key := v], written)
  {
  }

  /** Writing nothing leaves every slot alone. */
  lemma KeepUntouched(before: map<string, Json>, written: set<string>)
    ensures Untouched(before, before, written)
  {
  }

  /** The consent worker's turn follows the table and writes only the
      consent slot. */
  lemma ConsentFollowed(message: string, oracle: Oracle, slots: map<string, Json>,
                        after: ConversationState, afterSlots: map<string, Json>, r: TurnReply)
    requires ConsentFlow.Outcome(message, oracle, CONSENT, slots, after, afterSlots, r)
    ensures Followed(CONSENT, slots, after, afterSlots, r)
  {
    hide ConsentFlow.ReplyText, ExtractConsent, OracleConsent, Strip, Lower, ContainsAny, GetNextState, Advance,
      Untouched, ExtractSlot, SlotShaped, ParseFailure;
    WorkerMoves();
    if SlotIn(slots, "consent") != JNull {
      KeepUntouched(slots, WrittenSlots(CONSENT));
    } else {
      match ExtractConsent(message, oracle)
      case Some(b) => WriteUntouched(slots, "consent", JBool(b), WrittenSlots(CONSENT));
      case None => KeepUntouched(slots, WrittenSlots(CONSENT));
    }
    assert Untouched(slots, afterSlots, WrittenSlots(CONSENT));
    assert after == CONSENT || after == CUSTOMER_ID || after == GREETING;
  }

  /** The customer-ID worker's turn follows the table and writes only the
      customer_id slot. */
  lemma CustomerIdFollowed(message: string, oracle: Oracle, validId: string -> bool, slots: map<string, Json>,
                           after: ConversationState, afterSlots: map<string, Json>, r: TurnReply)
    requires CustomerIdFlow.Outcome(message, oracle, validId, CUSTOMER_ID, slots, after, afterSlots, r)
    ensures Followed(CUSTOMER_ID, slots, after, afterSlots, r)
  {
    hide CustomerIdFlow.ReplyText, ExtractCustomerId, OracleCustomerId, RuleCustomerId, GetNextState, Advance,
      Untouched, ExtractSlot, SlotShaped, ParseFailure;
    WorkerMoves();
    var id := ExtractCustomerId(message, oracle).GetOr("");
    if id != "" && validId(id) {
      WriteUntouched(slots, "customer_id", JString(id), WrittenSlots(CUSTOMER_ID));
    } else {
      KeepUntouched(slots, WrittenSlots(CUSTOMER_ID));
    }
  }

  /** The amount worker's turn follows the table and writes only the
      loan_amount slot. */
  lemma AmountFollowed(message: string, bounds: LoanBounds, oracle: Oracle, slots: map<string, Json>,
                       after: ConversationState, afterSlots: map<string, Json>, r: TurnReply)
    requires AmountFlow.Outcome(message, bounds, oracle, AMOUNT, slots, after, afterSlots, r)
    ensures Followed(AMOUNT, slots, after, afterSlots, r)
  {
    hide AmountFlow.ReplyText, AmountFlow.FormatAmount, AmountFlow.Fallback, AmountFlow.ExtractRawAmount,
      ExtractLoanAmount, SlotFiller.RuleAmount, SlotFiller.OracleAmount, GetNextState, Advance, Untouched,
      ExtractSlot, SlotShaped, ParseFailure;
    WorkerMoves();
    var a := ExtractLoanAmount(message, bounds, oracle).GetOr(0.0);
    if a != 0.0 {
      WriteUntouched(slots, "loan_amount", JReal(a), WrittenSlots(AMOUNT));
    } else {
      KeepUntouched(slots, WrittenSlots(AMOUNT));
    }
  }

  /** The outcome of the document handler of `before`, one of the three
      document states. */
  predicate DocumentOutcome(message: string, oracle: Oracle, before: ConversationState, slots: map<string, Json>,
                            after: ConversationState, afterSlots: map<string, Json>, r: TurnReply)
  {
    match before
    case NEED_DOCS => DocumentFlow.NeedDocsOutcome(message, oracle, NEED_DOCS, slots, after, afterSlots, r)
    case DOC_UPLOAD => DocumentFlow.UploadOutcome(message, DOC_UPLOAD, slots, after, afterSlots, r)
    case OCR_CONFIRM => DocumentFlow.ConfirmOutcome(message, oracle, OCR_CONFIRM, slots, after, afterSlots, r)
    case _ => false
  }

  /** The document handlers follow the table and write no slot. */
  lemma DocumentFollowed(message: string, oracle: Oracle, before: ConversationState, slots: map<string, Json>,
                         after: ConversationState, afterSlots: map<string, Json>, r: TurnReply)
    requires DocumentOutcome(message, oracle, before, slots, after, afterSlots, r)
    ensures Followed(before, slots, after, afterSlots, r)
  {
    WorkerMoves();
    hide DocumentFlow.ReplyText, DocumentFlow.Summary, DocumentFlow.Ready, DocumentFlow.Confirmed,
      DocumentFlow.OcrOrEmpty, GetNextState, Untouched;
    KeepUntouched(slots, WrittenSlots(before));
  }

  /** The decision worker's outcome, its exception carried as the dialogue
      manager's. */
  predicate DecisionOutcome(pdf: DecisionFlow.LetterGenerator, slots: map<string, Json>,
                            after: ConversationState, afterSlots: map<string, Json>, r: Result<TurnReply, TurnError>)
  {
    match r
    case Ok(t) => DecisionFlow.Outcome(pdf, DECISION, slots, after, afterSlots, Ok(t))
    case Raised(e) => e.DecisionFailed? && DecisionFlow.Outcome(pdf, DECISION, slots, after, afterSlots, Raised(e.d))
  }

  /** The decision worker moves at most to COMPLETED, writes only the
      decision slots, reports truthfully, and does not move when it raises. */
  lemma DecisionFollowed(pdf: DecisionFlow.LetterGenerator, slots: map<string, Json>,
                         after: ConversationState, afterSlots: map<string, Json>, r: Result<TurnReply, TurnError>)
    requires DecisionOutcome(pdf, slots, after, afterSlots, r)
    ensures after == DECISION || after == COMPLETED
    ensures Untouched(slots, afterSlots, WrittenSlots(DECISION))
    ensures r.Ok? ==> Reported(r.value, DECISION, after)
    ensures r.Raised? ==> after == DECISION
  {
    WorkerMoves();
    hide DecisionFlow.ReplyText, DecisionFlow.Announcement, DecisionFlow.Recorded, DecisionFlow.RequestFor,
      DecisionFlow.Entry, GetNextState, Untouched, Transitions, ValidateTransition;
    var u := SlotIn(slots, "underwriting_result");
    if u.JObject? && Truthy(u) {
      RecordedUntouched(slots, DecisionFlow.Entry(u.fields, "decision"), pdf(DecisionFlow.RequestFor(slots, u)));
    } else {
      KeepUntouched(slots, WrittenSlots(DECISION));
    }
  }

  /** The handler `process_task_action` routes each state to, and what it
      leaves: the greeting, the consent, customer-ID and amount workers, the
      three document handlers, the underwriting worker, the decision worker,
      and the fixed reply of a completed application. */
  predicate Handled(message: string, env: Env, before: ConversationState, slots: map<string, Json>,
                    after: ConversationState, afterSlots: map<string, Json>, r: Result<TurnReply, TurnError>)
  {
    match before
    case GREETING =>
      afterSlots == slots && after == Advance(GREETING, "greeting_completed") &&
      r == Ok(TurnReply(ReplyText(Welcome), true, after, map[]))
    case CONSENT =>
      r.Ok? && ConsentFlow.Outcome(message, env.oracle, CONSENT, slots, after, afterSlots, r.value)
    case CUSTOMER_ID =>
      r.Ok? && CustomerIdFlow.Outcome(message, env.oracle, env.validId, CUSTOMER_ID, slots, after, afterSlots, r.value)
    case AMOUNT =>
      r.Ok? && AmountFlow.Outcome(message, env.bounds, env.oracle, AMOUNT, slots, after, afterSlots, r.value)
    case NEED_DOCS => r.Ok? && DocumentOutcome(message, env.oracle, NEED_DOCS, slots, after, afterSlots, r.value)
    case DOC_UPLOAD => r.Ok? && DocumentOutcome(message, env.oracle, DOC_UPLOAD, slots, after, afterSlots, r.value)
    case OCR_CONFIRM => r.Ok? && DocumentOutcome(message, env.oracle, OCR_CONFIRM, slots, after, afterSlots, r.value)
    case UNDERWRITING =>
      (match env.underwrite(UNDERWRITING, slots)
       case None => r == Raised(UnderwritingFailed) && after == UNDERWRITING && afterSlots == slots
       case Some((state, newSlots, reply)) => r == Ok(reply) && after == state && afterSlots == newSlots)
    case DECISION => DecisionOutcome(env.pdf, slots, after, afterSlots, r)
    case COMPLETED =>
      afterSlots == slots && after == COMPLETED && r == Ok(TurnReply(ReplyText(Done), false, COMPLETED, map[]))
  }

  /** Every handler but the underwriting worker moves the state only along
      the table, changes only its own slots and says truthfully whether the
      state moved; of these only the decision worker can raise, and then the
      state has not moved. */
  lemma HandledFollowed(message: string, env: Env, before: ConversationState, slots: map<string, Json>,
                        after: ConversationState, afterSlots: map<string, Json>, r: Result<TurnReply, TurnError>)
    requires Handled(message, env, before, slots, after, afterSlots, r) && before != UNDERWRITING
    ensures after == before || ValidateTransition(before, after)
    ensures Untouched(slots, afterSlots, WrittenSlots(before))
    ensures r.Ok? ==> Reported(r.value, before, after)
    ensures r.Raised? ==> before == DECISION && after == DECISION
  {
    WorkerMoves();
    hide ConsentFlow.Outcome, CustomerIdFlow.Outcome, AmountFlow.Outcome, DocumentOutcome, DecisionOutcome;
    hide ReplyText, Untouched, GetNextState;
    match before
    case GREETING => KeepUntouched(slots, WrittenSlots(GREETING));
    case CONSENT => ConsentFollowed(message, env.oracle, slots, after, afterSlots, r.value);
    case CUSTOMER_ID => CustomerIdFollowed(message, env.oracle, env.validId, slots, after, afterSlots, r.value);
    case AMOUNT => AmountFollowed(message, env.bounds, env.oracle, slots, after, afterSlots, r.value);
    case NEED_DOCS => DocumentFollowed(message, env.oracle, before, slots, after, afterSlots, r.value);
    case DOC_UPLOAD => DocumentFollowed(message, env.oracle, before, slots, after, afterSlots, r.value);
    case OCR_CONFIRM => DocumentFollowed(message, env.oracle, before, slots, after, afterSlots, r.value);
    case DECISION => DecisionFollowed(env.pdf, slots, after, afterSlots, r);
    case COMPLETED => KeepUntouched(slots, WrittenSlots(COMPLETED));
  }

  /** The consent worker, for the consent state. */
  method ConsentStep(message: string, session: SessionData, env: Env) returns (r: TurnReply)
    requires session.currentState == CONSENT
    modifies session
    ensures ConsentFlow.Outcome(message, env.oracle, CONSENT, old(session.slots), session.currentState, session.slots, r)
    ensures Followed(CONSENT, old(session.slots), session.currentState, session.slots, r)
  {
    hide ConsentFlow.Outcome, Followed;
    ghost var slots := session.slots;
    r := ConsentFlow.Process(message, session, env.oracle);
    ConsentFollowed(message, env.oracle, slots, session.currentState, session.slots, r);
  }

  /** The customer-ID worker, for the customer-ID state. */
  method CustomerIdStep(message: string, session: SessionData, env: Env) returns (r: TurnReply)
    requires session.currentState == CUSTOMER_ID
    modifies session
    ensures CustomerIdFlow.Outcome(message, env.oracle, env.validId, CUSTOMER_ID, old(session.slots),
                                   session.currentState, session.slots, r)
    ensures Followed(CUSTOMER_ID, old(session.slots), session.currentState, session.slots, r)
  {
    hide CustomerIdFlow.Outcome, Followed;
    ghost var slots := session.slots;
    r := CustomerIdFlow.Process(message, session, env.oracle, env.validId);
    CustomerIdFollowed(message, env.oracle, env.validId, slots, session.currentState, session.slots, r);
  }

  /** The amount worker, for the amount state. */
  method AmountStep(message: string, session: SessionData, env: Env) returns (r: TurnReply)
    requires session.currentState == AMOUNT
    modifies session
    ensures AmountFlow.Outcome(message, env.bounds, env.oracle, AMOUNT, old(session.slots),
                               session.currentState, session.slots, r)
    ensures Followed(AMOUNT, old(session.slots), session.currentState, session.slots, r)
  {
    hide AmountFlow.Outcome, Followed;
    ghost var slots := session.slots;
    r := AmountFlow.Process(message, session, env.bounds, env.oracle);
    AmountFollowed(message, env.bounds, env.oracle, slots, session.currentState, session.slots, r);
  }

  /** The document handler of each of the three document states. */
  method DocumentStep(message: string, session: SessionData, env: Env) returns (r: TurnReply)
    requires session.currentState in {NEED_DOCS, DOC_UPLOAD, OCR_CONFIRM}
    modifies session
    ensures DocumentOutcome(message, env.oracle, old(session.currentState), old(session.slots),
                            session.currentState, session.slots, r)
    ensures Followed(old(session.currentState), old(session.slots), session.currentState, session.slots, r)
  {
    hide DocumentFlow.NeedDocsOutcome, DocumentFlow.UploadOutcome, DocumentFlow.ConfirmOutcome, Followed;
    ghost var before, slots := session.currentState, session.slots;
    if session.currentState == NEED_DOCS {
      r := DocumentFlow.ProcessNeedDocs(message, session, env.oracle);
    } else if session.currentState == DOC_UPLOAD {
      r := DocumentFlow.ProcessUpload(message, session);
    } else {
      r := DocumentFlow.ProcessConfirm(message, session, env.oracle);
    }
    DocumentFollowed(message, env.oracle, before, slots, session.currentState, session.slots, r);
  }

  /** The workers of the collection steps, from the greeting to the upload
      confirmation, each state routed to its own handler. */
  method CollectStep(message: string, session: SessionData, env: Env) returns (r: TurnReply)
    requires Rank(session.currentState) < Rank(UNDERWRITING)
    modifies session
    ensures Handled(message, env, old(session.currentState), old(session.slots), session.currentState, session.slots, Ok(r))
    ensures Followed(old(session.currentState), old(session.slots), session.currentState, session.slots, r)
    ensures old(session.currentState) == GREETING ==>
              session.currentState == CONSENT && r == TurnReply(ReplyText(Welcome), true, CONSENT, map[])
  {
    WorkerMoves();
    hide ReplyText, GetNextState, Untouched;
    hide ConsentFlow.Outcome, CustomerIdFlow.Outcome, AmountFlow.Outcome, DocumentOutcome;
    if session.currentState == GREETING {
      KeepUntouched(session.slots, WrittenSlots(GREETING));
    }
    match session.currentState
    case GREETING =>
      r := HandleGreeting(session);
    case CONSENT =>
      r := ConsentStep(message, session, env);
    case CUSTOMER_ID =>
      r := CustomerIdStep(message, session, env);
    case AMOUNT =>
      r := AmountStep(message, session, env);
    case NEED_DOCS =>
      r := DocumentStep(message, session, env);
    case DOC_UPLOAD =>
      r := DocumentStep(message, session, env);
    case OCR_CONFIRM =>
      r := DocumentStep(message, session, env);
  }

  /** The decision worker's slot writes stay within its own slots. */
  lemma RecordedUntouched(slots: map<string, Json>, decision: Json, path: Option<string>)
    ensures Untouched(slots, DecisionFlow.Recorded(slots, decision, path), WrittenSlots(DECISION))
  {
  }

  /** The decision worker, its exception carried as the dialogue manager's. */
  method DecisionStep(message: string, session: SessionData, env: Env) returns (r: Result<TurnReply, TurnError>)
    requires session.currentState == DECISION
    modifies session
    ensures DecisionOutcome(env.pdf, old(session.slots), session.currentState, session.slots, r)
    ensures session.currentState == DECISION || session.currentState == COMPLETED
    ensures Untouched(old(session.slots), session.slots, WrittenSlots(DECISION))
    ensures r.Ok? ==> Reported(r.value, DECISION, session.currentState)
    ensures r.Raised? ==> session.currentState == DECISION
  {
    hide DecisionFlow.Outcome, Untouched, Reported;
    ghost var slots := session.slots;
    var d := DecisionFlow.Process(message, session, env.pdf);
    r := if d.Ok? then Ok(d.value) else Raised(DecisionFailed(d.error));
    DecisionFollowed(env.pdf, slots, session.currentState, session.slots, r);
  }

  /** The closing steps after underwriting: the decision, and the completed
      application, which changes nothing. */
  method CloseStep(message: string, session: SessionData, env: Env) returns (r: Result<TurnReply, TurnError>)
    requires session.currentState == DECISION || session.currentState == COMPLETED
    modifies session
    ensures Handled(message, env, old(session.currentState), old(session.slots), session.currentState, session.slots, r)
    ensures session.currentState == old(session.currentState) ||
            ValidateTransition(old(session.currentState), session.currentState)
    ensures Untouched(old(session.slots), session.slots, WrittenSlots(old(session.currentState)))
    ensures r.Ok? ==> Reported(r.value, old(session.currentState), session.currentState)
    ensures r.Raised? ==> old(session.currentState) == DECISION && session.currentState == DECISION
    ensures old(session.currentState) == COMPLETED ==>
              session.slots == old(session.slots) && session.currentState == COMPLETED &&
              r == Ok(TurnReply(ReplyText(Done), false, COMPLETED, map[]))
  {
    hide ReplyText, DecisionOutcome, Untouched, Reported;
    ghost var before, slots := session.currentState, session.slots;
    if session.currentState == DECISION {
      r := DecisionStep(message, session, env);
    } else {
      r := Ok(TurnReply(ReplyText(Done), false, COMPLETED, map[]));
    }
    HandledFollowed(message, env, before, slots, session.currentState, session.slots, r);
  }

  /** `process_task_action`. A correction in a state that can be rewound
      leaves the state and slots to `rewind_state`. Otherwise the worker of
      the current state runs. Underwriting leaves what its worker leaves.
      Every other worker moves the state only along the table, changes only
      its own slots, and says truthfully whether the state moved; of these
      only the decision worker can raise, and then the state has not
      moved. */
  method ProcessTaskAction(message: string, session: SessionData, env: Env) returns (r: Result<TurnReply, TurnError>)
    modifies session
    ensures Rewinds(message, old(session.currentState)) ==>
              (session.currentState, session.slots) == env.rewind(old(session.currentState), old(session.slots)) &&
              r == Ok(TurnReply(ReplyText(Rewound), true, session.currentState, map[]))
    ensures !Rewinds(message, old(session.currentState)) ==>
              Handled(message, env, old(session.currentState), old(session.slots), session.currentState, session.slots, r)
    ensures old(session.currentState) == UNDERWRITING ==>
              match env.underwrite(UNDERWRITING, old(session.slots))
              case None =>
                r == Raised(UnderwritingFailed) &&
                session.currentState == UNDERWRITING && session.slots == old(session.slots)
              case Some((state, slots, reply)) =>
                r == Ok(reply) && session.currentState == state && session.slots == slots
    ensures !Rewinds(message, old(session.currentState)) && old(session.currentState) != UNDERWRITING ==>
              (session.currentState == old(session.currentState) ||
               ValidateTransition(old(session.currentState), session.currentState)) &&
              Untouched(old(session.slots), session.slots, WrittenSlots(old(session.currentState)))
    ensures !Rewinds(message, old(session.currentState)) && old(session.currentState) != UNDERWRITING && r.Ok? ==>
              Reported(r.value, old(session.currentState), session.currentState)
    ensures r.Raised? && old(session.currentState) != UNDERWRITING ==>
              old(session.currentState) == DECISION && session.currentState == DECISION
    ensures old(session.currentState) == GREETING && !Rewinds(message, GREETING) ==>
              session.currentState == CONSENT && r == Ok(TurnReply(ReplyText(Welcome), true, CONSENT, map[]))
    ensures old(session.currentState) == COMPLETED ==>
              session.slots == old(session.slots) && session.currentState == COMPLETED &&
              r == Ok(TurnReply(ReplyText(Done), false, COMPLETED, map[]))
  {
    hide ReplyText, Untouched, ConsentFlow.Outcome, CustomerIdFlow.Outcome, AmountFlow.Outcome, DocumentOutcome,
      DecisionOutcome;
    if Rewinds(message, session.currentState) {
      var (state, slots) := env.rewind(session.currentState, session.slots);
      session.RewindState(state, slots);
      return Ok(TurnReply(ReplyText(Rewound), true, session.currentState, map[]));
    }
    if session.currentState == UNDERWRITING {
      var outcome := env.underwrite(UNDERWRITING, session.slots);
      if outcome.None? {
        return Raised(UnderwritingFailed);
      }
      var (state, slots, reply) := outcome.value;
      session.currentState := state;
      session.slots := slots;
      return Ok(reply);
    }
    ghost var before, slots := session.currentState, session.slots;
    if Rank(session.currentState) < Rank(UNDERWRITING) {
      var t := CollectStep(message, session, env);
      r := Ok(t);
    } else {
      r := CloseStep(message, session, env);
    }
    HandledFollowed(message, env, before, slots, session.currentState, session.slots, r);
  }

  /** In the consent step, any message containing "no" is taken for a
      correction and rewinds before the consent worker sees it: the worker's
      keyword refusal on "no", "nope" or "do not" is never reached from
      here. */
  lemma ConsentNoRewinds(message: string)
    requires Contains(Lower(message), "no")
    ensures Rewinds(message, CONSENT)
  {
    NoIsCorrection(message);
  }

  /** A message saying "not correct" in the confirmation step rewinds,
      instead of confirming the extracted data as the document worker alone
      would. */
  lemma NegatedConfirmationRewinds(message: string)
    requires Contains(Lower(message), "not correct")
    ensures Rewinds(message, OCR_CONFIRM)
  {
    hide DetectCorrection, Lower;
    var m := Lower(message);
    var i: nat :| i <= |m| && OccursAt(m, "not correct", i);
    assert m[i..i + 2] == "not correct"[..2] == "no";
    assert OccursAt(m, "no", i);
    NoIsCorrection(message);
  }
}
