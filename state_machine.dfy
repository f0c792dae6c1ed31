/** The transition table of the `ConversationState` flow: which state follows
    which named action, which states a correction may leave, and which moves
    the table allows. */
module StateMachine {
  import opened Outcomes

  /** The ten states of the document-based application flow. */
  datatype ConversationState =
    | GREETING
    | CONSENT
    | CUSTOMER_ID
    | AMOUNT
    | NEED_DOCS
    | DOC_UPLOAD
    | OCR_CONFIRM
    | UNDERWRITING
    | DECISION
    | COMPLETED

  /** `ConversationState(...).value`: the name the workers report as
      `new_state`. */
  function StateName(s: ConversationState): string
  {
    match s
    case GREETING => "GREETING"
    case CONSENT => "CONSENT"
    case CUSTOMER_ID => "CUSTOMER_ID"
    case AMOUNT => "AMOUNT"
    case NEED_DOCS => "NEED_DOCS"
    case DOC_UPLOAD => "DOC_UPLOAD"
    case OCR_CONFIRM => "OCR_CONFIRM"
    case UNDERWRITING => "UNDERWRITING"
    case DECISION => "DECISION"
    case COMPLETED => "COMPLETED"
  }

  /** The position of a state along the happy path. */
  function Rank(s: ConversationState): (r: nat)
    ensures r <= 9
  {
    match s
    case GREETING => 0
    case CONSENT => 1
    case CUSTOMER_ID => 2
    case AMOUNT => 3
    case NEED_DOCS => 4
    case DOC_UPLOAD => 5
    case OCR_CONFIRM => 6
    case UNDERWRITING => 7
    case DECISION => 8
    case COMPLETED => 9
  }

  /** `self.transitions[s]`: the states allowed to follow `s`. */
  function Transitions(s: ConversationState): (r: seq<ConversationState>)
    ensures r == [] <==> s == COMPLETED
    ensures |r| <= 2
    ensures s in r <==> s == DOC_UPLOAD
  {
    match s
    case GREETING => [CONSENT]
    case CONSENT => [CUSTOMER_ID, GREETING]
    case CUSTOMER_ID => [AMOUNT, CONSENT]
    case AMOUNT => [NEED_DOCS, CUSTOMER_ID]
    case NEED_DOCS => [DOC_UPLOAD, AMOUNT]
    case DOC_UPLOAD => [OCR_CONFIRM, DOC_UPLOAD]
    case OCR_CONFIRM => [UNDERWRITING, DOC_UPLOAD]
    case UNDERWRITING => [DECISION]
    case DECISION => [COMPLETED]
    case COMPLETED => []
  }

  /** `validate_transition`: `to` is listed among the successors of `from`. */
  predicate ValidateTransition(from: ConversationState, to: ConversationState): (r: bool)
    ensures from == COMPLETED ==> !r
    ensures r && from == to ==> from == DOC_UPLOAD
    ensures r && to == GREETING ==> from == CONSENT
  {
    to in Transitions(from)
  }

  /** `get_next_state`: the state an action leads to, or None when the action
      is not one the current state knows. Whatever it returns is allowed by
      the table, and the final state has no way out. */
  function GetNextState(s: ConversationState, action: string): (r: Option<ConversationState>)
    ensures r.Some? ==> ValidateTransition(s, r.value)
    ensures s == COMPLETED ==> r.None?
  {
    match s
    case GREETING =>
      if action == "greeting_completed" then Some(CONSENT) else None
    case CONSENT =>
      if action == "consent_given" then Some(CUSTOMER_ID)
      else if action == "consent_denied" then Some(GREETING)
      else None
    case CUSTOMER_ID =>
      if action == "customer_id_provided" then Some(AMOUNT)
      else if action == "correction" then Some(CONSENT)
      else None
    case AMOUNT =>
      if action == "amount_provided" then Some(NEED_DOCS)
      else if action == "correction" then Some(CUSTOMER_ID)
      else None
    case NEED_DOCS =>
      if action == "docs_acknowledged" then Some(DOC_UPLOAD)
      else if action == "correction" then Some(AMOUNT)
      else None
    case DOC_UPLOAD =>
      if action == "docs_uploaded" then Some(OCR_CONFIRM)
      else if action == "retry_upload" then Some(DOC_UPLOAD)
      else None
    case OCR_CONFIRM =>
      if action == "ocr_confirmed" then Some(UNDERWRITING)
      else if action == "ocr_rejected" then Some(DOC_UPLOAD)
      else None
    case UNDERWRITING =>
      if action == "underwriting_completed" then Some(DECISION) else None
    case DECISION =>
      if action == "decision_delivered" then Some(COMPLETED) else None
    case COMPLETED => None
  }

  /** The state after the workers' idiom `next = get_next_state(s, a)` and
      `if next: transition_state(next)`: the table's target, or `s` when the
      action is unknown there. */
  function Advance(s: ConversationState, action: string): (r: ConversationState)
    ensures r == s || ValidateTransition(s, r)
    ensures GetNextState(s, action).None? ==> r == s
  {
    match GetNextState(s, action)
    case Some(t) => t
    case None => s
  }

  /** The action each worker reports leads one step along the happy path,
      except the two refusals: a denied consent goes back to the greeting and
      rejected OCR data back to the upload. */
  lemma WorkerMoves()
    ensures Advance(GREETING, "greeting_completed") == CONSENT
    ensures Advance(CONSENT, "consent_given") == CUSTOMER_ID
    ensures Advance(CONSENT, "consent_denied") == GREETING
    ensures Advance(CUSTOMER_ID, "customer_id_provided") == AMOUNT
    ensures Advance(AMOUNT, "amount_provided") == NEED_DOCS
    ensures Advance(NEED_DOCS, "docs_acknowledged") == DOC_UPLOAD
    ensures Advance(DOC_UPLOAD, "docs_uploaded") == OCR_CONFIRM
    ensures Advance(OCR_CONFIRM, "ocr_confirmed") == UNDERWRITING
    ensures Advance(OCR_CONFIRM, "ocr_rejected") == DOC_UPLOAD
    ensures Advance(UNDERWRITING, "underwriting_completed") == DECISION
    ensures Advance(DECISION, "decision_delivered") == COMPLETED
  {
  }

  /** `can_rewind`: a correction may move the conversation back only before
      underwriting has started. */
  predicate CanRewind(s: ConversationState)
    ensures CanRewind(s) <==> Rank(s) < Rank(UNDERWRITING)
  {
    s !in {UNDERWRITING, DECISION, COMPLETED}
  }

  /** Every move the table allows is produced by some action, so the table
      and `get_next_state` describe the same graph. */
  lemma TableMatchesActions(s: ConversationState, t: ConversationState)
    ensures ValidateTransition(s, t) <==> exists a :: GetNextState(s, a) == Some(t)
  {
    hide GetNextState, ActionFor;
    if ValidateTransition(s, t) {
      ActionForLeads(s, t);
    }
  }

  /** The action behind each move of the table. */
  function ActionFor(s: ConversationState, t: ConversationState): string
  {
    match (s, t)
    case (GREETING, _) => "greeting_completed"
    case (CONSENT, CUSTOMER_ID) => "consent_given"
    case (CONSENT, _) => "consent_denied"
    case (CUSTOMER_ID, AMOUNT) => "customer_id_provided"
    case (AMOUNT, NEED_DOCS) => "amount_provided"
    case (NEED_DOCS, DOC_UPLOAD) => "docs_acknowledged"
    case (DOC_UPLOAD, OCR_CONFIRM) => "docs_uploaded"
    case (DOC_UPLOAD, _) => "retry_upload"
    case (OCR_CONFIRM, UNDERWRITING) => "ocr_confirmed"
    case (OCR_CONFIRM, _) => "ocr_rejected"
    case (UNDERWRITING, _) => "underwriting_completed"
    case (DECISION, _) => "decision_delivered"
    case _ => "correction"
  }

  lemma ActionForLeads(s: ConversationState, t: ConversationState)
    requires ValidateTransition(s, t)
    ensures GetNextState(s, ActionFor(s, t)) == Some(t)
  {
  }

  /** The listed pairs, for instance a refused consent going back to the
      greeting and rejected OCR data going back to the upload. */
  lemma ListedPairs()
    ensures GetNextState(CONSENT, "consent_denied") == Some(GREETING)
    ensures GetNextState(OCR_CONFIRM, "ocr_rejected") == Some(DOC_UPLOAD)
    ensures GetNextState(DECISION, "decision_delivered") == Some(COMPLETED)
    ensures GetNextState(GREETING, "consent_given") == None
    ensures GetNextState(UNDERWRITING, "correction") == None
  {
  }

  /** No move skips a state: each one goes at most one step forward, and a
      move backwards starts only in a state that can be rewound. */
  lemma MovesAreLocal(s: ConversationState, t: ConversationState)
    requires ValidateTransition(s, t)
    ensures Rank(t) <= Rank(s) + 1
    ensures Rank(t) < Rank(s) ==> CanRewind(s)
  {
  }

  /** Retrying the upload is the only move that stays put. */
  lemma OnlySelfLoop(s: ConversationState, a: string)
    ensures ValidateTransition(s, s) <==> s == DOC_UPLOAD
    ensures GetNextState(s, a) == Some(s) <==> s == DOC_UPLOAD && a == "retry_upload"
  {
  }

  /** A "correction" action goes exactly one step back, and exists only for
      the three data-collection states. */
  lemma CorrectionStepsBack(s: ConversationState)
    ensures GetNextState(s, "correction").Some? <==> s in {CUSTOMER_ID, AMOUNT, NEED_DOCS}
    ensures GetNextState(s, "correction").Some? ==>
              Rank(GetNextState(s, "correction").value) + 1 == Rank(s) && CanRewind(s)
  {
  }
}
