/** `ConsentWorker` of the `ConversationState` flow: records the customer's
    answer to the consent question and moves the conversation on. */
module ConsentFlow {
  import opened Outcomes
  import opened Json
  import opened LlmClient
  import opened SlotFiller
  import opened StateMachine
  import opened ConversationSession

  datatype Reply = AlreadyGiven | Thanks | Refused | AskAgain

  function ReplyText(k: Reply): string
  {
    match k
    case AlreadyGiven => "I see you've already provided consent. Let's continue."
    case Thanks =>
      "Thank you for your consent. To proceed, I'll need your Customer ID. Could you please provide it?"
    case Refused =>
      "I understand. Without your consent, I won't be able to proceed with the loan application. " +
      "If you change your mind, feel free to reach out. Have a great day!"
    case AskAgain =>
      "I need your explicit consent to proceed with collecting your information for the loan application. " +
      "Do you agree to share your details? Please respond with 'yes' or 'no'."
  }

  /** What `ConsentWorker.process` leaves, from the state `before` and its
      slots to the state `after` and its slots. A consent slot that is
      already set moves the conversation on without asking; otherwise a
      clear yes is stored and moves on, a clear no is stored and goes back
      to the greeting, and an unclear answer changes nothing. */
  predicate Outcome(message: string, oracle: Oracle, before: ConversationState, slots: map<string, Json>,
                    after: ConversationState, afterSlots: map<string, Json>, r: TurnReply)
  {
    r.newState == after &&
    if SlotIn(slots, "consent") != JNull then
      afterSlots == slots && after == Advance(before, "consent_given") &&
      r == TurnReply(ReplyText(AlreadyGiven), true, after, map[])
    else match ExtractConsent(message, oracle)
      case Some(true) =>
        afterSlots == slots["consent" := JBool(true)] && after == Advance(before, "consent_given") &&
        r == TurnReply(ReplyText(Thanks), true, after, map["consent" := JBool(true)])
      case Some(false) =>
        afterSlots == slots["consent" := JBool(false)] && after == Advance(before, "consent_denied") &&
        r == TurnReply(ReplyText(Refused), true, after, map["consent" := JBool(false)])
      case None =>
        afterSlots == slots && after == before && r == TurnReply(ReplyText(AskAgain), false, after, map[])
  }

  /** `ConsentWorker.process`, on the session in place. */
  method Process(message: string, session: SessionData, oracle: Oracle) returns (r: TurnReply)
    modifies session
    ensures Outcome(message, oracle, old(session.currentState), old(session.slots), session.currentState, session.slots, r)
  {
    hide ReplyText, ExtractConsent, GetNextState, ValidateTransition;
    ghost var before, slots := session.currentState, session.slots;
    if session.GetSlot("consent") != JNull {
      var next := GetNextState(session.currentState, "consent_given");
      if next.Some? {
        session.TransitionState(next.value);
      }
      return TurnReply(ReplyText(AlreadyGiven), true, session.currentState, map[]);
    }
    var consent := ExtractConsent(message, oracle);
    match consent
    case Some(true) =>
      session.UpdateSlot("consent", JBool(true));
      var next := GetNextState(session.currentState, "consent_given");
      if next.Some? {
        session.TransitionState(next.value);
      }
      r := TurnReply(ReplyText(Thanks), true, session.currentState, map["consent" := JBool(true)]);
    case Some(false) =>
      session.UpdateSlot("consent", JBool(false));
      var next := GetNextState(session.currentState, "consent_denied");
      if next.Some? {
        session.TransitionState(next.value);
      }
      r := TurnReply(ReplyText(Refused), true, session.currentState, map["consent" := JBool(false)]);
    case None =>
      r := TurnReply(ReplyText(AskAgain), false, session.currentState, map[]);
      assert SlotIn(slots, "consent") == JNull;
      assert ExtractConsent(message, oracle).None?;
      assert session.slots == slots && session.currentState == before;
      assert Outcome(message, oracle, before, slots, session.currentState, session.slots, r);
  }
}
