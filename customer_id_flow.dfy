/** `CustomerIdWorker` of the `ConversationState` flow: extracts a customer
    ID, has the customer service check it, and stores it when it passes. The
    customer service's check is a parameter: its code is not part of this
    model. */
module CustomerIdFlow {
  import opened Outcomes
  import opened Text
  import opened Json
  import opened LlmClient
  import opened SlotFiller
  import opened StateMachine
  import opened ConversationSession

  datatype Reply = Verified(id: string) | Unverified(id: string) | NotFound

  function ReplyText(k: Reply): string
  {
    match k
    case Verified(id) =>
      "Great! I've verified your Customer ID " + ("(" + id + ")") + ". Now, how much loan amount are you looking for?"
    case Unverified(id) =>
      "I couldn't verify the Customer ID " + ("'" + id + "'") + ". Please check and provide the correct ID."
    case NotFound =>
      "I couldn't find a valid Customer ID in your message. Please provide your Customer ID in the format " +
      "'CUST' followed by digits (e.g., CUST123456)."
  }

  /** What `CustomerIdWorker.process` leaves: a non-empty ID that the
      customer service accepts is stored and moves the conversation on; an
      ID it refuses is quoted back and nothing changes; no ID changes
      nothing either. */
  predicate Outcome(message: string, oracle: Oracle, validId: string -> bool, before: ConversationState,
                    slots: map<string, Json>, after: ConversationState, afterSlots: map<string, Json>, r: TurnReply)
  {
    var id := ExtractCustomerId(message, oracle).GetOr("");
    r.newState == after &&
    (id != "" && validId(id) ==>
       afterSlots == slots["customer_id" := JString(id)] && after == Advance(before, "customer_id_provided") &&
       r == TurnReply(ReplyText(Verified(id)), true, after, map["customer_id" := JString(id)])) &&
    (!(id != "" && validId(id)) ==>
       afterSlots == slots && after == before &&
       r == TurnReply(ReplyText(if id != "" then Unverified(id) else NotFound), false, after, map[]))
  }

  /** `CustomerIdWorker.process`, on the session in place. */
  method Process(message: string, session: SessionData, oracle: Oracle, validId: string -> bool)
    returns (r: TurnReply)
    modifies session
    ensures Outcome(message, oracle, validId, old(session.currentState), old(session.slots),
                    session.currentState, session.slots, r)
  {
    hide ReplyText;
    var id := ExtractCustomerId(message, oracle).GetOr("");
    if id != "" {
      if validId(id) {
        session.UpdateSlot("customer_id", JString(id));
        var next := GetNextState(session.currentState, "customer_id_provided");
        if next.Some? {
          session.TransitionState(next.value);
        }
        r := TurnReply(ReplyText(Verified(id)), true, session.currentState, map["customer_id" := JString(id)]);
      } else {
        r := TurnReply(ReplyText(Unverified(id)), false, session.currentState, map[]);
      }
    } else {
      r := TurnReply(ReplyText(NotFound), false, session.currentState, map[]);
    }
  }

  /** A refused ID is quoted back to the customer, and an accepted one is
      repeated in the confirmation. */
  lemma RepliesQuoteTheId(id: string)
    ensures Contains(ReplyText(Unverified(id)), "'" + id + "'")
    ensures Contains(ReplyText(Verified(id)), "(" + id + ")")
  {
    var pre := "I couldn't verify the Customer ID ";
    assert OccursAt(ReplyText(Unverified(id)), "'" + id + "'", |pre|);
    var pre2 := "Great! I've verified your Customer ID ";
    assert OccursAt(ReplyText(Verified(id)), "(" + id + ")", |pre2|);
  }
}
