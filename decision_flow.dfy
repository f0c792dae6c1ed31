/** `DecisionWorker` of the `ConversationState` flow: announces the
    underwriting decision, records it, and has a decision letter generated.
    The letter generator is a parameter: its code is not part of this
    model. */
module DecisionFlow {
  import opened Outcomes
  import opened Text
  import opened Json
  import opened AmountPatterns
  import opened NumberFormat
  import opened StateMachine
  import opened ConversationSession

  datatype Letter = Approval | Rejection

  /** What the letter generator is given: the kind of letter, the session's
      customer ID, loan amount and OCR data, and the underwriting result. */
  datatype LetterRequest = LetterRequest(
    letter: Letter, customerId: Json, loanAmount: Json, ocrData: Json, result: Json)

  /** The generator: the path of the letter written, or None when it
      raised. */
  type LetterGenerator = LetterRequest -> Option<string>

  /** The exceptions `process` lets escape: a truthy underwriting result that
      is not a dictionary has no `get`, and an approved amount that is not a
      number cannot be formatted with `,.0f`. */
  datatype DecisionError = NotADictionary | UnformattableAmount

  datatype Reply =
    | Missing
    | Approved(amount: string, rate: string, reason: string, path: string)
    | Declined(reason: string, path: string)
    | Review(reason: string, path: string)

  /** The announcement up to the line pointing to the letter. */
  function Head(k: Reply): string
  {
    match k
    case Missing => "There was an issue retrieving your decision. Please contact support."
    case Approved(amount, rate, reason, _) =>
      "\U{1F389} Congratulations! Your loan application has been APPROVED!\n\n" +
      "**Approved Amount:** \U{20B9}" + amount + "\n" +
      "**Interest Rate:** " + rate + "% per annum\n" +
      "**Reason:** " + reason + "\n\n"
    case Declined(reason, _) =>
      "Unfortunately, we're unable to approve your loan application at this time.\n\n" +
      "**Reason:** " + reason + "\n\n"
    case Review(reason, _) =>
      "Your application is currently under manual review.\n\n" +
      "**Reason:** " + reason + "\n\n"
  }

  /** The words that introduce the letter's path. */
  function Lead(k: Reply): string
  {
    match k
    case Approved(_, _, _, _) => "\U{1F4C4} Your official approval letter has been generated and saved at:\n"
    case Declined(_, _) => "\U{1F4C4} A detailed decision letter has been generated at:\n"
    case _ => "\U{1F4C4} Status document saved at:\n"
  }

  /** The line pointing to the letter, present only for a non-empty path. */
  function PathLine(lead: string, path: string): string
  {
    if path != "" then lead + ("`" + path + "`") + "\n\n" else ""
  }

  /** The closing sentence. */
  function Tail(k: Reply): string
  {
    match k
    case Approved(_, _, _, _) =>
      "You'll receive further instructions via email and SMS. Thank you for choosing TIA Personal Loans!"
    case Declined(_, _) =>
      "You may reapply after addressing the concerns mentioned. If you have questions, please contact our " +
      "support team."
    case _ => "We'll get back to you within 2-3 business days. Thank you for your patience."
  }

  function ReplyText(k: Reply): string
  {
    if k.Missing? then Head(k) else Head(k) + PathLine(Lead(k), k.path) + Tail(k)
  }

  /** `result.get(key)`, None reading as `JNull`. */
  function Entry(fields: map<string, Json>, key: string): (r: Json)
    ensures key !in fields ==> r == JNull
    ensures key in fields ==> r == fields[key]
  {
    Get(fields, key).GetOr(JNull)
  }

  /** Only the exact decision "APPROVED" asks for an approval letter. */
  function LetterFor(decision: Json): (l: Letter)
    ensures l == Approval <==> decision == JString("APPROVED")
  {
    if decision == JString("APPROVED") then Approval else Rejection
  }

  /** The request `process` hands to the generator. */
  function RequestFor(slots: map<string, Json>, result: Json): LetterRequest
    requires result.JObject?
  {
    LetterRequest(LetterFor(Entry(result.fields, "decision")), Get(slots, "customer_id").GetOr(JNull),
                  Get(slots, "loan_amount").GetOr(JNull), Get(slots, "ocr_data").GetOr(JNull), result)
  }

  /** The slots after `process` has stored the decision and, when the
      generator returned, the letter's path. */
  function Recorded(slots: map<string, Json>, decision: Json, path: Option<string>): (r: map<string, Json>)
    ensures r.Keys == slots.Keys + {"decision"} + (if path.Some? then {"decision_document"} else {})
    ensures r["decision"] == decision
    ensures forall k :: k in slots && k != "decision" && k != "decision_document" ==> r[k] == slots[k]
  {
    var s := slots["decision" := decision];
    match path
    case Some(p) => s["decision_document" := JString(p)]
    case None => s
  }

  /** The announcement for a dictionary result and the letter's path (empty
      when there is none): which of the three texts, with the reason and
      rate as `PyStr` shows them and the amount as `,.0f` does. */
  function Announcement(fields: map<string, Json>, path: string): (r: Result<Reply, DecisionError>)
    ensures r.Raised? <==> Entry(fields, "decision") == JString("APPROVED") &&
                           !IsNumber(Entry(fields, "approved_amount"))
    ensures r.Ok? && r.value.Approved? <==> r.Ok? && Entry(fields, "decision") == JString("APPROVED")
    ensures r.Ok? && r.value.Declined? <==> Entry(fields, "decision") == JString("REJECTED")
  {
    var decision := Entry(fields, "decision");
    var reason := PyStr(Get(fields, "reason").GetOr(JString("")));
    if decision == JString("APPROVED") then
      var amount := Entry(fields, "approved_amount");
      if IsNumber(amount) then
        Ok(Approved(FormatSigned(AsReal(amount), 0), PyStr(Entry(fields, "interest_rate")), reason, path))
      else Raised(UnformattableAmount)
    else if decision == JString("REJECTED") then Ok(Declined(reason, path))
    else Ok(Review(reason, path))
  }

  /** What `DecisionWorker.process` leaves. Without an underwriting result
      nothing changes. With one, the decision and the letter's path are
      stored first; then the announcement is made and the conversation moves
      on, unless the approved amount cannot be formatted, in which case the
      stored slots stay and the state does not move. */
  predicate Outcome(pdf: LetterGenerator, before: ConversationState, slots: map<string, Json>,
                    after: ConversationState, afterSlots: map<string, Json>, r: Result<TurnReply, DecisionError>)
  {
    var u := SlotIn(slots, "underwriting_result");
    (!Truthy(u) ==>
       afterSlots == slots && after == before && r == Ok(TurnReply(ReplyText(Missing), false, after, map[]))) &&
    (Truthy(u) && !u.JObject? ==>
       afterSlots == slots && after == before && r == Raised(NotADictionary)) &&
    (u.JObject? && Truthy(u) ==>
       var decision := Entry(u.fields, "decision");
       var path := pdf(RequestFor(slots, u));
       afterSlots == Recorded(slots, decision, path) &&
       match Announcement(u.fields, path.GetOr(""))
       case Raised(e) => r == Raised(e) && after == before
       case Ok(k) =>
         after == Advance(before, "decision_delivered") &&
         r == Ok(TurnReply(ReplyText(k), true, after,
                           map["decision" := decision,
                               "decision_document" := if path.Some? then JString(path.GetOr("")) else JNull])))
  }

  /** `DecisionWorker.process`, on the session in place. */
  method Process(message: string, session: SessionData, pdf: LetterGenerator)
    returns (r: Result<TurnReply, DecisionError>)
    modifies session
    ensures Outcome(pdf, old(session.currentState), old(session.slots), session.currentState, session.slots, r)
  {
    hide ReplyText, Announcement;
    var result := session.GetSlot("underwriting_result");
    if !Truthy(result) {
      return Ok(TurnReply(ReplyText(Missing), false, session.currentState, map[]));
    }
    if !result.JObject? {
      return Raised(NotADictionary);
    }
    ghost var before := session.slots;
    var decision := Entry(result.fields, "decision");
    session.UpdateSlot("decision", decision);
    var request := LetterRequest(LetterFor(decision), session.GetSlot("customer_id"),
                                 session.GetSlot("loan_amount"), session.GetSlot("ocr_data"), result);
    assert request == RequestFor(before, result);
    var path := pdf(request);
    if path.Some? {
      session.UpdateSlot("decision_document", JString(path.value));
    }
    assert session.slots == Recorded(before, decision, path);
    var announcement := Announcement(result.fields, path.GetOr(""));
    if announcement.Raised? {
      return Raised(announcement.error);
    }
    var next := GetNextState(session.currentState, "decision_delivered");
    if next.Some? {
      session.TransitionState(next.value);
    }
    var document := if path.Some? then JString(path.value) else JNull;
    r := Ok(TurnReply(ReplyText(announcement.value), true, session.currentState,
                      map["decision" := decision, "decision_document" := document]));
  }

  /** Every decision other than the exact "APPROVED", a manual review
      included, asks the generator for a rejection letter. */
  lemma ReviewGetsRejectionLetter(slots: map<string, Json>, fields: map<string, Json>)
    requires Entry(fields, "decision") != JString("APPROVED")
    ensures RequestFor(slots, JObject(fields)).letter == Rejection
  {
  }

  /** A letter that was generated is pointed to in every announcement, in
      backquotes. */
  lemma AnnouncementShowsPath(k: Reply)
    requires !k.Missing? && k.path != ""
    ensures Contains(ReplyText(k), "`" + k.path + "`")
  {
    hide Head, Lead, Tail;
    ContainsMiddle(Lead(k), "`" + k.path + "`", "\n\n");
    ContainsPrepend(Head(k), PathLine(Lead(k), k.path), "`" + k.path + "`");
    ContainsAppend(Head(k) + PathLine(Lead(k), k.path), Tail(k), "`" + k.path + "`");
  }

  /** An approved whole amount is shown with its digits grouped so that the
      amount patterns read it back unchanged. */
  lemma ApprovedAmountReadsBack(fields: map<string, Json>, path: string, n: nat)
    requires Entry(fields, "decision") == JString("APPROVED")
    requires Entry(fields, "approved_amount") == JInt(n)
    ensures match Announcement(fields, path)
            case Ok(Approved(shown, _, _, _)) => GroupValue(shown) == Some(n as real)
            case _ => false
  {
    assert FormatSigned(AsReal(JInt(n)), 0) == FormatFixed(n as real, 0);
    WholeReadsBack(n);
  }

  /** An approval states its rate, followed by "% per annum". */
  lemma ApprovedRateStated(k: Reply)
    requires k.Approved?
    ensures Contains(ReplyText(k), "**Interest Rate:** " + k.rate + "% per annum")
  {
    var a := "\U{1F389} Congratulations! Your loan application has been APPROVED!\n\n" +
             "**Approved Amount:** \U{20B9}" + k.amount + "\n";
    var m := "**Interest Rate:** " + k.rate + "% per annum";
    var b := "\n" + "**Reason:** " + k.reason + "\n\n";
    hide PathLine, Lead, Tail, Contains;
    assert Head(k) == a + m + b;
    ContainsMiddle(a, m, b);
    hide Head;
    ContainsAppend(Head(k), PathLine(Lead(k), k.path), m);
    ContainsAppend(Head(k) + PathLine(Lead(k), k.path), Tail(k), m);
  }

  /** A rate Python shows in positional notation is shown as digits that
      read back as the rate itself. */
  lemma ApprovedRateReadsBack(fields: map<string, Json>, path: string, x: real)
    requires Entry(fields, "decision") == JString("APPROVED")
    requires IsNumber(Entry(fields, "approved_amount"))
    requires Entry(fields, "interest_rate") == JReal(x)
    requires x >= 0.0 && ReprPlaces(x).Some?
    ensures match Announcement(fields, path)
            case Ok(Approved(_, rate, _, _)) => ParseDecimal(rate) == Some(x)
            case _ => false
  {
    FloatReprReadsBack(x);
  }

  /** A rate given as a float is announced as `repr` shows it, followed by
      "% per annum". */
  lemma RateAnnounced(fields: map<string, Json>, path: string, x: real)
    requires Entry(fields, "decision") == JString("APPROVED")
    requires IsNumber(Entry(fields, "approved_amount"))
    requires Entry(fields, "interest_rate") == JReal(x)
    ensures Announcement(fields, path).Ok?
    ensures Contains(ReplyText(Announcement(fields, path).value),
                     "**Interest Rate:** " + FloatRepr(x) + "% per annum")
  {
    var r := Announcement(fields, path);
    assert r.Ok? && r.value.Approved? && r.value.rate == FloatRepr(x);
    hide Announcement, FloatRepr, ReplyText, Contains;
    ApprovedRateStated(r.value);
  }

  /** A 10.5% rate is announced as "10.5% per annum". */
  lemma FractionalRateAnnounced(fields: map<string, Json>, path: string)
    requires Entry(fields, "decision") == JString("APPROVED")
    requires IsNumber(Entry(fields, "approved_amount"))
    requires Entry(fields, "interest_rate") == JReal(10.5)
    ensures Announcement(fields, path).Ok?
    ensures Contains(ReplyText(Announcement(fields, path).value), "**Interest Rate:** 10.5% per annum")
  {
    hide Announcement, FloatRepr, ReplyText, Contains, Entry, IsNumber;
    assert "**Interest Rate:** " + "10.5" + "% per annum" == "**Interest Rate:** 10.5% per annum";
    RateAnnounced(fields, path, 10.5);
    FractionalRateShown();
  }
}
