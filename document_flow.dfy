/** `DocumentWorker` of the `ConversationState` flow: the acknowledgement
    that documents are needed, the (simulated) upload with its summary of
    the extracted fields, and the customer's confirmation of that data. */
module DocumentFlow {
  import opened Outcomes
  import opened Text
  import opened Json
  import opened LlmClient
  import opened StateMachine
  import opened ConversationSession

  function ReadyWords(): seq<string>
  {
    ["yes", "ready", "sure", "ok", "proceed"]
  }

  function ConfirmWords(): seq<string>
  {
    ["yes", "correct", "right", "accurate"]
  }

  function UploadClaimWords(): seq<string>
  {
    ["uploaded", "sent", "here"]
  }

  /** The model's yes for a boolean slot: confidence above 0.6 and the value
      `True` itself; a request that raises counts as no. */
  predicate OracleYes(oracle: Oracle, message: string, slot: string)
  {
    match ExtractSlot(oracle, message, slot)
    case Raised(_) => false
    case Ok(d) => SlotConfidence(d) > 0.6 && SlotValue(d) == JBool(true)
  }

  /** The customer is ready to upload: a keyword, or else the model. */
  predicate Ready(message: string, oracle: Oracle)
  {
    ContainsAny(Lower(message), ReadyWords()) || OracleYes(oracle, message, "ready_to_upload")
  }

  /** The customer confirms the extracted data: a keyword, or else the
      model. */
  predicate Confirmed(message: string, oracle: Oracle)
  {
    ContainsAny(Lower(message), ConfirmWords()) || OracleYes(oracle, message, "ocr_confirmed")
  }

  datatype Reply =
    | PleaseUpload | NotYet | Received(summary: string) | NothingDetected | UploadPrompt
    | Underwriting | Reupload

  function ReplyText(k: Reply): string
  {
    match k
    case PleaseUpload =>
      "Great! Please upload your documents. You can send them one by one or all together. " +
      "I support JPG, PNG, and PDF formats."
    case NotYet => "No problem. Take your time. Let me know when you're ready to upload your documents."
    case Received(summary) =>
      "I've received your documents. Let me summarize what I extracted." +
      "\n\nI've extracted the following information:\n" + summary + "\nIs this information correct?"
    case NothingDetected =>
      "I didn't detect any uploaded documents yet. Please use the upload panel to send them."
    case UploadPrompt =>
      "Please upload your documents (salary slip, PAN, Aadhaar). Use the upload panel above, " +
      "then tell me when you're done."
    case Underwriting =>
      "Perfect! I'm now processing your loan application through our underwriting system. " +
      "This will take a few seconds..."
    case Reupload =>
      "I understand there's an issue with the extracted data. Please re-upload your documents so I can " +
      "process them again."
  }

  /** What `process_need_docs` leaves: a ready customer moves on to the
      upload; anyone else is told to take their time. Neither touches a
      slot. */
  predicate NeedDocsOutcome(message: string, oracle: Oracle, before: ConversationState, slots: map<string, Json>,
                            after: ConversationState, afterSlots: map<string, Json>, r: TurnReply)
  {
    afterSlots == slots && r.newState == after && r.slotsUpdated == map[] &&
    (Ready(message, oracle) ==>
       after == Advance(before, "docs_acknowledged") && r.stateChanged && r.response == ReplyText(PleaseUpload)) &&
    (!Ready(message, oracle) ==>
       after == before && !r.stateChanged && r.response == ReplyText(NotYet))
  }

  /** `process_need_docs`, on the session in place. */
  method ProcessNeedDocs(message: string, session: SessionData, oracle: Oracle) returns (r: TurnReply)
    modifies session
    ensures NeedDocsOutcome(message, oracle, old(session.currentState), old(session.slots),
                            session.currentState, session.slots, r)
  {
    hide ReplyText;
    var affirmative := ContainsAny(Lower(message), ReadyWords());
    if !affirmative {
      affirmative := OracleYes(oracle, message, "ready_to_upload");
    }
    if affirmative {
      var next := GetNextState(session.currentState, "docs_acknowledged");
      if next.Some? {
        session.TransitionState(next.value);
      }
      r := TurnReply(ReplyText(PleaseUpload), true, session.currentState, map[]);
    } else {
      r := TurnReply(ReplyText(NotYet), false, session.currentState, map[]);
    }
  }

  /** `ocr_data[key].get(field)` when it is truthy; an entry or a document
      that is not a dictionary counts as missing. */
  function Field(ocr: Json, key: string, field: string): (r: Option<Json>)
    ensures r.Some? ==> Truthy(r.GetOr(JNull))
  {
    if ocr.JObject? && key in ocr.fields && ocr.fields[key].JObject? &&
       field in ocr.fields[key].fields && Truthy(ocr.fields[key].fields[field])
    then Some(ocr.fields[key].fields[field])
    else None
  }

  /** One summary line: the label and the field, or nothing. */
  function Line(ocr: Json, key: string, field: string, heading: string): string
  {
    match Field(ocr, key, field)
    case Some(v) => heading + PyStr(v) + "\n"
    case None => ""
  }

  /** The summary lines for salary, PAN and Aadhaar, in that order; the
      salary label keeps the mis-decoded rupee sign of the original text. */
  function Summary(ocr: Json): string
  {
    Line(ocr, "salary_slip", "monthly_salary", "- Monthly Salary: \U{E2}\U{201A}\U{B9}") +
    Line(ocr, "pan_card", "pan_number", "- PAN Number: ") +
    Line(ocr, "aadhaar", "aadhaar_number", "- Aadhaar: ")
  }

  /** The summary is empty exactly when none of the three fields was
      extracted. */
  lemma SummaryEmpty(ocr: Json)
    ensures Summary(ocr) == "" <==>
              Field(ocr, "salary_slip", "monthly_salary").None? &&
              Field(ocr, "pan_card", "pan_number").None? &&
              Field(ocr, "aadhaar", "aadhaar_number").None?
  {
  }

  /** `ocr_data or {}`. */
  function OcrOrEmpty(v: Json): (r: Json)
    ensures Truthy(v) ==> r == v
    ensures !Truthy(v) ==> r == JObject(map[])
  {
    if Truthy(v) then v else JObject(map[])
  }

  /** What `process_upload` leaves: with documents in the session, the summary of what
      was extracted is shown and the conversation moves on to the
      confirmation; without them nothing changes, and the reply depends on
      whether the customer claims to have sent something. */
  predicate UploadOutcome(message: string, before: ConversationState, slots: map<string, Json>,
                          after: ConversationState, afterSlots: map<string, Json>, r: TurnReply)
  {
    var ocr := OcrOrEmpty(SlotIn(slots, "ocr_data"));
    afterSlots == slots && r.newState == after &&
    (Truthy(SlotIn(slots, "documents")) ==>
       after == Advance(before, "docs_uploaded") &&
       r == TurnReply(ReplyText(Received(Summary(ocr))), true, after, map["ocr_data" := ocr])) &&
    (!Truthy(SlotIn(slots, "documents")) ==>
       after == before &&
       r == TurnReply(ReplyText(if ContainsAny(Lower(message), UploadClaimWords()) then NothingDetected
                                else UploadPrompt),
                      false, after, map[]))
  }

  /** `process_upload`, on the session in place. */
  method ProcessUpload(message: string, session: SessionData) returns (r: TurnReply)
    modifies session
    ensures UploadOutcome(message, old(session.currentState), old(session.slots), session.currentState, session.slots, r)
  {
    hide ReplyText, Summary;
    var documents := session.GetSlot("documents");
    var ocr := OcrOrEmpty(session.GetSlot("ocr_data"));
    if Truthy(documents) {
      var next := GetNextState(session.currentState, "docs_uploaded");
      if next.Some? {
        session.TransitionState(next.value);
      }
      return TurnReply(ReplyText(Received(Summary(ocr))), true, session.currentState, map["ocr_data" := ocr]);
    }
    if ContainsAny(Lower(message), UploadClaimWords()) {
      return TurnReply(ReplyText(NothingDetected), false, session.currentState, map[]);
    }
    r := TurnReply(ReplyText(UploadPrompt), false, session.currentState, map[]);
  }

  /** What `process_confirm` leaves: a confirmation moves on to
      underwriting; anything else sends the customer back to the upload.
      Both count as a state change, and neither touches a slot. */
  predicate ConfirmOutcome(message: string, oracle: Oracle, before: ConversationState, slots: map<string, Json>,
                           after: ConversationState, afterSlots: map<string, Json>, r: TurnReply)
  {
    afterSlots == slots && r.newState == after && r.stateChanged && r.slotsUpdated == map[] &&
    (Confirmed(message, oracle) ==>
       after == Advance(before, "ocr_confirmed") && r.response == ReplyText(Underwriting)) &&
    (!Confirmed(message, oracle) ==>
       after == Advance(before, "ocr_rejected") && r.response == ReplyText(Reupload))
  }

  /** `process_confirm`, on the session in place. */
  method ProcessConfirm(message: string, session: SessionData, oracle: Oracle) returns (r: TurnReply)
    modifies session
    ensures ConfirmOutcome(message, oracle, old(session.currentState), old(session.slots),
                           session.currentState, session.slots, r)
  {
    hide ReplyText;
    var confirmed := ContainsAny(Lower(message), ConfirmWords());
    if !confirmed {
      confirmed := OracleYes(oracle, message, "ocr_confirmed");
    }
    var action := if confirmed then "ocr_confirmed" else "ocr_rejected";
    var next := GetNextState(session.currentState, action);
    if next.Some? {
      session.TransitionState(next.value);
    }
    r := TurnReply(ReplyText(if confirmed then Underwriting else Reupload), true, session.currentState, map[]);
  }

  /** The keyword test does not see negation: a message saying "not
      correct" confirms the data, whatever the model would have said. */
  lemma NegatedConfirmationConfirms(message: string, oracle: Oracle)
    requires Contains(Lower(message), "not correct")
    ensures Confirmed(message, oracle)
  {
    hide OracleYes, Lower;
    var m := Lower(message);
    var i: nat :| i <= |m| && OccursAt(m, "not correct", i);
    assert m[i + 4..i + 11] == "not correct"[4..] == "correct";
    assert OccursAt(m, "correct", i + 4);
    assert Contains(m, "correct");
    assert ConfirmWords()[1] == "correct";
    assert ContainsAny(m, ConfirmWords());
  }
}
