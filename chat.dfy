/** `chat()`: one turn of the loan conversation on the in-memory session. */
module ChatApi {
  import opened Outcomes
  import opened Text
  import opened Session
  import opened Underwriting
  import opened Nlu
  import opened Workers
  import opened LoanGraph
  import opened Intent
  import opened Rag

  /** The response body; the defensive branch has no `session_id` key. */
  datatype ChatResponse = ChatResponse(sessionId: Option<string>, reply: string, stage: LoanStage, done: bool)

  /** `req.session_id or "default"`. */
  function SessionIdOrDefault(id: Option<string>): (r: string)
    ensures r != []
    ensures id.Some? && id.value != [] ==> r == id.value
    ensures id.None? || id.value == [] ==> r == "default"
  {
    if id.Some? && id.value != [] then id.value else "default"
  }

  const PolicyFallback := "Please refer to the loan policy."

  /** The policy branch's reply: the first five stripped non-empty lines of
      the answer, one per line, or a fallback text when there are none. */
  function FaqReply(message: string, docs: seq<string>): (r: string)
    ensures r != []
    ensures var shown := FirstLines(AnswerFromPolicyDocs(message, docs).0, 5);
            && (shown == [] ==> r == PolicyFallback)
            && (shown != [] ==> StartsWith(r, shown[0]) && r == Join(shown, "\n"))
  {
    var shown := FirstLines(AnswerFromPolicyDocs(message, docs).0, 5);
    hide *;
    JoinStartsWithFirst(shown, "\n");
    if shown == [] then PolicyFallback else Join(shown, "\n")
  }

  /** The policy reply holds exactly the answer's first five stripped
      non-empty lines (all of them when it has fewer), one per line. */
  lemma FaqReplyLines(message: string, docs: seq<string>)
    ensures var shown := FirstLines(AnswerFromPolicyDocs(message, docs).0, 5);
            shown != [] ==> SplitOn(FaqReply(message, docs), '\n') == shown && |shown| <= 5
  {
    hide *;
    FirstLinesSplitBack(AnswerFromPolicyDocs(message, docs).0, 5);
  }

  /** A join starts with its first part. */
  lemma {:induction false} JoinStartsWithFirst(parts: seq<string>, sep: string)
    ensures parts != [] ==> StartsWith(Join(parts, sep), parts[0])
  {
    if |parts| >= 2 {
      var rest := sep + Join(parts[1..], sep);
      assert Join(parts, sep) == parts[0] + rest;
      assert (parts[0] + rest)[..|parts[0]|] == parts[0];
    }
  }

  /** `setattr(state, k, v)` for one update. */
  function ApplyUpdate(f: Fields, u: Update): (g: Fields)
  {
    match u
    case SetCustomerId(c) => f.(customerId := Some(c))
    case SetRequestedAmount(a) => f.(requestedAmount := Some(a))
    case SetCrmProfile(p) => f.(crmProfile := p)
    case SetBureauReport(b) => f.(bureauReport := b)
    case SetUnderwritingResult(d) => f.(underwritingResult := Some(d))
  }

  /** The updates applied in order. */
  function ApplyUpdates(f: Fields, us: seq<Update>): Fields
  {
    if us == [] then f else ApplyUpdate(ApplyUpdates(f, us[..|us| - 1]), us[|us| - 1])
  }

  /** A worker's updates touch only the fields they name: the customer id
      from the id worker, the amount from the amount worker, and so on. */
  lemma ApplySingle(f: Fields, u: Update)
    ensures ApplyUpdates(f, [u]) == ApplyUpdate(f, u)
    ensures u.SetCustomerId? ==> ApplyUpdates(f, [u]) == f.(customerId := Some(u.customerId))
    ensures u.SetRequestedAmount? ==> ApplyUpdates(f, [u]) == f.(requestedAmount := Some(u.amount))
  {
    assert [u][..0] == [];
  }

  /** The `setattr` loop over a worker's updates. */
  method SetFields(state: LoanState, updates: seq<Update>)
    modifies state`customerId, state`requestedAmount, state`crmProfile, state`bureauReport, state`underwritingResult
    ensures state.Snapshot() == ApplyUpdates(old(state.Snapshot()), updates)
  {
    var i := 0;
    while i < |updates|
      invariant 0 <= i <= |updates|
      invariant state.Snapshot() == ApplyUpdates(old(state.Snapshot()), updates[..i])
    {
      assert updates[..i + 1][..i] == updates[..i];
      match updates[i] {
        case SetCustomerId(c) => state.customerId := Some(c);
        case SetRequestedAmount(a) => state.requestedAmount := Some(a);
        case SetCrmProfile(p) => state.crmProfile := p;
        case SetBureauReport(b) => state.bureauReport := b;
        case SetUnderwritingResult(d) => state.underwritingResult := Some(d);
      }
      i := i + 1;
    }
    assert updates[..i] == updates;
  }

  const SomethingWrong := "Something went wrong. Please try again."

  function UserMessage(text: string): ChatMessage { ChatMessage("user", "chat", text) }
  function SystemMessage(text: string): ChatMessage { ChatMessage("system", "chat", text) }

  /** The writes `chat()` makes once the stage has run: none for a stage
      without a worker (and a reply without a session id), and otherwise the
      next stage, the worker's updates and the system message. */
  method ApplyOutcome(state: LoanState, id: string, o: StageOutcome) returns (resp: Result<ChatResponse, AmountError>)
    modifies state`stage, state`messages, state`customerId, state`requestedAmount, state`crmProfile,
             state`bureauReport, state`underwritingResult
    ensures !o.Ran? ==> resp == (if o.NoWorker? then Ok(ChatResponse(None, SomethingWrong, state.stage, false))
                                 else Raised(o.error))
    ensures !o.Ran? ==> state.stage == old(state.stage) && state.Snapshot() == old(state.Snapshot())
                        && state.messages == old(state.messages)
    ensures o.Ran? ==> state.stage == o.result.nextStage
    ensures o.Ran? ==> state.Snapshot() == ApplyUpdates(old(state.Snapshot()), o.result.updates)
    ensures o.Ran? ==> state.messages == old(state.messages) + [SystemMessage(o.result.message)]
    ensures o.Ran? ==> resp == Ok(ChatResponse(Some(id), o.result.message, o.result.nextStage,
                                               o.result.nextStage in {COMPLETED, ESCALATED}))
  {
    match o
    case NoWorker =>
      resp := Ok(ChatResponse(None, SomethingWrong, state.stage, false));
    case Failed(e) =>
      resp := Raised(e);
    case Ran(r) =>
      state.stage := r.nextStage;
      SetFields(state, r.updates);
      state.messages := state.messages + [SystemMessage(r.message)];
      var done := state.stage in {COMPLETED, ESCALATED};
      resp := Ok(ChatResponse(Some(id), r.message, state.stage, done));
  }

  /** The part of a session a turn reads and writes. */
  datatype Conversation = Conversation(stage: LoanStage, messages: seq<ChatMessage>, retries: map<string, nat>, fields: Fields)

  /** A session created by `get_session_state`, before its first turn. */
  function NewConversation(): Conversation
  {
    Conversation(GREETING, [], map[], Fields(None, None, None, None, None))
  }

  function ConversationOf(s: LoanState): Conversation
    reads s
  {
    Conversation(s.stage, s.messages, s.retries, s.Snapshot())
  }

  /** A turn that is not a policy question: the message is stored, the
      stage's worker runs on the conversation as it was, and its result is
      written. A terminal stage gets the defensive reply, and an exception
      from the amount extractor escapes with the user message and the
      counter already written. */
  function WorkerTurn(c: Conversation, id: string, message: string, rules: Rules, llm: Llm)
    : (r: (Result<ChatResponse, AmountError>, Conversation))
    ensures |r.1.messages| > |c.messages| && r.1.messages[..|c.messages| + 1] == c.messages + [UserMessage(message)]
    ensures AllowedNext(c.stage, r.1.stage)
    ensures r.1.retries == RetriesAfter(c.stage, c.retries, StageResult(c.stage, c.retries, message, c.fields, rules, llm))
  {
    hide ConsentReply, AmountReply, UncountedStage, ClassifyIntent, DeterministicIntentGuess, ExtractAmount,
         ExtractConsent, RetriesAfter, ApplyUpdates, StageResult;
    var o := StageResult(c.stage, c.retries, message, c.fields, rules, llm);
    var retries := RetriesAfter(c.stage, c.retries, o);
    var asked := c.messages + [UserMessage(message)];
    match o
    case NoWorker => (Ok(ChatResponse(None, SomethingWrong, c.stage, false)), c.(messages := asked, retries := retries))
    case Failed(e) => (Raised(e), c.(messages := asked, retries := retries))
    case Ran(w) =>
      (Ok(ChatResponse(Some(id), w.message, w.nextStage, w.nextStage in {COMPLETED, ESCALATED})),
       Conversation(w.nextStage, asked + [SystemMessage(w.message)], retries, ApplyUpdates(c.fields, w.updates)))
  }

  /** What a worker turn answers: only the amount stage can raise, a
      terminal stage gets the defensive reply without a session id and
      nothing else does, and a worker's reply carries the session id and the
      new stage and is final exactly when that stage is terminal. */
  lemma WorkerTurnReply(c: Conversation, id: string, message: string, rules: Rules, llm: Llm)
    ensures var r := WorkerTurn(c, id, message, rules, llm);
            c.stage in {COMPLETED, ESCALATED} <==> r.0 == Ok(ChatResponse(None, SomethingWrong, c.stage, false))
    ensures var r := WorkerTurn(c, id, message, rules, llm);
            match r.0
            case Raised(_) => c.stage == COLLECT_AMOUNT
            case Ok(resp) =>
              && (resp.sessionId.Some? ==> resp.sessionId == Some(id) && resp.stage == r.1.stage)
              && (resp.done <==> r.1.stage in {COMPLETED, ESCALATED} && resp.sessionId.Some?)
  {
    hide ConsentReply, AmountReply, UncountedStage, ClassifyIntent, DeterministicIntentGuess, ExtractAmount,
         ExtractConsent, RetriesAfter, ApplyUpdates, StageResult;
  }

  /** One turn as a function of the conversation before it: the response and
      the conversation after. A policy question is answered from the
      documents, is never final, and changes nothing. */
  function TurnEffect(c: Conversation, id: string, message: string, docs: seq<string>, rules: Rules, llm: Llm)
    : (r: (Result<ChatResponse, AmountError>, Conversation))
    ensures IsFaqIntent(message) ==> r.1 == c && r.0.Ok? && r.0.value.reply != [] && !r.0.value.done
    ensures !IsFaqIntent(message) ==> r == WorkerTurn(c, id, message, rules, llm)
    ensures match r.0
            case Ok(resp) => resp.sessionId.Some? ==> resp.sessionId == Some(id)
            case _ => true
  {
    hide FaqReply, WorkerTurn;
    if IsFaqIntent(message) then (Ok(ChatResponse(Some(id), FaqReply(message, docs), c.stage, false)), c)
    else
      WorkerTurnReply(c, id, message, rules, llm);
      WorkerTurn(c, id, message, rules, llm)
  }

  /** Everything `chat()` does once it holds the session: the policy branch
      returns before any write; otherwise the user message is stored, the
      stage's worker runs (`RunStage`) and its result is written. An
      exception from the amount extractor escapes after the user message and
      the retry counter were written. */
  method Turn(state: LoanState, id: string, message: string, docs: seq<string>, rules: Rules, llm: Llm)
    returns (resp: Result<ChatResponse, AmountError>, o: Option<StageOutcome>)
    modifies state
    ensures state.sessionId == old(state.sessionId) && state.slots == old(state.slots)
    ensures (resp, ConversationOf(state)) == TurnEffect(old(ConversationOf(state)), id, message, docs, rules, llm)
    ensures o.None? <==> IsFaqIntent(message)
    ensures o.Some? ==> o.value == StageResult(old(state.stage), old(state.retries), message, old(state.Snapshot()), rules, llm)
    ensures o.Some? ==> state.retries == RetriesAfter(old(state.stage), old(state.retries), o.value)
  {
    // The workers' replies are not needed here, only what RunStage states.
    hide ConsentReply, AmountReply, UncountedStage, ClassifyIntent, DeterministicIntentGuess, ExtractAmount,
         ExtractConsent, FaqReply, StageResult, RetriesAfter, ApplyUpdates, IsFaqIntent;
    if IsFaqIntent(message) {
      resp := Ok(ChatResponse(Some(id), FaqReply(message, docs), state.stage, false));
      o := None;
      return;
    }
    state.messages := state.messages + [UserMessage(message)];
    var outcome := RunStage(state, message, rules, llm);
    resp := ApplyOutcome(state, id, outcome);
    o := Some(outcome);
  }

  /** `chat(req)`: finds or creates the session, then runs the turn. */
  method Chat(store: SessionStore, sessionId: Option<string>, message: string, docs: seq<string>, rules: Rules, llm: Llm)
    returns (resp: Result<ChatResponse, AmountError>)
    requires store.Valid()
    modifies store, store.sessions.Values
    ensures store.Valid()
    ensures forall k :: k in old(store.sessions) && k != SessionIdOrDefault(sessionId) ==>
              k in store.sessions && store.sessions[k] == old(store.sessions[k]) &&
              ConversationOf(store.sessions[k]) == old(ConversationOf(store.sessions[k]))
    ensures var id := SessionIdOrDefault(sessionId);
            && id in store.sessions
            && (id in old(store.sessions) ==> store.sessions == old(store.sessions))
            && (id !in old(store.sessions) ==> store.sessions == old(store.sessions)[id := store.sessions[id]])
    ensures var id := SessionIdOrDefault(sessionId);
            id !in old(store.sessions) ==> fresh(store.sessions[id]) && store.sessions[id].sessionId == id
    ensures var id := SessionIdOrDefault(sessionId);
            var before := if id in old(store.sessions) then old(ConversationOf(store.sessions[id])) else NewConversation();
            (resp, ConversationOf(store.sessions[id])) == TurnEffect(before, id, message, docs, rules, llm)
    ensures resp.Ok? && resp.value.sessionId.Some? ==> resp.value.sessionId.value == SessionIdOrDefault(sessionId)
  {
    hide TurnEffect, WorkerTurn, FaqReply, StageResult, RetriesAfter, ApplyUpdates, IsFaqIntent, ConsentReply, AmountReply,
         UncountedStage, ClassifyIntent, DeterministicIntentGuess, ExtractAmount, ExtractConsent;
    var id := SessionIdOrDefault(sessionId);
    var state := store.GetSessionState(id);
    var outcome;
    resp, outcome := Turn(state, id, message, docs, rules, llm);
  }
}
