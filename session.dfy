/** The per-session loan state of the `LoanStage` flow and the in-memory
    session store. */
module Session {
  import opened Outcomes
  import opened Json
  import opened MockServices
  import opened Underwriting

  /** The ten stages of the loan conversation. */
  datatype LoanStage =
    | GREETING
    | CONSENT
    | COLLECT_CUSTOMER_ID
    | COLLECT_AMOUNT
    | CRM_CHECK
    | BUREAU_CHECK
    | UNDERWRITING
    | DECISION
    | ESCALATED
    | COMPLETED

  /** `LoanStage` has exactly ten members. */
  lemma TenStages()
    ensures |{GREETING, CONSENT, COLLECT_CUSTOMER_ID, COLLECT_AMOUNT, CRM_CHECK, BUREAU_CHECK,
              UNDERWRITING, DECISION, ESCALATED, COMPLETED}| == 10
  {
  }

  datatype ChatMessage = ChatMessage(role: string, kind: string, content: string)

  /** The five fields the workers read and the chat endpoint overwrites. */
  datatype Fields = Fields(
    customerId: Option<string>,
    requestedAmount: Option<int>,
    crmProfile: Option<CustomerProfile>,
    bureauReport: Option<BureauReport>,
    underwritingResult: Option<Decision>)

  /** `_retries.get(key, 0)`: a counter that was never set reads as zero. */
  function Count(retries: map<string, nat>, key: string): nat
  {
    if key in retries then retries[key] else 0
  }

  /** `LoanState`, updated in place by the chat endpoint and by the two
      workers that keep retry counters (`_retries`). */
  class LoanState {
    var sessionId: string
    var stage: LoanStage
    var messages: seq<ChatMessage>
    var slots: map<string, Json>
    var customerId: Option<string>
    var requestedAmount: Option<int>
    var crmProfile: Option<CustomerProfile>
    var bureauReport: Option<BureauReport>
    var underwritingResult: Option<Decision>
    var retries: map<string, nat>

    /** The declared defaults: stage GREETING, no messages, no slots, every
        optional field None and no retry counter yet. */
    predicate IsFresh(id: string)
      reads this
    {
      && sessionId == id && stage == GREETING && messages == [] && slots == map[]
      && customerId == None && requestedAmount == None && crmProfile == None
      && bureauReport == None && underwritingResult == None && retries == map[]
    }

    constructor (id: string)
      ensures IsFresh(id)
    {
      sessionId := id;
      stage := GREETING;
      messages := [];
      slots := map[];
      customerId := None;
      requestedAmount := None;
      crmProfile := None;
      bureauReport := None;
      underwritingResult := None;
      retries := map[];
    }

    /** The values of the five worker-facing fields. */
    function Snapshot(): (f: Fields)
      reads this`customerId, this`requestedAmount, this`crmProfile, this`bureauReport, this`underwritingResult
      ensures f.customerId == customerId && f.requestedAmount == requestedAmount && f.crmProfile == crmProfile
      ensures f.bureauReport == bureauReport && f.underwritingResult == underwritingResult
    {
      Fields(customerId, requestedAmount, crmProfile, bureauReport, underwritingResult)
    }

    /** `_retries[key] = _retries.get(key, 0) + 1`, returning the new count. */
    method CountAttempt(key: string) returns (attempt: nat)
      modifies this`retries
      ensures attempt == Count(old(retries), key) + 1
      ensures retries == old(retries)[key := attempt]
    {
      attempt := Count(retries, key) + 1;
      retries := retries[key := attempt];
    }

    /** `_retries[key] = 0`. */
    method ResetAttempts(key: string)
      modifies this`retries
      ensures retries == old(retries)[key := 0]
    {
      retries := retries[key := 0];
    }
  }

  /** The module-level `sessions` dictionary. */
  class SessionStore {
    var sessions: map<string, LoanState>

    /** Each id has a state object of its own: `get_session_state` only
        ever stores a newly created object. */
    predicate Valid()
      reads this
    {
      forall a, b :: a in sessions && b in sessions && a != b ==> sessions[a] != sessions[b]
    }

    constructor ()
      ensures sessions == map[]
      ensures Valid()
    {
      sessions := map[];
    }

    /** `get_session_state`: creates a fresh state for an unknown id, returns
        the stored object for a known one, and changes no other entry. */
    method GetSessionState(id: string) returns (s: LoanState)
      requires Valid()
      modifies this
      ensures Valid()
      ensures id in sessions && sessions[id] == s
      ensures id in old(sessions) ==> s == old(sessions[id]) && sessions == old(sessions)
      ensures id !in old(sessions) ==> fresh(s) && s.IsFresh(id) && sessions == old(sessions)[id := s]
    {
      if id !in sessions {
        var created := new LoanState(id);
        sessions := sessions[id := created];
      }
      s := sessions[id];
    }
  }
}
