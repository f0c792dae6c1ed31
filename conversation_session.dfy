/** The session object of the `ConversationState` flow and the reply every
    worker of that flow returns. */
module ConversationSession {
  import opened Outcomes
  import opened Json
  import opened StateMachine

  /** `SessionData`: the current state and the collected slots, both changed
      in place by the workers. Only the three operations the workers call
      are modelled. */
  class SessionData {
    var currentState: ConversationState
    var slots: map<string, Json>

    constructor (state: ConversationState, initial: map<string, Json>)
      ensures currentState == state && slots == initial
    {
      currentState := state;
      slots := initial;
    }

    /** `get_slot`: a slot never written reads as None. */
    function GetSlot(name: string): (r: Json)
      reads this
      ensures name in slots ==> r == slots[name]
      ensures name !in slots ==> r == JNull
    {
      SlotIn(slots, name)
    }

    /** `update_slot`: one slot takes a new value; nothing else changes. */
    method UpdateSlot(name: string, value: Json)
      modifies this
      ensures slots == old(slots)[name := value]
      ensures currentState == old(currentState)
    {
      slots := slots[name := value];
    }

    /** `transition_state`: the state changes; the slots do not. */
    method TransitionState(next: ConversationState)
      modifies this
      ensures currentState == next
      ensures slots == old(slots)
    {
      currentState := next;
    }

    /** `rewind_state`, whose definition is not part of this model: the state
        and slots it leaves behind are given by the caller. */
    method RewindState(state: ConversationState, after: map<string, Json>)
      modifies this
      ensures currentState == state && slots == after
    {
      currentState := state;
      slots := after;
    }
  }

  /** The value `get_slot` reads from the slots `slots`. */
  function SlotIn(slots: map<string, Json>, name: string): Json
  {
    if name in slots then slots[name] else JNull
  }

  /** The dictionary every worker returns: `response`, `state_changed`,
      `new_state` and `slots_updated`. */
  datatype TurnReply = TurnReply(
    response: string,
    stateChanged: bool,
    newState: ConversationState,
    slotsUpdated: map<string, Json>)
}
