/** `AmountWorker` of the `ConversationState` flow: stores an accepted loan
    amount, and otherwise explains what was wrong with the amount the
    message mentions. */
module AmountFlow {
  import opened Outcomes
  import opened Text
  import opened Json
  import opened LlmClient
  import opened AmountPatterns
  import opened NumberFormat
  import opened SlotFiller
  import opened StateMachine
  import opened ConversationSession

  /** `_format_amount`: whole rupees with commas below one lakh, and the
      number of lakhs to two places from one lakh on. */
  function FormatAmount(amount: real): string
  {
    if amount >= 100000.0 then FormatFixed(amount / 100000.0, 2) + " lakhs"
    else FormatSigned(amount, 0)
  }

  /** Below one lakh, a non-negative amount is shown as plain grouped
      digits. */
  lemma FormatAmountSmall(x: real)
    requires 0.0 <= x < 100000.0
    ensures FormatAmount(x) == FormatFixed(x, 0)
  {
  }

  /** A whole amount below one lakh is shown so that the amount patterns read
      it back unchanged. */
  lemma SmallAmountReadsBack(n: nat)
    requires n < 100000
    ensures GroupValue(FormatAmount(n as real)) == Some(n as real)
  {
    FormatAmountSmall(n as real);
    hide FormatAmount, FormatFixed, GroupValue;
    WholeReadsBack(n);
  }

  /** From one lakh on, the figure shown reads back as the number of lakhs,
      off by at most half of the last place shown. */
  lemma LakhFigure(amount: real)
    requires amount >= 100000.0
    ensures FormatAmount(amount) == FormatFixed(amount / 100000.0, 2) + " lakhs"
    ensures GroupValue(FormatFixed(amount / 100000.0, 2)).Some?
    ensures -0.005 <= GroupValue(FormatFixed(amount / 100000.0, 2)).GetOr(0.0) - amount / 100000.0 <= 0.005
  {
    hide FormatFixed, GroupValue, Scaled, Pow10;
    var x := amount / 100000.0;
    FormatFixedReadsBack(x, 2);
    TwoPlacesClose(x);
  }

  /** Two decimals are within half a hundredth of the number shown. */
  lemma TwoPlacesClose(x: real)
    requires x >= 0.0
    ensures -0.005 <= Scaled(x, 2) as real / Pow10(2) as real - x <= 0.005
  {
    hide Scaled;
    assert Pow10(2) == 100;
    var q := Scaled(x, 2) as real;
    assert x * 100.0 - 0.5 <= q <= x * 100.0 + 0.5;
    assert q / 100.0 - x == (q - x * 100.0) / 100.0;
  }

  /** The pattern loop of `_extract_raw_amount` from pattern `k` on: the
      amount of the first pattern that matches, whatever its range. */
  function RawFrom(message: string, k: nat): (r: Option<real>)
    requires k <= 6
    decreases 6 - k
  {
    if k == 6 then None
    else
      match Search(message, 0, k)
      case Some(h) => HitAmount(message, h)
      case None => RawFrom(message, k + 1)
  }

  /** `_extract_raw_amount`. */
  function ExtractRawAmount(message: string): Option<real>
  {
    RawFrom(message, 0)
  }

  /** A raw amount exists exactly when some pattern matches: the
      `except ValueError` branch never returns None. */
  lemma {:induction false} RawFromFound(message: string, k: nat)
    requires k <= 6
    ensures RawFrom(message, k).Some? <==> exists j :: k <= j < 6 && Search(message, 0, j).Some?
    decreases 6 - k
  {
    if k < 6 {
      RawFromFound(message, k + 1);
      if Search(message, 0, k).Some? {
        SearchAlwaysParses(message, k);
      }
    }
  }

  /** When the first matching pattern's amount is in range, the range-checked
      extraction of the slot filler returns that same amount. */
  lemma {:induction false} RawInRangeIsAccepted(message: string, b: LoanBounds, k: nat)
    requires k <= 6
    requires RawFrom(message, k).Some? && InBounds(b, RawFrom(message, k).GetOr(0.0))
    ensures RuleAmount(message, b, k) == RawFrom(message, k)
    decreases 6 - k
  {
    if Search(message, 0, k).None? {
      RawInRangeIsAccepted(message, b, k + 1);
    }
  }

  datatype Reply = Accepted(amount: string) | BelowMin | AboveMax | Unconfirmed | Undetermined

  /** The replies; the minimum and maximum are shown formatted. */
  function ReplyText(k: Reply, min: string, max: string): string
  {
    var between := "between \U{20B9}" + min + " and \U{20B9}" + max + ".";
    match k
    case Accepted(a) =>
      "Perfect! You're applying for \U{20B9}" + a + ". To process your loan, I'll need some documents from you. " +
      "These include your salary slip, PAN card, and Aadhaar card. Are you ready to upload them?"
    case BelowMin => "The minimum loan amount is \U{20B9}" + min + ". Please enter an amount " + between
    case AboveMax => "The maximum loan amount is \U{20B9}" + max + ". Please enter an amount " + between
    case Unconfirmed => "I couldn't confirm the loan amount. Please specify an amount " + between
    case Undetermined =>
      "I couldn't determine the loan amount from your message. Please specify an amount " + between
  }

  /** Which explanation a rejected message gets, from its raw amount. */
  function Fallback(raw: Option<real>, b: LoanBounds): (k: Reply)
    ensures k == Undetermined <==> raw.None?
    ensures k == BelowMin <==> raw.Some? && raw.GetOr(0.0) < b.min
    ensures k == AboveMax <==> raw.Some? && b.min <= raw.GetOr(0.0) && raw.GetOr(0.0) > b.max
    ensures k == Unconfirmed <==> raw.Some? && InBounds(b, raw.GetOr(0.0))
  {
    match raw
    case None => Undetermined
    case Some(a) => if a < b.min then BelowMin else if a > b.max then AboveMax else Unconfirmed
  }

  /** What `AmountWorker.process` leaves: a non-zero amount from the slot
      filler is stored and moves the conversation on; otherwise nothing
      changes and the reply explains, from the raw amount, why the message
      was not enough. */
  predicate Outcome(message: string, b: LoanBounds, oracle: Oracle, before: ConversationState,
                    slots: map<string, Json>, after: ConversationState, afterSlots: map<string, Json>, r: TurnReply)
  {
    var a := ExtractLoanAmount(message, b, oracle).GetOr(0.0);
    r.newState == after &&
    (a != 0.0 ==>
       afterSlots == slots["loan_amount" := JReal(a)] && after == Advance(before, "amount_provided") &&
       r == TurnReply(ReplyText(Accepted(FormatAmount(a)), FormatAmount(b.min), FormatAmount(b.max)),
                      true, after, map["loan_amount" := JReal(a)])) &&
    (a == 0.0 ==>
       afterSlots == slots && after == before &&
       r == TurnReply(ReplyText(Fallback(ExtractRawAmount(message), b), FormatAmount(b.min), FormatAmount(b.max)),
                      false, after, map[]))
  }

  /** `AmountWorker.process`, on the session in place. */
  method Process(message: string, session: SessionData, b: LoanBounds, oracle: Oracle) returns (r: TurnReply)
    modifies session
    ensures Outcome(message, b, oracle, old(session.currentState), old(session.slots), session.currentState, session.slots, r)
  {
    hide ReplyText, FormatAmount, Fallback, ExtractRawAmount;
    var amount := ExtractLoanAmount(message, b, oracle);
    if amount.Some? && amount.value != 0.0 {
      session.UpdateSlot("loan_amount", JReal(amount.value));
      var next := GetNextState(session.currentState, "amount_provided");
      if next.Some? {
        session.TransitionState(next.value);
      }
      var shown := FormatAmount(amount.value);
      r := TurnReply(ReplyText(Accepted(shown), FormatAmount(b.min), FormatAmount(b.max)),
                     true, session.currentState, map["loan_amount" := JReal(amount.value)]);
    } else {
      var raw := ExtractRawAmount(message);
      var kind := Fallback(raw, b);
      r := TurnReply(ReplyText(kind, FormatAmount(b.min), FormatAmount(b.max)), false, session.currentState, map[]);
    }
  }

  /** The "couldn't confirm" reply, for a raw amount that is in range, can
      only come from an amount of zero: any other in-range raw amount is the
      one the slot filler accepts. */
  lemma UnconfirmedMeansZero(message: string, b: LoanBounds, oracle: Oracle)
    requires ExtractLoanAmount(message, b, oracle).GetOr(0.0) == 0.0
    requires Fallback(ExtractRawAmount(message), b) == Unconfirmed
    ensures ExtractRawAmount(message) == Some(0.0)
  {
    RawInRangeIsAccepted(message, b, 0);
  }
}
