/** `evaluate_application`: the deterministic underwriting rule. The rule
    set loaded from `rules.yaml` is an immutable parameter. */
module Underwriting {
  import opened Outcomes
  import opened Sorting
  import opened MockServices

  datatype Tier = Tier(minScore: int, maxAmount: int, requireDocs: bool)

  datatype Rules = Rules(
    minCreditScore: int,
    scoreTiers: seq<Tier>,
    defaultRejectionReason: string,
    maxFoir: real,
    incomeMultiplierCap: int)

  datatype Verdict = Approve | Reject | NeedDocs

  /** The `reason` texts; the two formatted ones keep their arguments. */
  datatype Reason =
    | MissingCreditScore
    | DefaultRejection(text: string)
    | NoApplicableTier
    | ZeroEligibility
    | Eligible
    | FoirExceeded(foir: real, maxFoir: real)
    | TierRequiresProof(creditScore: int, tierMinScore: int)

  datatype Metadata =
    | NoMetadata
    | BelowMinimum(creditScore: int, minCreditScore: int)
    | ScoreOnly(creditScore: int)
    | ScoreAndIncome(creditScore: int, income: int)
    | Assessment(creditScore: int, tierMinScore: int, scoreCeiling: int, income: int, incomeCeiling: int,
                 existingEmi: int, maxFoir: real, foir: real, requireDocs: bool)

  datatype Decision = Decision(
    verdict: Verdict,
    approvedAmount: int,
    requestedAmount: int,
    reason: Reason,
    metadata: Metadata)

  /** The exceptions `evaluate_application` can raise: `.get` on a missing
      bureau report or profile, and `int(None)` / `None / cap` on a missing
      amount. */
  datatype Failure = BureauReportMissing | ProfileMissing | AmountMissing

  function MinScoreOf(t: Tier): int { t.minScore }

  /** The position of the first tier in `s` whose minimum score the credit
      score reaches. */
  function FirstQualifying(s: seq<Tier>, score: int): (r: Option<nat>)
    ensures r.None? <==> forall i :: 0 <= i < |s| ==> s[i].minScore > score
    ensures r.Some? ==> r.value < |s| && s[r.value].minScore <= score
                        && forall i :: 0 <= i < r.value ==> s[i].minScore > score
  {
    if s == [] then None
    else if score >= s[0].minScore then Some(0)
    else match FirstQualifying(s[1..], score)
      case None => None
      case Some(k) => Some(k + 1)
  }

  /** Lines 59-64: the tiers sorted by `min_score`, largest first (a stable
      sort), and the first one the score reaches. */
  function SelectTier(tiers: seq<Tier>, score: int): Option<Tier>
  {
    var s := SortDesc(tiers, MinScoreOf);
    match FirstQualifying(s, score)
    case None => None
    case Some(k) => Some(s[k])
  }

  lemma {:induction false} WithKeyHead(s: seq<Tier>, k: nat, v: int)
    requires k < |s| && s[k].minScore == v
    requires forall i :: 0 <= i < k ==> s[i].minScore != v
    ensures WithKey(s, MinScoreOf, v) != [] && WithKey(s, MinScoreOf, v)[0] == s[k]
    decreases k
  {
    if k > 0 {
      WithKeyHead(s[1..], k - 1, v);
    }
  }

  lemma SortedTiersSameMembers(tiers: seq<Tier>)
    ensures forall t :: t in tiers <==> t in SortDesc(tiers, MinScoreOf)
  {
    SortDescPermutation(tiers, MinScoreOf);
    forall t ensures t in tiers <==> t in SortDesc(tiers, MinScoreOf) {
      assert t in tiers <==> t in multiset(tiers);
      assert t in SortDesc(tiers, MinScoreOf) <==> t in multiset(SortDesc(tiers, MinScoreOf));
    }
  }

  /** In a list sorted by `min_score`, largest first, the first qualifying
      tier has the largest qualifying minimum. */
  lemma FirstQualifyingIsMax(s: seq<Tier>, score: int)
    requires SortedDesc(s, MinScoreOf)
    requires FirstQualifying(s, score).Some?
    ensures forall j :: 0 <= j < |s| && s[j].minScore <= score ==>
              s[j].minScore <= s[FirstQualifying(s, score).value].minScore
  {
    var k := FirstQualifying(s, score).value;
    forall j | 0 <= j < |s| && s[j].minScore <= score ensures s[j].minScore <= s[k].minScore {
      if j > k { assert MinScoreOf(s[k]) >= MinScoreOf(s[j]); }
    }
  }

  /** The selected tier is the one with the largest `min_score` not above the
      credit score, the earliest such tier in the rules when several share
      that minimum; there is none exactly when every tier's minimum is above
      the score. */
  lemma SelectTierIsBest(tiers: seq<Tier>, score: int)
    ensures SelectTier(tiers, score).None? <==> forall t :: t in tiers ==> t.minScore > score
    ensures SelectTier(tiers, score).Some? ==>
              var t := SelectTier(tiers, score).value;
              && t in tiers && t.minScore <= score
              && (forall u :: u in tiers && u.minScore <= score ==> u.minScore <= t.minScore)
              && WithKey(tiers, MinScoreOf, t.minScore) != []
              && t == WithKey(tiers, MinScoreOf, t.minScore)[0]
  {
    var s := SortDesc(tiers, MinScoreOf);
    SortedTiersSameMembers(tiers);
    var r := FirstQualifying(s, score);
    if r.Some? {
      var k := r.value;
      var t := s[k];
      assert SelectTier(tiers, score) == Some(t);
      SortDescSorted(tiers, MinScoreOf);
      FirstQualifyingIsMax(s, score);
      forall u | u in tiers && u.minScore <= score ensures u.minScore <= t.minScore {
        var j :| 0 <= j < |s| && s[j] == u;
      }
      WithKeyHead(s, k, t.minScore);
      SortDescStable(tiers, MinScoreOf, t.minScore);
    } else {
      assert SelectTier(tiers, score) == None;
      forall t | t in tiers ensures t.minScore > score {
        var j :| 0 <= j < |s| && s[j] == t;
      }
    }
  }

  /** `monthly_income` and `existing_emi`, 0 when absent. */
  function Income(p: CustomerProfile): int { p.monthlyIncome.GetOr(0) }
  function ExistingEmi(p: CustomerProfile): int { p.existingEmi.GetOr(0) }

  /** `min(score_ceiling, income_ceiling)`. */
  function MaxEligible(rules: Rules, tier: Tier, p: CustomerProfile): (m: int)
    ensures m <= tier.maxAmount && m <= Income(p) * rules.incomeMultiplierCap
    ensures m == tier.maxAmount || m == Income(p) * rules.incomeMultiplierCap
  {
    var incomeCeiling := Income(p) * rules.incomeMultiplierCap;
    if tier.maxAmount <= incomeCeiling then tier.maxAmount else incomeCeiling
  }

  /** The fixed-obligation-to-income ratio with the new EMI approximated as
      `requested / income_multiplier_cap`; 1.0 when income is not positive. */
  function Foir(rules: Rules, p: CustomerProfile, requested: int): real
    requires rules.incomeMultiplierCap != 0
  {
    var approxNewEmi := requested as real / rules.incomeMultiplierCap as real;
    if Income(p) > 0 then (ExistingEmi(p) as real + approxNewEmi) / Income(p) as real else 1.0
  }

  function RejectWith(requested: Option<int>, reason: Reason, meta: Metadata): (r: Result<Decision, Failure>)
    ensures r.Raised? <==> requested.None?
    ensures r.Ok? ==> r.value == Decision(Reject, 0, requested.value, reason, meta)
  {
    if requested.None? then Raised(AmountMissing) else Ok(Decision(Reject, 0, requested.value, reason, meta))
  }

  /** `evaluate_application(customer_profile, bureau_report, requested_amount)`. */
  function EvaluateApplication(rules: Rules, profile: Option<CustomerProfile>, bureau: Option<BureauReport>,
                               requested: Option<int>): (r: Result<Decision, Failure>)
    ensures bureau.None? ==> r == Raised(BureauReportMissing)
    ensures requested.None? ==> r.Raised?
    ensures r.Ok? ==> r.value.requestedAmount == requested.value
    ensures r.Ok? && r.value.verdict == Reject ==> r.value.approvedAmount == 0
    ensures r.Ok? && r.value.verdict != Reject ==> r.value.approvedAmount <= requested.value
  {
    if bureau.None? then Raised(BureauReportMissing)
    else match bureau.value.creditScore
      case None => RejectWith(requested, MissingCreditScore, NoMetadata)
      case Some(score) =>
        if score < rules.minCreditScore then
          RejectWith(requested, DefaultRejection(rules.defaultRejectionReason), BelowMinimum(score, rules.minCreditScore))
        else match SelectTier(rules.scoreTiers, score)
          case None => RejectWith(requested, NoApplicableTier, ScoreOnly(score))
          case Some(tier) =>
            if profile.None? then Raised(ProfileMissing)
            else
              var p := profile.value;
              var maxEligible := MaxEligible(rules, tier, p);
              if maxEligible <= 0 then RejectWith(requested, ZeroEligibility, ScoreAndIncome(score, Income(p)))
              else if requested.None? then Raised(AmountMissing)
              else
                var amount := requested.value;
                var foir := Foir(rules, p, amount);
                var approved := if amount <= maxEligible then amount else maxEligible;
                var meta := Assessment(score, tier.minScore, tier.maxAmount, Income(p),
                                       Income(p) * rules.incomeMultiplierCap, ExistingEmi(p),
                                       rules.maxFoir, foir, tier.requireDocs);
                if foir > rules.maxFoir then
                  Ok(Decision(NeedDocs, approved, amount, FoirExceeded(foir, rules.maxFoir), meta))
                else if tier.requireDocs then
                  Ok(Decision(NeedDocs, approved, amount, TierRequiresProof(score, tier.minScore), meta))
                else
                  Ok(Decision(Approve, approved, amount, Eligible, meta))
  }

  /** A bureau report without a credit score is rejected first, whatever the
      profile. */
  lemma MissingScoreRejected(rules: Rules, profile: Option<CustomerProfile>, b: BureauReport, amount: int)
    requires b.creditScore.None?
    ensures EvaluateApplication(rules, profile, Some(b), Some(amount))
            == Ok(Decision(Reject, 0, amount, MissingCreditScore, NoMetadata))
  {
  }

  /** A score below the minimum is rejected with the configured reason,
      before the tiers or the profile are looked at. */
  lemma LowScoreRejected(rules: Rules, profile: Option<CustomerProfile>, b: BureauReport, amount: int)
    requires b.creditScore.Some? && b.creditScore.value < rules.minCreditScore
    ensures EvaluateApplication(rules, profile, Some(b), Some(amount))
            == Ok(Decision(Reject, 0, amount, DefaultRejection(rules.defaultRejectionReason),
                           BelowMinimum(b.creditScore.value, rules.minCreditScore)))
  {
  }

  /** A score at or above the minimum that reaches no tier is rejected with
      "No applicable score tier found.". */
  lemma NoTierRejected(rules: Rules, profile: Option<CustomerProfile>, b: BureauReport, amount: int)
    requires b.creditScore.Some? && b.creditScore.value >= rules.minCreditScore
    requires forall t :: t in rules.scoreTiers ==> t.minScore > b.creditScore.value
    ensures EvaluateApplication(rules, profile, Some(b), Some(amount))
            == Ok(Decision(Reject, 0, amount, NoApplicableTier, ScoreOnly(b.creditScore.value)))
  {
    SelectTierIsBest(rules.scoreTiers, b.creditScore.value);
  }

  /** Past the score checks, the outcome is governed by the best tier, the
      income ceiling and the FOIR: a zero ceiling rejects; otherwise the
      approved amount is `min(requested, max_eligible)`, so it never exceeds
      the request, the tier cap or the income ceiling; the application
      needs documents exactly when the FOIR is above the maximum or the tier
      requires proof, and a FOIR breach keeps its own reason even in a tier
      that requires proof. */
  lemma AssessedOutcome(rules: Rules, p: CustomerProfile, b: BureauReport, amount: int)
    requires b.creditScore.Some? && b.creditScore.value >= rules.minCreditScore
    requires SelectTier(rules.scoreTiers, b.creditScore.value).Some?
    ensures var score := b.creditScore.value;
            var tier := SelectTier(rules.scoreTiers, score).value;
            var m := MaxEligible(rules, tier, p);
            var r := EvaluateApplication(rules, Some(p), Some(b), Some(amount));
            && tier in rules.scoreTiers
            && (forall u :: u in rules.scoreTiers && u.minScore <= score ==> u.minScore <= tier.minScore)
            && r.Ok?
            && (m <= 0 ==> r.value == Decision(Reject, 0, amount, ZeroEligibility, ScoreAndIncome(score, Income(p))))
            && (m > 0 ==>
                  && r.value.verdict != Reject
                  && r.value.approvedAmount == (if amount <= m then amount else m)
                  && r.value.approvedAmount <= amount
                  && r.value.approvedAmount <= tier.maxAmount
                  && r.value.approvedAmount <= Income(p) * rules.incomeMultiplierCap
                  && rules.incomeMultiplierCap != 0
                  && var foir := Foir(rules, p, amount);
                     && (r.value.verdict == NeedDocs <==> foir > rules.maxFoir || tier.requireDocs)
                     && (foir > rules.maxFoir ==> r.value.reason == FoirExceeded(foir, rules.maxFoir))
                     && (r.value.verdict == Approve ==> r.value.reason == Eligible))
  {
    SelectTierIsBest(rules.scoreTiers, b.creditScore.value);
  }

  /** The FOIR is `(existing_emi + requested / cap) / income` for a positive
      income, and 1.0 otherwise. */
  lemma FoirValue(rules: Rules, p: CustomerProfile, amount: int)
    requires rules.incomeMultiplierCap != 0
    ensures Income(p) > 0 ==> Foir(rules, p, amount) * Income(p) as real
                              == ExistingEmi(p) as real + amount as real / rules.incomeMultiplierCap as real
    ensures Income(p) <= 0 ==> Foir(rules, p, amount) == 1.0
  {
  }

  /** Asking for more never turns an assessed application into a rejection
      or lowers the approved amount. */
  lemma ApprovedMonotone(rules: Rules, profile: Option<CustomerProfile>, bureau: Option<BureauReport>, a1: int, a2: int)
    requires a1 <= a2
    requires EvaluateApplication(rules, profile, bureau, Some(a1)).Ok?
    ensures var r1 := EvaluateApplication(rules, profile, bureau, Some(a1)).value;
            var r2 := EvaluateApplication(rules, profile, bureau, Some(a2));
            && r2.Ok?
            && (r1.verdict == Reject <==> r2.value.verdict == Reject)
            && r1.approvedAmount <= r2.value.approvedAmount
  {
  }

  /** The low-score fixture: CUST003's score 620 is rejected with amount 0
      under any rules whose minimum is above 620. */
  lemma Cust003Rejected(rules: Rules)
    requires rules.minCreditScore > 620
    ensures var r := EvaluateApplication(rules, GetCrmProfile("CUST003"), GetBureauReport("CUST003"), Some(100000));
            r.Ok? && r.value.verdict == Reject && r.value.approvedAmount == 0 && r.value.requestedAmount == 100000
  {
    Fixtures();
  }

  /** The high-score fixture: CUST001 (score 780, income 60000) asking for
      200000 is approved or sent for documents with a positive amount under
      any rules that admit the score into a tier with a positive cap and use
      a positive income multiplier. */
  lemma Cust001Assessed(rules: Rules)
    requires rules.minCreditScore <= 780 && rules.incomeMultiplierCap > 0
    requires forall t :: t in rules.scoreTiers ==> t.maxAmount > 0
    requires exists t :: t in rules.scoreTiers && t.minScore <= 780
    ensures var r := EvaluateApplication(rules, GetCrmProfile("CUST001"), GetBureauReport("CUST001"), Some(200000));
            r.Ok? && r.value.verdict in {Approve, NeedDocs} && r.value.approvedAmount > 0
            && r.value.requestedAmount == 200000
  {
    Fixtures();
    SelectTierIsBest(rules.scoreTiers, 780);
    var tier := SelectTier(rules.scoreTiers, 780).value;
    assert 60000 * rules.incomeMultiplierCap > 0;
  }
}
