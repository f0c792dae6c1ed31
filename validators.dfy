/** `validate_salary_data`: a salary slip is usable when its name, employer
    and net salary were all found and the salary is positive. */
module Validators {
  import opened Outcomes
  import opened Text
  import opened Parsers

  /** `validate_salary_data`. Only presence is asked of the name and the
      employer, so an empty one passes; the salary must be above zero. */
  function ValidateSalaryData(d: SlipData): (r: bool)
    ensures r ==> d.name.Some? && d.employer.Some? && d.netSalary.Some?
    ensures r ==> NumberFilled(d.netSalary) && SlipCount(d) >= 1
  {
    d.name.Some? && d.employer.Some? && d.netSalary.Some? && d.netSalary.GetOr(0) > 0
  }

  /** All three present and a positive salary is enough. */
  lemma PresentAndPositiveIsValid(d: SlipData)
    requires d.name.Some? && d.employer.Some?
    requires d.netSalary.Some? && d.netSalary.GetOr(0) > 0
    ensures ValidateSalaryData(d)
  {
  }

  /** A net salary of zero or below is refused, whatever else was found. */
  lemma NonPositiveSalaryIsInvalid(d: SlipData)
    requires d.netSalary.GetOr(0) <= 0
    ensures !ValidateSalaryData(d)
  {
  }

  /** An empty name and an empty employer still count as present. */
  lemma EmptyTextsAreValid(salary: int)
    requires salary > 0
    ensures ValidateSalaryData(SlipData(Some(""), Some(""), Some(salary), None))
  {
  }

  /** The pay period plays no part in the verdict. */
  lemma PayPeriodIgnored(d: SlipData, period: Option<string>)
    ensures ValidateSalaryData(d) == ValidateSalaryData(d.(payPeriod := period))
  {
  }

  /** A parsed slip that passes has its salary counted: its confidence is at
      least one quarter. */
  lemma {:induction false} ValidParsedSlipHasConfidence(m: SlipMatches)
    requires SlipMatchesShaped(m)
    requires ValidateSalaryData(ParseSalarySlip(m).0)
    ensures ParseSalarySlip(m).1 >= 0.25
  {
  }

  /** A parsed slip whose salary capture had no digit never passes. */
  lemma CommasOnlySalaryIsInvalid(m: SlipMatches)
    requires SlipMatchesShaped(m)
    requires m.netSalary.Some? && RemoveChar(m.netSalary.GetOr(""), ',') == ""
    ensures !ValidateSalaryData(ParseSalarySlip(m).0)
  {
  }
}
