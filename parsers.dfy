/** `parse_salary_slip` and `parse_id_card`: the fields of a salary slip or
    an identity card and a confidence that counts the fields found. The
    searches for the name, employer, net salary and pay period are inputs
    (the captured group of each search that matched); the PAN-like number of
    an identity card is searched for in the text. */
module Parsers {
  import opened Outcomes
  import opened Text
  import opened Json
  import opened Confidence
  import opened OcrEngine

  /** The salary slip's fields; `SalarySlipData` has the same four. */
  datatype SlipData = SlipData(
    name: Option<string>, employer: Option<string>, netSalary: Option<int>, payPeriod: Option<string>)

  /** The captured groups of the four salary-slip searches. */
  datatype SlipMatches = SlipMatches(
    name: Option<string>, employer: Option<string>, netSalary: Option<string>, payPeriod: Option<string>)

  /** What `([\d,]+)` can capture: digits and commas, at least one. */
  predicate DigitsAndCommas(g: string)
  {
    |g| > 0 && forall i :: 0 <= i < |g| ==> IsDigit(g[i]) || g[i] == ','
  }

  predicate SlipMatchesShaped(m: SlipMatches)
  {
    m.netSalary.Some? ==> DigitsAndCommas(m.netSalary.GetOr("0"))
  }

  /** Without its commas, such a capture is all digits. */
  lemma CommasRemoved(g: string)
    requires DigitsAndCommas(g)
    ensures AllDigits(RemoveChar(g, ','))
  {
    var r := RemoveChar(g, ',');
    forall i | 0 <= i < |r|
      ensures IsDigit(r[i])
    {
      assert r[i] in r;
      var j :| 0 <= j < |g| && g[j] == r[i];
    }
  }

  /** Python truthiness of the optional fields. */
  predicate TextFilled(v: Option<string>) { v.Some? && v.GetOr("") != "" }
  predicate NumberFilled(v: Option<int>) { v.Some? && v.GetOr(0) != 0 }

  /** How many of the slip's four fields are truthy. */
  function SlipCount(d: SlipData): (n: nat)
    ensures n <= 4
  {
    (if TextFilled(d.name) then 1 else 0) + (if TextFilled(d.employer) then 1 else 0) +
    (if NumberFilled(d.netSalary) then 1 else 0) + (if TextFilled(d.payPeriod) then 1 else 0)
  }

  /** `ValueError`: `int("")` for a net salary of commas alone. */
  datatype ParseError = NotAnInteger

  function StripOpt(v: Option<string>): (r: Option<string>)
    ensures r.Some? <==> v.Some?
  {
    match v
    case Some(s) => Some(Strip(s))
    case None => None
  }

  /** `parse_salary_slip` as written: the net salary is `int` of the capture
      with its commas removed, which raises when nothing but commas was
      captured. The confidence is the share of truthy fields, rounded. */
  function ParseSalarySlipAsWritten(m: SlipMatches): (r: Result<(SlipData, real), ParseError>)
    requires SlipMatchesShaped(m)
    ensures r.Raised? <==> m.netSalary.Some? && RemoveChar(m.netSalary.GetOr(""), ',') == ""
  {
    match m.netSalary
    case Some(g) =>
      var digits := RemoveChar(g, ',');
      CommasRemoved(g);
      if digits == "" then Raised(NotAnInteger)
      else
        var d := SlipData(StripOpt(m.name), StripOpt(m.employer), Some(DigitsToNat(digits)), StripOpt(m.payPeriod));
        Ok((d, Round2((SlipCount(d) as real) / 4.0)))
    case None =>
      var d := SlipData(StripOpt(m.name), StripOpt(m.employer), None, StripOpt(m.payPeriod));
      Ok((d, Round2((SlipCount(d) as real) / 4.0)))
  }

  /** A net-salary capture of commas alone, which the pattern allows, makes
      the parser raise. */
  lemma CommasOnlySalaryRaises()
    ensures SlipMatchesShaped(SlipMatches(None, None, Some(","), None))
    ensures ParseSalarySlipAsWritten(SlipMatches(None, None, Some(","), None)).Raised?
  {
    assert RemoveChar(",", ',') == "";
  }

  /** The net salary read from a capture: its digits as a number, and no
      salary when the capture has no digit. */
  function NetSalary(g: Option<string>): (r: Option<int>)
    requires g.Some? ==> DigitsAndCommas(g.GetOr("0"))
    ensures g.Some? ==> AllDigits(RemoveChar(g.GetOr(""), ','))
    ensures r.Some? ==> g.Some? && RemoveChar(g.GetOr(""), ',') != "" &&
                        r.GetOr(0) == DigitsToNat(RemoveChar(g.GetOr(""), ','))
    ensures r.None? ==> g.None? || RemoveChar(g.GetOr(""), ',') == ""
  {
    match g
    case Some(s) =>
      CommasRemoved(s);
      if RemoveChar(s, ',') == "" then None else Some(DigitsToNat(RemoveChar(s, ',')))
    case None => None
  }

  /** `parse_salary_slip` with a capture of commas alone read as no salary:
      it never raises. The confidence is the truthy fields counted in
      quarters, so it is one of 0, 0.25, 0.5, 0.75 and 1. */
  function ParseSalarySlip(m: SlipMatches): (r: (SlipData, real))
    requires SlipMatchesShaped(m)
    ensures r.0.name == StripOpt(m.name) && r.0.employer == StripOpt(m.employer)
    ensures r.0.payPeriod == StripOpt(m.payPeriod) && r.0.netSalary == NetSalary(m.netSalary)
    ensures r.1 == (SlipCount(r.0) as real) / 4.0
    ensures r.1 in {0.0, 0.25, 0.5, 0.75, 1.0}
  {
    var d := SlipData(StripOpt(m.name), StripOpt(m.employer), NetSalary(m.netSalary), StripOpt(m.payPeriod));
    QuartersAreExact(SlipCount(d));
    (d, Round2((SlipCount(d) as real) / 4.0))
  }

  /** Wherever the parser as written returns, the corrected one returns the
      same fields and confidence. */
  lemma ParseSalarySlipAgrees(m: SlipMatches)
    requires SlipMatchesShaped(m)
    requires ParseSalarySlipAsWritten(m).Ok?
    ensures ParseSalarySlipAsWritten(m).value == ParseSalarySlip(m)
  {
    hide Strip, Round2, SlipCount, DigitsToNat;
    match m.netSalary
    case None =>
    case Some(g) =>
      CommasRemoved(g);
      assert NetSalary(m.netSalary) == Some(DigitsToNat(RemoveChar(g, ',')));
  }

  /** When no search matches, every field is empty and the confidence 0. */
  lemma NothingFoundIsZero()
    ensures SlipMatchesShaped(SlipMatches(None, None, None, None))
    ensures ParseSalarySlip(SlipMatches(None, None, None, None)) == (SlipData(None, None, None, None), 0.0)
  {
  }

  /** A net salary of 0 does not count as a filled field. */
  lemma ZeroSalaryNotCounted(d: SlipData)
    requires d.netSalary == Some(0)
    ensures SlipCount(d) == SlipCount(d.(netSalary := None))
  {
  }

  /** The identity card's fields. */
  datatype CardData = CardData(name: Option<string>, idNumber: Option<string>)

  /** `parse_id_card`: the name capture, stripped, and the leftmost PAN-like
      word of the text (`re.search`); the confidence counts the truthy fields in halves. */
  function ParseIdCard(nameGroup: Option<string>, text: string): (r: (CardData, real))
    ensures r.0.name == StripOpt(nameGroup)
    ensures r.0.idNumber.Some? <==> exists i: nat :: i <= |text| && PanAt(text, i)
    ensures r.0.idNumber.Some? ==> PanShaped(r.0.idNumber.GetOr(""))
    ensures r.0.idNumber.Some? ==> exists i: nat :: PanAt(text, i) && r.0.idNumber == Some(text[i..i + 10]) &&
                                                   forall j: nat :: j < i ==> !PanAt(text, j)
    ensures r.1 == ((if TextFilled(r.0.name) then 1 else 0) + (if r.0.idNumber.Some? then 1 else 0)) as real / 2.0
  {
    var id := match FindPan(text, 0) case Some(i) => Some(text[i..i + 10]) case None => None;
    var d := CardData(StripOpt(nameGroup), id);
    var count: nat := (if TextFilled(d.name) then 1 else 0) + (if TextFilled(d.idNumber) then 1 else 0);
    QuartersAreExact(2 * count);
    assert (2 * count) as real / 4.0 == count as real / 2.0;
    (d, Round2(count as real / 2.0))
  }
}
