/** The in-memory customer and bureau tables and the consent log. */
module MockServices {
  import opened Outcomes

  /** A CRM record. `monthly_income` and `existing_emi` are optional keys of
      the record as far as its readers are concerned. */
  datatype CustomerProfile = CustomerProfile(
    customerId: string,
    name: string,
    segment: string,
    monthlyIncome: Option<int>,
    existingEmi: Option<int>,
    preApprovedLimit: int,
    pan: string)

  /** A credit bureau record; `credit_score` may be absent. */
  datatype BureauReport = BureauReport(
    customerId: string,
    creditScore: Option<int>,
    delinquencyFlags: seq<string>)

  /** The ids of the three fixtures, the keys of both tables. */
  predicate IsFixtureId(customerId: string)
  {
    customerId == "CUST001" || customerId == "CUST002" || customerId == "CUST003"
  }

  /** `get_crm_profile`: the `CUSTOMERS` entry, or None for an unknown id. */
  function GetCrmProfile(customerId: string): (r: Option<CustomerProfile>)
    ensures r.Some? <==> IsFixtureId(customerId)
    ensures r.Some? ==> r.value.customerId == customerId
  {
    if customerId == "CUST001" then
      Some(CustomerProfile("CUST001", "Adarsh Verma", "salaried", Some(60000), Some(5000), 500000, "ABCDE1234F"))
    else if customerId == "CUST002" then
      Some(CustomerProfile("CUST002", "Neha Verma", "salaried", Some(40000), Some(8000), 200000, "PQRSX5678Z"))
    else if customerId == "CUST003" then
      Some(CustomerProfile("CUST003", "Kas Kla", "self-employed", Some(30000), Some(10000), 100000, "LMNOP9876K"))
    else None
  }

  /** `get_bureau_report`: the `BUREAU` entry, or None for an unknown id. */
  function GetBureauReport(customerId: string): (r: Option<BureauReport>)
    ensures r.Some? <==> IsFixtureId(customerId)
    ensures r.Some? ==> r.value.customerId == customerId
  {
    if customerId == "CUST001" then Some(BureauReport("CUST001", Some(780), []))
    else if customerId == "CUST002" then Some(BureauReport("CUST002", Some(710), []))
    else if customerId == "CUST003" then Some(BureauReport("CUST003", Some(620), ["high_delinquency_risk"]))
    else None
  }

  /** CUST001 and CUST003 carry the income, EMI and score the underwriting
      examples use, and an id outside the tables finds nothing. */
  lemma Fixtures()
    ensures GetCrmProfile("CUST001").Some? && GetCrmProfile("CUST001").value.monthlyIncome == Some(60000)
    ensures GetCrmProfile("CUST001").value.existingEmi == Some(5000)
    ensures GetBureauReport("CUST001") == Some(BureauReport("CUST001", Some(780), []))
    ensures GetCrmProfile("CUST003").Some? && GetCrmProfile("CUST003").value.monthlyIncome == Some(30000)
    ensures GetCrmProfile("CUST003").value.existingEmi == Some(10000)
    ensures GetBureauReport("CUST003").Some? && GetBureauReport("CUST003").value.creditScore == Some(620)
    ensures GetCrmProfile("CUST004") == None && GetBureauReport("CUST004") == None
  {
  }

  datatype ConsentEntry = ConsentEntry(customerId: string, consentText: string, channel: string, timestamp: string)

  /** `CONSENT_LOG`, the append-only list of recorded consents. */
  class ConsentLog {
    var entries: seq<ConsentEntry>

    constructor ()
      ensures entries == []
    {
      entries := [];
    }

    /** `record_consent`: appends exactly one entry and returns it. The
        wall-clock timestamp is a parameter; the default channel is "chat". */
    method RecordConsent(customerId: string, consentText: string, channel: Option<string>, now: string)
      returns (entry: ConsentEntry)
      modifies this
      ensures entry.customerId == customerId && entry.consentText == consentText
      ensures entry.channel == channel.GetOr("chat") && entry.timestamp == now
      ensures entries == old(entries) + [entry]
    {
      entry := ConsentEntry(customerId, consentText, channel.GetOr("chat"), now);
      entries := entries + [entry];
    }
  }
}
