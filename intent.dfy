/** `is_faq_intent`: the keyword test that sends a chat message to the policy
    documents instead of the application flow. */
module Intent {
  import opened Text

  const FaqKeywords: seq<string> := ["interest rate", "emi", "tenure", "prepayment", "charges", "penalty", "policy"]

  /** Some keyword occurs in the lower-cased text. */
  predicate IsFaqIntent(text: string): (r: bool)
    ensures r ==> |text| >= 3
    ensures Contains(Lower(text), "policy") ==> r
  {
    assert "policy" in FaqKeywords;
    assert forall k :: k in FaqKeywords ==> |k| >= 3;
    ContainsAny(Lower(text), FaqKeywords)
  }

  /** The test ignores case: upper-casing the text does not change it. */
  lemma FaqIgnoresCase(text: string)
    ensures IsFaqIntent(Upper(text)) <==> IsFaqIntent(text)
  {
    LowerOfUpper(text);
  }

  /** The empty message is not a question about the policy. */
  lemma EmptyIsNotFaq()
    ensures !IsFaqIntent("")
  {
    assert forall k :: k in FaqKeywords ==> |k| > 0;
  }

  /** Adding text never turns a policy question into something else. */
  lemma FaqExtends(s: string, t: string)
    requires IsFaqIntent(s)
    ensures IsFaqIntent(s + t)
  {
    var k :| k in FaqKeywords && Contains(Lower(s), k);
    LowerAppend(s, t);
    ContainsAppend(Lower(s), Lower(t), k);
  }
}
