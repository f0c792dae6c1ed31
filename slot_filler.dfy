/** `SlotFiller`: rules first, the language model second, for consent, the
    customer ID and the loan amount, plus the keyword test for corrections. */
module SlotFiller {
  import opened Outcomes
  import opened Text
  import opened Json
  import opened LlmClient
  import opened AmountPatterns

  /** `MIN_LOAN_AMOUNT` and `MAX_LOAN_AMOUNT` of the settings. */
  datatype LoanBounds = LoanBounds(min: real, max: real)

  /** The configured defaults, 50,000 and 5,000,000 rupees. */
  function DefaultBounds(): LoanBounds
  {
    LoanBounds(50000.0, 5000000.0)
  }

  predicate InBounds(b: LoanBounds, a: real)
  {
    b.min <= a <= b.max
  }

  function ConsentYes(): seq<string>
  {
    ["yes", "yeah", "yep", "sure", "ok", "okay", "i agree", "i consent", "proceed"]
  }

  function ConsentNo(): seq<string>
  {
    ["no", "nope", "nah", "don't", "do not", "disagree", "decline"]
  }

  /** The model's consent: a boolean value with confidence above 0.7; a
      failed call or any other reply gives None. */
  function OracleConsent(oracle: Oracle, message: string): (r: Option<bool>)
    ensures r.Some? <==> ExtractSlot(oracle, message, "consent").Ok? &&
                         SlotConfidence(ExtractSlot(oracle, message, "consent").value) > 0.7 &&
                         SlotValue(ExtractSlot(oracle, message, "consent").value).JBool?
    ensures r.Some? ==> SlotValue(ExtractSlot(oracle, message, "consent").value) == JBool(r.value)
  {
    match ExtractSlot(oracle, message, "consent")
    case Raised(_) => None
    case Ok(d) =>
      if SlotConfidence(d) > 0.7 && SlotValue(d).JBool? then Some(SlotValue(d).b) else None
  }

  /** `extract_consent`: an affirmative substring wins over a negative one,
      and the model is asked only when neither occurs. */
  function ExtractConsent(message: string, oracle: Oracle): (r: Option<bool>)
    ensures ContainsAny(Strip(Lower(message)), ConsentYes()) ==> r == Some(true)
    ensures !ContainsAny(Strip(Lower(message)), ConsentYes()) && ContainsAny(Strip(Lower(message)), ConsentNo()) ==>
              r == Some(false)
    ensures !ContainsAny(Strip(Lower(message)), ConsentYes()) && !ContainsAny(Strip(Lower(message)), ConsentNo()) ==>
              r == OracleConsent(oracle, message)
    ensures oracle == Offline ==>
              (r.Some? <==> ContainsAny(Strip(Lower(message)), ConsentYes()) || ContainsAny(Strip(Lower(message)), ConsentNo()))
  {
    var m := Strip(Lower(message));
    if ContainsAny(m, ConsentYes()) then Some(true)
    else if ContainsAny(m, ConsentNo()) then Some(false)
    else OracleConsent(oracle, message)
  }

  /** A message holding both a yes and a no counts as consent. */
  lemma YesBeatsNo(oracle: Oracle)
    ensures ExtractConsent("no, yes", oracle) == Some(true)
  {
    hide *;
    NoYesClean();
    NoYesHasYes();
  }

  lemma NoYesClean()
    ensures Strip(Lower("no, yes")) == "no, yes"
  {
    LowerOfLower("no, yes");
    StripOfTrimmed("no, yes");
  }

  lemma NoYesHasYes()
    ensures ContainsAny("no, yes", ConsentYes())
  {
    assert OccursAt("no, yes", "yes", 4);
    assert "yes" in ConsentYes();
  }

  /** The group of `\b(CUST\d{6,10}|\d{6,10})\b` when a match starts at `i`,
      given by its end; the letters match in either case. */
  function IdMatchAt(s: string, i: nat): (r: Option<nat>)
    requires i < |s|
    ensures r.Some? ==> i < r.value <= |s|
  {
    if !BoundaryBefore(s, i) then None
    else if i + 4 <= |s| && Lower(s[i..i + 4]) == "cust" &&
            6 <= RunEnd(s, i + 4, Digits) - (i + 4) <= 10 && BoundaryAfter(s, RunEnd(s, i + 4, Digits))
    then Some(RunEnd(s, i + 4, Digits))
    else if IsDigit(s[i]) && 6 <= RunEnd(s, i, Digits) - i <= 10 && BoundaryAfter(s, RunEnd(s, i, Digits))
    then Some(RunEnd(s, i, Digits))
    else None
  }

  /** The leftmost customer-ID match at or after `i`, as (start, end). */
  function IdSearch(s: string, i: nat): (r: Option<(nat, nat)>)
    ensures r.Some? ==> i <= r.value.0 < |s| && IdMatchAt(s, r.value.0) == Some(r.value.1)
    ensures r.Some? ==> forall j :: i <= j < r.value.0 ==> IdMatchAt(s, j).None?
    ensures r.None? ==> forall j :: i <= j < |s| ==> IdMatchAt(s, j).None?
    decreases |s| - i
  {
    if i >= |s| then None
    else match IdMatchAt(s, i)
      case Some(e) => Some((i, e))
      case None => IdSearch(s, i + 1)
  }

  /** `CUST` followed by six to ten digits. */
  predicate RuleIdShape(id: string)
  {
    10 <= |id| <= 14 && id[..4] == "CUST" && AllDigits(id[4..])
  }

  lemma UpperOfDigits(d: string)
    requires AllDigits(d)
    ensures Upper(d) == d
  {
  }

  /** The group upper-cased, with `CUST` put in front unless it is there
      already. */
  function NormaliseId(g: string): string
  {
    var u := Upper(g);
    if StartsWith(u, "CUST") then u else "CUST" + u
  }

  /** The group of a match always normalises to `CUST` and six to ten
      digits. */
  lemma MatchShape(s: string, i: nat)
    requires i < |s| && IdMatchAt(s, i).Some?
    ensures RuleIdShape(NormaliseId(s[i..IdMatchAt(s, i).value]))
  {
    hide NormaliseId, RuleIdShape, Upper, Lower;
    var e := IdMatchAt(s, i).value;
    if i + 4 <= |s| && Lower(s[i..i + 4]) == "cust" &&
       6 <= RunEnd(s, i + 4, Digits) - (i + 4) <= 10 && BoundaryAfter(s, RunEnd(s, i + 4, Digits)) {
      assert s[i..e] == s[i..i + 4] + s[i + 4..e];
      CustDigitsShape(s[i..i + 4], s[i + 4..e]);
    } else {
      BareDigitsShape(s[i..e]);
    }
  }

  /** `cust` in any case followed by six to ten digits. */
  lemma CustDigitsShape(p: string, d: string)
    requires |p| == 4 && Lower(p) == "cust"
    requires 6 <= |d| <= 10 && AllDigits(d)
    ensures RuleIdShape(NormaliseId(p + d))
  {
    hide Upper, Lower;
    UpperCustDigits(p, d);
    assert StartsWith("CUST" + d, "CUST");
    assert ("CUST" + d)[4..] == d;
  }

  /** Six to ten digits alone. */
  lemma BareDigitsShape(d: string)
    requires 6 <= |d| <= 10 && AllDigits(d)
    ensures RuleIdShape(NormaliseId(d))
  {
    UpperOfDigits(d);
    assert !StartsWith(d, "CUST") by { assert IsDigit(d[0]); }
    assert NormaliseId(d)[4..] == d;
  }

  /** The rule path of `extract_customer_id`: the leftmost match,
      normalised. */
  function RuleCustomerId(message: string): (r: Option<string>)
    ensures r.Some? <==> IdSearch(message, 0).Some?
    ensures r.Some? ==> RuleIdShape(r.value)
    ensures r.Some? ==> exists i, e :: 0 <= i < e <= |message| && IdMatchAt(message, i) == Some(e) &&
                                       r == Some(NormaliseId(message[i..e])) &&
                                       forall j :: 0 <= j < i ==> IdMatchAt(message, j).None?
  {
    match IdSearch(message, 0)
    case None => None
    case Some((i, e)) =>
      MatchShape(message, i);
      Some(NormaliseId(message[i..e]))
  }

  /** A message that is just six to ten digits becomes `CUST` plus those
      digits. */
  lemma BareDigitsGetPrefix(d: string)
    requires 6 <= |d| <= 10 && AllDigits(d)
    ensures RuleCustomerId(d) == Some("CUST" + d)
  {
    assert RunEnd(d, 0, Digits) == |d|;
    assert Lower(d[0..4]) != "cust" by { assert IsDigit(Lower(d[0..4])[0]); }
    assert IdMatchAt(d, 0) == Some(|d|);
    assert d[0..|d|] == d;
    UpperOfDigits(d);
    assert !StartsWith(d, "CUST") by { assert IsDigit(d[0]); }
  }

  /** The model's customer ID: any truthy value with confidence above 0.6,
      rendered as text and upper-cased, with `CUST` in front of an all-digit
      answer; there is no format check. */
  function OracleCustomerId(oracle: Oracle, message: string): (r: Option<string>)
    ensures r.Some? <==> ExtractSlot(oracle, message, "customer_id").Ok? &&
                         SlotConfidence(ExtractSlot(oracle, message, "customer_id").value) > 0.6 &&
                         Truthy(SlotValue(ExtractSlot(oracle, message, "customer_id").value))
    ensures r.Some? ==>
              var id := Upper(PyStr(SlotValue(ExtractSlot(oracle, message, "customer_id").value)));
              r.value == (if !StartsWith(id, "CUST") && IsDigits(id) then "CUST" + id else id)
  {
    match ExtractSlot(oracle, message, "customer_id")
    case Raised(_) => None
    case Ok(d) =>
      if SlotConfidence(d) > 0.6 && Truthy(SlotValue(d)) then
        var id := Upper(PyStr(SlotValue(d)));
        Some(if !StartsWith(id, "CUST") && IsDigits(id) then "CUST" + id else id)
      else None
  }

  /** `extract_customer_id`: the pattern first, the model only when no
      pattern matches. */
  function ExtractCustomerId(message: string, oracle: Oracle): (r: Option<string>)
    ensures RuleCustomerId(message).Some? ==> r == RuleCustomerId(message)
    ensures RuleCustomerId(message).None? ==> r == OracleCustomerId(oracle, message)
    ensures oracle == Offline && r.Some? ==> RuleIdShape(r.value)
  {
    if RuleCustomerId(message).Some? then RuleCustomerId(message) else OracleCustomerId(oracle, message)
  }

  /** The model's answer is taken as it is: "abc" with confidence 0.9 becomes
      the customer ID "ABC". */
  lemma OracleIdUnchecked()
    ensures ExtractCustomerId("", map[SlotQuery("", "customer_id") :=
              Decoded(map["value" := JString("abc"), "confidence" := JReal(0.9)])]) == Some("ABC")
  {
    hide ValidateSchema, Upper, SlotSchema, ExtractSlot, GenerateStructured;
    var d := map["value" := JString("abc"), "confidence" := JReal(0.9)];
    AbcReplyValid();
    var oracle := map[SlotQuery("", "customer_id") := Decoded(d)];
    ValidSlotReply(oracle, "", "customer_id");
    UpperAbc();
    assert RuleCustomerId("") == None;
    assert SlotConfidence(d) > 0.6 && Truthy(SlotValue(d)) && PyStr(SlotValue(d)) == "abc";
    assert !IsDigits("ABC") by { assert !IsDigit("ABC"[0]); }
  }

  /** A reply that passes the slot schema is the slot's reply. */
  lemma ValidSlotReply(oracle: Oracle, text: string, slotName: string)
    requires SlotQuery(text, slotName) in oracle
    requires oracle[SlotQuery(text, slotName)].Decoded?
    requires ValidateSchema(Reply(oracle[SlotQuery(text, slotName)]), SlotSchema()).Ok?
    ensures ExtractSlot(oracle, text, slotName) == Ok(Reply(oracle[SlotQuery(text, slotName)]))
  {
  }

  lemma AbcReplyValid()
    ensures ValidateSchema(map["value" := JString("abc"), "confidence" := JReal(0.9)], SlotSchema()).Ok?
  {
  }

  lemma UpperAbc()
    ensures Upper("abc") == "ABC"
  {
  }

  /** What `float()` returns: a finite value, an infinity or NaN. */
  datatype Float = Finite(x: real) | Infinite(negative: bool) | NotANumber

  function Negate(v: Float): Float
  {
    match v
    case Finite(x) => Finite(-x)
    case Infinite(n) => Infinite(!n)
    case NotANumber => NotANumber
  }

  predicate DigitsOrUnderscores(s: string)
  {
    forall k :: 0 <= k < |s| ==> IsDigit(s[k]) || s[k] == '_'
  }

  /** Digits joined by single underscores, as in `500_000`: each underscore
      stands between two digits, so the text begins and ends with a digit
      and never holds two underscores in a row. */
  predicate DigitGroups(s: string)
  {
    |s| > 0 && IsDigit(s[0]) && IsDigit(s[|s| - 1]) && DigitsOrUnderscores(s) && !Contains(s, "__")
  }

  /** Dropping the underscores of digit groups leaves digits. */
  lemma UngroupDigits(s: string)
    requires DigitsOrUnderscores(s)
    ensures AllDigits(RemoveChar(s, '_'))
  {
    var r := RemoveChar(s, '_');
    forall i | 0 <= i < |r| ensures IsDigit(r[i]) {
      assert r[i] in r;
      var k :| 0 <= k < |s| && s[k] == r[i];
    }
  }

  /** The value of digit groups, underscores ignored. */
  function UngroupedValue(s: string): nat
    requires DigitsOrUnderscores(s)
  {
    UngroupDigits(s);
    DigitsToNat(RemoveChar(s, '_'))
  }

  /** The value of whole and fraction digit groups around a point: the
      fraction counts in tenths, hundredths and so on. */
  function PointValue(w: string, f: string): (r: real)
    requires DigitsOrUnderscores(w) && DigitsOrUnderscores(f)
    ensures r >= 0.0
  {
    var whole, frac, scale := UngroupedValue(w) as real, UngroupedValue(f) as real, Pow10(|RemoveChar(f, '_')|) as real;
    NonNegativeShare(frac, scale);
    whole + frac / scale
  }

  lemma NonNegativeShare(x: real, y: real)
    requires x >= 0.0 && y > 0.0
    ensures x / y >= 0.0
  {
  }

  /** The index of the first `c1` or `c2` in `s`, or `|s|` when neither occurs. */
  function FirstOf(s: string, c1: char, c2: char): (i: nat)
    ensures i <= |s|
    ensures forall k :: 0 <= k < i ==> s[k] != c1 && s[k] != c2
    ensures i < |s| ==> s[i] == c1 || s[i] == c2
  {
    if s == [] || s[0] == c1 || s[0] == c2 then 0 else 1 + FirstOf(s[1..], c1, c2)
  }

  /** The part of a float literal before its exponent: `5`, `5.`, `.5` or
      `5.25`, each run of digits optionally grouped with underscores. */
  function Mantissa(m: string): (r: Option<real>)
    ensures r.Some? ==> r.value >= 0.0
  {
    var p := FirstOf(m, '.', '.');
    if p == |m| then
      if DigitGroups(m) then Some(UngroupedValue(m) as real) else None
    else
      var w, f := m[..p], m[p + 1..];
      if (w == [] || DigitGroups(w)) && (f == [] || DigitGroups(f)) && (w != [] || f != []) then
        Some(PointValue(w, f))
      else None
  }

  /** The exponent after `e` or `E`: an optional sign and digit groups. */
  function Exponent(e: string): Option<int>
  {
    if |e| > 0 && (e[0] == '+' || e[0] == '-') then
      if DigitGroups(e[1..]) then Some(if e[0] == '-' then -(UngroupedValue(e[1..]) as int) else UngroupedValue(e[1..])) else None
    else if DigitGroups(e) then Some(UngroupedValue(e)) else None
  }

  /** `x` times ten to the power `k`. */
  function Scale10(x: real, k: int): real
  {
    if k >= 0 then x * Pow10(k) as real else x / Pow10(-k) as real
  }

  /** An unsigned float literal, or `inf`, `infinity` or `nan` in any case. */
  function UnsignedFloat(u: string): Option<Float>
  {
    var l := Lower(u);
    if l == "inf" || l == "infinity" then Some(Infinite(false))
    else if l == "nan" then Some(NotANumber)
    else
      var q := FirstOf(u, 'e', 'E');
      match Mantissa(u[..q])
      case None => None
      case Some(m) =>
        if q == |u| then Some(Finite(m))
        else
          match Exponent(u[q + 1..])
          case Some(k) => Some(Finite(Scale10(m, k)))
          case None => None
  }

  /** `float(s)` of a string: white space around it is ignored, a sign may
      lead, and the rest is a decimal literal or a spelling of infinity or
      NaN; anything else raises `ValueError`, which is `None` here. */
  function FloatOfString(s: string): (r: Option<Float>)
    ensures Strip(s) == [] ==> r.None?
  {
    var t := Strip(s);
    if |t| > 0 && (t[0] == '+' || t[0] == '-') then
      match UnsignedFloat(t[1..])
      case Some(v) => Some(if t[0] == '-' then Negate(v) else v)
      case None => None
    else UnsignedFloat(t)
  }

  /** `float(value)` of a model answer: booleans and numbers convert, a
      string converts as `float` reads it, and anything else raises
      `TypeError`, which is `None` here. */
  function PyFloat(v: Json): Option<Float>
  {
    match v
    case JBool(b) => Some(Finite(if b then 1.0 else 0.0))
    case JInt(i) => Some(Finite(i as real))
    case JReal(x) => Some(Finite(x))
    case JString(s) => FloatOfString(s)
    case _ => None
  }

  /** White space around the text does not matter. */
  lemma StripIgnored(s: string)
    ensures FloatOfString(s) == FloatOfString(Strip(s))
  {
    hide Strip, LStrip, RStrip, UnsignedFloat, Lower;
    var t := Strip(s);
    if t == [] {
      StripEmpty(t);
    } else {
      StripOfTrimmed(t);
    }
    assert Strip(t) == t;
  }

  /** A text with nothing to strip and no sign is read as unsigned. */
  lemma TrimmedUnsigned(t: string)
    requires |t| > 0 && !IsSpace(t[0]) && !IsSpace(t[|t| - 1]) && t[0] != '+' && t[0] != '-'
    ensures FloatOfString(t) == UnsignedFloat(t)
  {
    StripOfTrimmed(t);
    hide Strip, UnsignedFloat;
  }

  /** A text that begins with a digit spells neither infinity nor NaN. */
  lemma NotSpecial(t: string)
    requires |t| > 0 && IsDigit(t[0])
    ensures Lower(t) != "inf" && Lower(t) != "infinity" && Lower(t) != "nan"
  {
    assert Lower(t)[0] == t[0];
  }

  /** A text that begins and ends with a digit is read as an unsigned
      literal: there is nothing to strip, no sign, and it spells neither
      infinity nor NaN. */
  lemma DigitLed(t: string)
    requires |t| > 0 && IsDigit(t[0]) && IsDigit(t[|t| - 1])
    ensures FloatOfString(t) == UnsignedFloat(t)
    ensures Lower(t) != "inf" && Lower(t) != "infinity" && Lower(t) != "nan"
  {
    hide FloatOfString, UnsignedFloat, Lower;
    TrimmedUnsigned(t);
    NotSpecial(t);
  }

  /** A digit-led literal without an exponent is worth its mantissa, and is
      refused when it has none. */
  lemma ExponentFree(t: string)
    requires |t| > 0 && IsDigit(t[0]) && IsDigit(t[|t| - 1])
    requires forall k :: 0 <= k < |t| ==> t[k] != 'e' && t[k] != 'E'
    ensures FloatOfString(t) == if Mantissa(t).Some? then Some(Finite(Mantissa(t).value)) else None
  {
    DigitLed(t);
    hide FloatOfString, Lower, Mantissa;
    assert FirstOf(t, 'e', 'E') == |t|;
    assert t[..|t|] == t;
  }

  /** A digit-led literal without an exponent is worth its mantissa. */
  lemma PlainLiteral(t: string)
    requires |t| > 0 && IsDigit(t[0]) && IsDigit(t[|t| - 1])
    requires forall k :: 0 <= k < |t| ==> t[k] != 'e' && t[k] != 'E'
    requires Mantissa(t).Some?
    ensures FloatOfString(t) == Some(Finite(Mantissa(t).value))
  {
    ExponentFree(t);
  }

  /** A mantissa of digits, `e` or `E`, and an exponent are worth the
      mantissa scaled by the exponent. */
  lemma ExponentLiteral(a: string, c: char, e: string)
    requires IsDigits(a) && (c == 'e' || c == 'E') && |e| > 0 && IsDigit(e[|e| - 1])
    requires Mantissa(a).Some? && Exponent(e).Some?
    ensures FloatOfString(a + [c] + e) == Some(Finite(Scale10(Mantissa(a).value, Exponent(e).value)))
  {
    var t := a + [c] + e;
    assert t[0] == a[0] && t[|t| - 1] == e[|e| - 1];
    DigitLed(t);
    SplitAtSeparator(a, c, e, 'e', 'E');
    assert UnsignedFloat(t) == Some(Finite(Scale10(Mantissa(a).value, Exponent(e).value))) by {
      hide FloatOfString, Lower, Mantissa, Exponent, FirstOf, Scale10;
    }
    hide FloatOfString, UnsignedFloat;
  }

  /** A text whose every character but the one at `j` is a digit holds no
      two underscores in a row. */
  lemma OneUnderscoreAtMost(t: string, j: int)
    requires forall k :: 0 <= k < |t| && k != j ==> IsDigit(t[k])
    ensures !Contains(t, "__")
  {
    forall i: nat | i <= |t| ensures !OccursAt(t, "__", i) {
      if i + 2 <= |t| {
        assert t[i..i + 2][0] == t[i] && t[i..i + 2][1] == t[i + 1];
      }
    }
  }

  /** Scaling a whole number up by ten to a natural power stays whole. */
  lemma ScaleUp(x: nat, k: nat)
    ensures Scale10(x as real, k) == (x * Pow10(k)) as real
  {
  }

  /** A run of digits is its own digit group. */
  lemma DigitsAreGroups(d: string)
    requires IsDigits(d)
    ensures DigitGroups(d) && UngroupedValue(d) == DigitsToNat(d)
  {
    OneUnderscoreAtMost(d, -1);
    RemoveCharAbsent(d, '_');
  }

  /** Looking for `c1` or `c2` skips a prefix that holds neither. */
  lemma {:induction false} FirstOfAfter(a: string, x: string, c1: char, c2: char)
    requires forall k :: 0 <= k < |a| ==> a[k] != c1 && a[k] != c2
    ensures FirstOf(a + x, c1, c2) == |a| + FirstOf(x, c1, c2)
    decreases |a|
  {
    if a != [] {
      assert (a + x)[1..] == a[1..] + x;
      FirstOfAfter(a[1..], x, c1, c2);
    } else {
      assert a + x == x;
    }
  }

  /** Digits alone are a mantissa worth the number they spell. */
  lemma MantissaDigits(d: string)
    requires IsDigits(d)
    ensures Mantissa(d) == Some(DigitsToNat(d) as real)
  {
    assert FirstOf(d, '.', '.') == |d|;
    DigitsAreGroups(d);
  }

  /** A string of digits alone converts to the number it spells. */
  lemma DigitsFloat(d: string)
    requires IsDigits(d)
    ensures FloatOfString(d) == Some(Finite(DigitsToNat(d) as real))
  {
    MantissaDigits(d);
    hide Mantissa;
    PlainLiteral(d);
  }

  /** Two digit runs joined by an underscore are digit groups worth the two
      runs written together. */
  lemma JoinedGroups(a: string, b: string)
    requires IsDigits(a) && IsDigits(b)
    ensures DigitGroups(a + "_" + b) && UngroupedValue(a + "_" + b) == DigitsToNat(a + b)
  {
    var t := a + "_" + b;
    assert forall k :: 0 <= k < |t| ==> IsDigit(t[k]) || (k == |a| && t[k] == '_');
    OneUnderscoreAtMost(t, |a|);
    assert RemoveChar("_", '_') == [];
    RemoveCharAppend(a + "_", b, '_');
    RemoveCharAppend(a, "_", '_');
    RemoveCharAbsent(a, '_');
    RemoveCharAbsent(b, '_');
    hide RemoveChar;
    assert a + [] == a;
    assert RemoveChar(a + "_", '_') == a;
    assert RemoveChar(t, '_') == a + b;
  }

  /** Digits joined by one underscore convert to the digits without it. */
  lemma GroupedDigitsFloat(a: string, b: string)
    requires IsDigits(a) && IsDigits(b)
    ensures FloatOfString(a + "_" + b) == Some(Finite(DigitsToNat(a + b) as real))
  {
    var t := a + "_" + b;
    assert t[0] == a[0] && t[|t| - 1] == b[|b| - 1];
    assert forall k :: 0 <= k < |t| ==> IsDigit(t[k]) || t[k] == '_';
    JoinedGroups(a, b);
    assert Mantissa(t) == Some(DigitsToNat(a + b) as real) by {
      hide DigitGroups, UngroupedValue;
      assert FirstOf(t, '.', '.') == |t|;
    }
    hide Mantissa, FloatOfString, DigitGroups, UngroupedValue;
    PlainLiteral(t);
  }

  /** Splitting `a`, one separator and `b` at the first separator gives
      back `a` and `b`. */
  lemma SplitAtSeparator(a: string, c: char, b: string, c1: char, c2: char)
    requires forall k :: 0 <= k < |a| ==> a[k] != c1 && a[k] != c2
    requires c == c1 || c == c2
    ensures FirstOf(a + [c] + b, c1, c2) == |a|
    ensures (a + [c] + b)[..|a|] == a && (a + [c] + b)[|a| + 1..] == b
  {
    FirstOfAfter(a, [c] + b, c1, c2);
    assert a + [c] + b == a + ([c] + b);
  }

  /** Digit groups, a point and digit groups are a mantissa: the whole part
      plus the fraction over ten to the number of its digits. */
  lemma MantissaOfGroups(a: string, f: string)
    requires DigitGroups(a) && DigitGroups(f) && '.' !in a
    ensures Mantissa(a + "." + f) == Some(PointValue(a, f))
  {
    assert a != [] && f != [];
    hide DigitGroups, PointValue, FirstOf;
    SplitAtSeparator(a, '.', f, '.', '.');
    assert a + ['.'] + f == a + "." + f;
  }

  /** Digits, a point and digits are a mantissa worth the decimal they
      spell. */
  lemma MantissaPoint(a: string, f: string)
    requires IsDigits(a) && IsDigits(f)
    ensures Mantissa(a + "." + f) == Some(Decimal(DigitsToNat(a), DigitsToNat(f), Pow10(|f|)))
  {
    hide Mantissa, DigitGroups, PointValue, FirstOf, DigitsToNat, Pow10, Decimal;
    assert DigitGroups(a) && DigitGroups(f) && '.' !in a by {
      DigitsAreGroups(a);
      DigitsAreGroups(f);
    }
    MantissaOfGroups(a, f);
    GroupsDecimal(a, f);
  }

  lemma GroupsDecimal(a: string, f: string)
    requires IsDigits(a) && IsDigits(f)
    ensures DigitsOrUnderscores(a) && DigitsOrUnderscores(f)
    ensures PointValue(a, f) == Decimal(DigitsToNat(a), DigitsToNat(f), Pow10(|f|))
  {
    DigitsAreGroups(a);
    DigitsAreGroups(f);
    RemoveCharAbsent(f, '_');
    var w, fr, sc := DigitsToNat(a), DigitsToNat(f), Pow10(|f|);
    assert Decimal(w, fr, sc) == w as real + fr as real / sc as real;
    hide DigitGroups, UngroupedValue, RemoveChar, DigitsToNat, Pow10, Decimal;
    assert UngroupedValue(a) == w && UngroupedValue(f) == fr && Pow10(|RemoveChar(f, '_')|) == sc;
  }

  /** Digits, a point and digits convert to the decimal they spell, as the
      digits-and-dots reading `ParseDecimal` gives it. */
  lemma PointFloat(a: string, f: string)
    requires IsDigits(a) && IsDigits(f)
    ensures FloatOfString(a + "." + f) == Some(Finite(ParseDecimal(a + "." + f).value))
  {
    var t := a + "." + f;
    assert t[0] == a[0] && t[|t| - 1] == f[|f| - 1];
    assert forall k :: 0 <= k < |t| ==> IsDigit(t[k]) || t[k] == '.';
    MantissaPoint(a, f);
    ParsePoint(a, f);
    assert a + ['.'] + f == t;
    hide Mantissa, ParseDecimal, Decimal, FloatOfString;
    PlainLiteral(t);
  }

  /** Digits, `e` or `E`, and digits convert to the first number times ten to
      the second. */
  lemma ExponentFloat(a: string, c: char, e: string)
    requires IsDigits(a) && IsDigits(e) && (c == 'e' || c == 'E')
    ensures FloatOfString(a + [c] + e) == Some(Finite((DigitsToNat(a) * Pow10(DigitsToNat(e))) as real))
  {
    MantissaDigits(a);
    DigitsAreGroups(e);
    assert Exponent(e) == Some(DigitsToNat(e) as int);
    ScaleUp(DigitsToNat(a), DigitsToNat(e));
    hide Mantissa, Exponent, FloatOfString, DigitGroups, UngroupedValue, DigitsToNat, Pow10, Scale10;
    ExponentLiteral(a, c, e);
  }

  /** A leading `+` changes nothing and a leading `-` negates. */
  lemma SignedFloat(u: string)
    requires u != [] && !IsSpace(u[0]) && !IsSpace(u[|u| - 1]) && u[0] != '+' && u[0] != '-'
    ensures FloatOfString("+" + u) == FloatOfString(u)
    ensures FloatOfString("-" + u) == (if FloatOfString(u).Some? then Some(Negate(FloatOfString(u).value)) else None)
  {
    hide UnsignedFloat, Strip, LStrip, RStrip;
    StripOfTrimmed(u);
    StripOfTrimmed("+" + u);
    StripOfTrimmed("-" + u);
    assert ("+" + u)[1..] == u && ("-" + u)[1..] == u;
  }

  /** "500000" spells five lakh. */
  lemma FiveLakhDigits()
    ensures IsDigits("500000") && DigitsToNat("500000") == 500000
  {
    assert "500000"[..5] == "50000" && "50000"[..4] == "5000" && "5000"[..3] == "500";
    assert "500"[..2] == "50" && "50"[..1] == "5" && "5"[..0] == "";
  }

  /** A space in front changes nothing. */
  lemma LeadingSpaceIgnored(x: string)
    ensures FloatOfString(" " + x) == FloatOfString(x)
  {
    SpaceStripped(x);
    hide Strip, LStrip, RStrip, UnsignedFloat, Lower, Mantissa, Exponent, FirstOf;
  }

  lemma SpaceStripped(x: string)
    ensures Strip(" " + x) == Strip(x)
  {
    assert (" " + x)[1..] == x;
    assert LStrip(" " + x) == LStrip(x);
    hide LStrip, RStrip;
  }

  /** White space in front of the digits of five lakh is ignored. */
  lemma SpacedFiveLakh()
    ensures FloatOfString(" 500000") == Some(Finite(500000.0))
  {
    FiveLakhDigits();
    hide FloatOfString, DigitsToNat, IsDigits, Strip, LStrip, RStrip;
    assert " " + "500000" == " 500000";
    LeadingSpaceIgnored("500000");
    DigitsFloat("500000");
  }

  /** Five lakh grouped with an underscore. */
  lemma GroupedFiveLakh()
    ensures FloatOfString("500_000") == Some(Finite(500000.0))
  {
    FiveLakhDigits();
    assert "500" + "000" == "500000";
    assert IsDigits("500") && IsDigits("000");
    hide FloatOfString, DigitsToNat, IsDigits;
    assert "500" + "_" + "000" == "500_000";
    GroupedDigitsFloat("500", "000");
  }

  /** A digit-led text without a point or an exponent that is not digit
      groups is refused. */
  lemma NotGroupsRefused(t: string)
    requires |t| > 0 && IsDigit(t[0]) && !IsSpace(t[|t| - 1])
    requires forall k :: 0 <= k < |t| ==> t[k] != 'e' && t[k] != 'E' && t[k] != '.'
    requires !DigitGroups(t)
    ensures FloatOfString(t) == None
  {
    NotSpecial(t);
    TrimmedUnsigned(t);
    assert FirstOf(t, 'e', 'E') == |t| && t[..|t|] == t;
    assert FirstOf(t, '.', '.') == |t|;
    hide FloatOfString, Lower, DigitGroups;
  }

  /** A doubled underscore, or one at the end, is refused. */
  lemma MisplacedUnderscores()
    ensures FloatOfString("5__000") == None
    ensures FloatOfString("5_") == None
  {
    hide FloatOfString, Lower, Strip, LStrip, RStrip, UnsignedFloat, Mantissa, Exponent, FirstOf;
    assert !DigitGroups("5__000") by {
      assert OccursAt("5__000", "__", 1);
    }
    assert !DigitGroups("5_") by {
      assert !IsDigit("5_"[1]);
    }
    NotGroupsRefused("5__000");
    NotGroupsRefused("5_");
  }

  /** A second point is refused. */
  lemma SecondPointRefused(a: string, b: string, c: string)
    requires IsDigits(a) && IsDigits(b) && IsDigits(c)
    ensures FloatOfString(a + "." + b + "." + c) == None
  {
    var f := b + "." + c;
    var t := a + "." + f;
    assert t == a + "." + b + "." + c;
    assert t[0] == a[0] && t[|t| - 1] == c[|c| - 1];
    assert forall k :: 0 <= k < |t| ==> IsDigit(t[k]) || t[k] == '.';
    assert f[|b|] == '.';
    assert !DigitGroups(f);
    PointThenNonGroups(a, f);
    hide FloatOfString, Lower, DigitGroups, FirstOf, Exponent, Mantissa;
    ExponentFree(t);
  }

  /** A point followed by something that is not digit groups is no
      mantissa. */
  lemma PointThenNonGroups(a: string, f: string)
    requires IsDigits(a) && f != [] && !DigitGroups(f)
    ensures Mantissa(a + "." + f) == None
  {
    SplitAtSeparator(a, '.', f, '.', '.');
    assert a + ['.'] + f == a + "." + f;
    hide DigitGroups, FirstOf, UngroupedValue;
  }

  /** An exponent marker with nothing after it is refused. */
  lemma EmptyExponentRefused(a: string, c: char)
    requires IsDigits(a) && (c == 'e' || c == 'E')
    ensures FloatOfString(a + [c]) == None
  {
    var t := a + [c];
    assert t[0] == a[0];
    NotSpecial(t);
    TrimmedUnsigned(t);
    SplitAtSeparator(a, c, [], 'e', 'E');
    assert a + [c] + [] == t;
    hide FloatOfString, Lower, DigitGroups, FirstOf, Mantissa;
  }

  /** "1.2.3" and "5e" are refused. */
  lemma MalformedNumbers()
    ensures FloatOfString("1.2.3") == None
    ensures FloatOfString("5e") == None
  {
    assert IsDigits("1") && IsDigits("2") && IsDigits("3") && IsDigits("5");
    hide FloatOfString, IsDigits;
    assert "1" + "." + "2" + "." + "3" == "1.2.3";
    assert "5" + ['e'] == "5e";
    SecondPointRefused("1", "2", "3");
    EmptyExponentRefused("5", 'e');
  }

  /** A word is refused, and so is blank text. */
  lemma WordRefused()
    ensures FloatOfString("five") == None
    ensures FloatOfString(" ") == None
  {
    assert Lower("five") == "five";
    assert Strip(" ") == [];
    StripOfTrimmed("five");
    assert FirstOf("five", 'e', 'E') == 3;
    assert "five"[..3] == "fiv";
    assert FirstOf("fiv", '.', '.') == 3;
    hide Lower, Strip, FirstOf;
  }

  /** A spelling of infinity is positive infinity. */
  lemma SpelledInfinity(u: string)
    requires Lower(u) == "inf" || Lower(u) == "infinity"
    ensures UnsignedFloat(u) == Some(Infinite(false))
  {
    hide Lower, Mantissa, Exponent, FirstOf;
  }

  /** `inf` in lower case is positive infinity. */
  lemma InfinitySpelt()
    ensures FloatOfString("inf") == Some(Infinite(false))
  {
    assert Lower("inf") == "inf";
    TrimmedUnsigned("inf");
    hide Lower, FloatOfString;
    SpelledInfinity("inf");
  }

  /** A sign and any case are allowed: " -Infinity" is negative infinity. */
  lemma NegativeInfinitySpelt()
    ensures FloatOfString(" -Infinity") == Some(Infinite(true))
  {
    hide FloatOfString;
    assert " -Infinity" == " " + "-Infinity";
    LeadingSpaceIgnored("-Infinity");
    MinusInfinity();
  }

  lemma MinusInfinity()
    ensures FloatOfString("-Infinity") == Some(Infinite(true))
  {
    hide Lower, UnsignedFloat, Strip, LStrip, RStrip, Mantissa, Exponent, FirstOf;
    CapitalInfinity();
    StripOfTrimmed("-Infinity");
    assert "-Infinity"[1..] == "Infinity";
  }

  lemma CapitalInfinity()
    ensures UnsignedFloat("Infinity") == Some(Infinite(false))
  {
    assert Lower("Infinity") == "infinity";
    hide Lower;
    SpelledInfinity("Infinity");
  }

  /** "NaN" is NaN. */
  lemma NaNSpelt()
    ensures FloatOfString("NaN") == Some(NotANumber)
  {
    assert Lower("NaN") == "nan";
    StripOfTrimmed("NaN");
    hide Lower, Strip;
  }

  /** Exponent spellings of five lakh, with and without a sign. */
  lemma FiveLakhExponents()
    ensures FloatOfString("5e5") == Some(Finite(500000.0))
    ensures FloatOfString("+5E5") == Some(Finite(500000.0))
  {
    assert DigitsToNat("5") * Pow10(DigitsToNat("5")) == 500000;
    assert IsDigits("5");
    assert !IsSpace('5');
    hide FloatOfString, DigitsToNat, Pow10, IsDigits, IsSpace;
    assert "5" + ['e'] + "5" == "5e5";
    assert "5" + ['E'] + "5" == "5E5";
    assert "+" + "5E5" == "+5E5";
    ExponentFloat("5", 'e', "5");
    ExponentFloat("5", 'E', "5");
    SignedFloat("5E5");
  }

  /** A point reads as a decimal point. */
  lemma FractionSpelling()
    ensures FloatOfString("4.5") == Some(Finite(4.5))
  {
    assert IsDigits("4") && IsDigits("5");
    ParsePoint("4", "5");
    assert "4" + ['.'] + "5" == "4" + "." + "5" == "4.5";
    assert Decimal(DigitsToNat("4"), DigitsToNat("5"), Pow10(|"5"|)) == 4.5;
    hide FloatOfString, ParseDecimal, Decimal, DigitsToNat, Pow10, IsDigits;
    PointFloat("4", "5");
  }

  /** The pattern loop of `extract_loan_amount` from pattern `k` on: the
      first match whose amount lies in range; a match out of range, or one
      whose number does not parse, hands over to the next pattern. */
  function RuleAmount(message: string, b: LoanBounds, k: nat): (r: Option<real>)
    requires k <= 6
    ensures r.Some? ==> InBounds(b, r.value)
    decreases 6 - k
  {
    if k == 6 then None
    else
      match Search(message, 0, k)
      case Some(h) =>
        var a := HitAmount(message, h);
        if a.Some? && InBounds(b, a.value) then a else RuleAmount(message, b, k + 1)
      case None => RuleAmount(message, b, k + 1)
  }

  /** The model's amount: a truthy value with confidence above 0.6 that
      converts to a number in range. */
  function OracleAmount(oracle: Oracle, message: string, b: LoanBounds): (r: Option<real>)
    ensures r.Some? ==> InBounds(b, r.value)
    ensures r.Some? <==>
              (ExtractSlot(oracle, message, "loan_amount").Ok? &&
               var d := ExtractSlot(oracle, message, "loan_amount").value;
               SlotConfidence(d) > 0.6 && Truthy(SlotValue(d)) && PyFloat(SlotValue(d)).Some? &&
               PyFloat(SlotValue(d)).value.Finite? && InBounds(b, PyFloat(SlotValue(d)).value.x))
    ensures r.Some? ==> PyFloat(SlotValue(ExtractSlot(oracle, message, "loan_amount").value)) == Some(Finite(r.value))
  {
    match ExtractSlot(oracle, message, "loan_amount")
    case Raised(_) => None
    case Ok(d) =>
      if SlotConfidence(d) > 0.6 && Truthy(SlotValue(d)) then
        match PyFloat(SlotValue(d))
        case Some(Finite(a)) => if InBounds(b, a) then Some(a) else None
        case _ => None
      else None
  }

  /** The model's answer " 500000" is taken as five lakh when that is in
      range: `float` ignores the space. */
  lemma SpacedAnswerTaken(oracle: Oracle, message: string, b: LoanBounds)
    requires ExtractSlot(oracle, message, "loan_amount").Ok?
    requires SlotValue(ExtractSlot(oracle, message, "loan_amount").value) == JString(" 500000")
    requires SlotConfidence(ExtractSlot(oracle, message, "loan_amount").value) > 0.6
    requires InBounds(b, 500000.0)
    ensures OracleAmount(oracle, message, b) == Some(500000.0)
  {
    hide OracleAmount, FloatOfString, ExtractSlot, Strip, LStrip, RStrip, UnsignedFloat;
    SpacedFiveLakh();
    var d := ExtractSlot(oracle, message, "loan_amount").value;
    assert Truthy(SlotValue(d));
    assert PyFloat(SlotValue(d)) == Some(Finite(500000.0));
  }

  /** The model's answer "inf" converts, but to an infinity, which no range
      holds. */
  lemma InfiniteAnswerRefused(oracle: Oracle, message: string, b: LoanBounds)
    requires ExtractSlot(oracle, message, "loan_amount").Ok?
    requires SlotValue(ExtractSlot(oracle, message, "loan_amount").value) == JString("inf")
    ensures OracleAmount(oracle, message, b) == None
  {
    hide OracleAmount, FloatOfString, ExtractSlot, Strip, LStrip, RStrip, UnsignedFloat, Lower;
    InfinitySpelt();
    var d := ExtractSlot(oracle, message, "loan_amount").value;
    assert PyFloat(SlotValue(d)) == Some(Infinite(false));
  }

  /** `extract_loan_amount`: whatever it returns lies between the configured
      minimum and maximum, on the rule path and on the model path alike. */
  function ExtractLoanAmount(message: string, b: LoanBounds, oracle: Oracle): (r: Option<real>)
    ensures r.Some? ==> InBounds(b, r.value)
    ensures RuleAmount(message, b, 0).Some? ==> r == RuleAmount(message, b, 0)
    ensures RuleAmount(message, b, 0).None? ==> r == OracleAmount(oracle, message, b)
    ensures oracle == Offline ==> r == RuleAmount(message, b, 0)
  {
    if RuleAmount(message, b, 0).Some? then RuleAmount(message, b, 0) else OracleAmount(oracle, message, b)
  }

  /** An in-range match of a pattern wins over every later pattern, and an
      out-of-range match gives way to them. */
  lemma PatternOrder(message: string, b: LoanBounds, k: nat)
    requires k < 6 && Search(message, 0, k).Some?
    ensures HitAmount(message, Search(message, 0, k).value).Some?
    ensures var a := HitAmount(message, Search(message, 0, k).value).value;
            RuleAmount(message, b, k) == if InBounds(b, a) then Some(a) else RuleAmount(message, b, k + 1)
  {
    SearchAlwaysParses(message, k);
  }

  function CorrectionWords(): seq<string>
  {
    ["actually", "wait", "no", "correction", "change", "wrong", "meant to say", "i mean", "not", "instead"]
  }

  /** `detect_correction`: "CORRECTION_DETECTED" exactly when one of the ten
      keywords occurs in the lower-cased message. */
  function DetectCorrection(message: string): (r: Option<string>)
    ensures r.Some? <==> ContainsAny(Lower(message), CorrectionWords())
    ensures r.Some? ==> r.value == "CORRECTION_DETECTED"
  {
    if ContainsAny(Lower(message), CorrectionWords()) then Some("CORRECTION_DETECTED") else None
  }

  /** Any message containing "no" reads as a correction, including "not"
      and "know". */
  lemma NoIsCorrection(message: string)
    requires Contains(Lower(message), "no")
    ensures DetectCorrection(message).Some?
  {
    assert "no" in CorrectionWords();
  }
}
