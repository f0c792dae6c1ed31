/** The structured-data step of `OCREngine`: which fields are read off the
    recognised text of a salary slip, a PAN card or an Aadhaar card, and how
    the fields found on the pages of a scanned PDF are merged. The regular
    expressions that find salary figures, Aadhaar numbers, names, dates of
    birth and genders are inputs (what each pattern matched, in order); the
    PAN search is modelled character by character. */
module OcrEngine {
  import opened Outcomes
  import opened Text
  import opened Json

  /** What the patterns found in the text, pattern by pattern and in the
      order the code tries them: the captured group of a search that
      matched, or the list `findall` returned. */
  datatype Matches = Matches(
    salary: seq<Option<string>>,
    aadhaarNumbers: seq<seq<string>>,
    names: seq<Option<string>>,
    dobs: seq<Option<string>>,
    gender: Option<string>)

  /** The first pattern that matched. */
  function FirstMatch(groups: seq<Option<string>>): (r: Option<string>)
    ensures r.Some? <==> exists i :: 0 <= i < |groups| && groups[i].Some?
    ensures r.Some? ==> exists i :: 0 <= i < |groups| && groups[i] == r &&
                                    forall j :: 0 <= j < i ==> groups[j].None?
  {
    if groups == [] then None
    else if groups[0].Some? then groups[0]
    else
      var rest := FirstMatch(groups[1..]);
      if rest.Some? then
        var i :| 0 <= i < |groups[1..]| && groups[1..][i] == rest &&
                 forall j :: 0 <= j < i ==> groups[1..][j].None?;
        assert groups[i + 1] == rest;
        rest
      else
        assert forall i :: 1 <= i < |groups| ==> groups[i] == groups[1..][i - 1];
        rest
  }

  // ---- PAN: \b([A-Z]{5}\d{4}[A-Z])\b, case-sensitive ----

  /** Five upper-case letters, four digits and an upper-case letter. */
  predicate PanShaped(p: string)
  {
    |p| == 10 && (forall k :: 0 <= k < 5 ==> IsUpper(p[k])) &&
    (forall k :: 5 <= k < 9 ==> IsDigit(p[k])) && IsUpper(p[9])
  }

  /** A PAN-shaped word starts at `i`. */
  predicate PanAt(s: string, i: nat)
  {
    i + 10 <= |s| && PanShaped(s[i..i + 10]) && BoundaryBefore(s, i) && BoundaryAfter(s, i + 10)
  }

  /** `re.search`: the leftmost PAN at or after `from`. */
  function FindPan(s: string, from: nat): (r: Option<nat>)
    ensures r.Some? ==> from <= r.GetOr(0) && PanAt(s, r.GetOr(0))
    ensures r.Some? ==> forall j :: from <= j < r.GetOr(0) ==> !PanAt(s, j)
    ensures r.None? ==> forall j :: from <= j ==> !PanAt(s, j)
    decreases |s| - from
  {
    if from + 10 > |s| then None
    else if PanAt(s, from) then Some(from)
    else FindPan(s, from + 1)
  }

  // ---- Aadhaar ----

  /** `re.sub(r'\D', '', m)`. */
  function DigitsOf(s: string): (r: string)
    ensures AllDigits(r)
    ensures |r| <= |s|
  {
    if s == [] then [] else (if IsDigit(s[0]) then [s[0]] else []) + DigitsOf(s[1..])
  }

  /** Twelve digits, the first of them neither 0 nor 1. */
  predicate ValidAadhaar(m: string)
  {
    var d := DigitsOf(m);
    |d| == 12 && d[0] != '0' && d[0] != '1'
  }

  /** The first valid candidate in one pattern's `findall` list. */
  function FirstValid(ms: seq<string>): (r: Option<string>)
    ensures r.Some? <==> exists i :: 0 <= i < |ms| && ValidAadhaar(ms[i])
    ensures r.Some? ==> r.GetOr("") in ms && ValidAadhaar(r.GetOr(""))
    ensures r.Some? ==> exists i :: 0 <= i < |ms| && ValidAadhaar(ms[i]) && r == Some(ms[i]) &&
                                    forall j :: 0 <= j < i ==> !ValidAadhaar(ms[j])
  {
    if ms == [] then None
    else if ValidAadhaar(ms[0]) then Some(ms[0])
    else
      var rest := FirstValid(ms[1..]);
      assert forall i :: 1 <= i < |ms| ==> ms[i] == ms[1..][i - 1];
      if rest.Some? then
        var i :| 0 <= i < |ms[1..]| && ValidAadhaar(ms[1..][i]) && rest == Some(ms[1..][i]) &&
                 forall j :: 0 <= j < i ==> !ValidAadhaar(ms[1..][j]);
        assert ms[i + 1] == ms[1..][i];
        rest
      else rest
  }

  /** The Aadhaar loops: patterns in order and, within a pattern, matches
      in order; the first valid match wins, stripped. */
  function AadhaarNumber(lists: seq<seq<string>>): (r: Option<string>)
    ensures r.Some? <==> exists p, m :: p in lists && m in p && ValidAadhaar(m)
    ensures r.Some? ==> exists p, m :: p in lists && m in p && ValidAadhaar(m) && r == Some(Strip(m))
    ensures r.Some? ==> exists i :: 0 <= i < |lists| && FirstValid(lists[i]).Some? &&
                                    r == Some(Strip(FirstValid(lists[i]).GetOr(""))) &&
                                    forall j :: 0 <= j < i ==> FirstValid(lists[j]).None?
  {
    if lists == [] then None
    else
      match FirstValid(lists[0])
      case Some(m) =>
        assert m in lists[0] && lists[0] in lists;
        Some(Strip(m))
      case None =>
        var rest := AadhaarNumber(lists[1..]);
        assert forall p :: p in lists[1..] ==> p in lists;
        assert forall p :: p in lists ==> p == lists[0] || p in lists[1..];
        AadhaarFirstShift(lists, rest);
        rest
  }

  /** The first-pattern witness of the lists after the first is one of the
      whole lists when the first pattern found nothing valid. */
  lemma AadhaarFirstShift(lists: seq<seq<string>>, rest: Option<string>)
    requires lists != [] && FirstValid(lists[0]).None?
    requires rest.Some? ==> exists i :: 0 <= i < |lists[1..]| && FirstValid(lists[1..][i]).Some? &&
                                        rest == Some(Strip(FirstValid(lists[1..][i]).GetOr(""))) &&
                                        forall j :: 0 <= j < i ==> FirstValid(lists[1..][j]).None?
    ensures rest.Some? ==> exists i :: 0 <= i < |lists| && FirstValid(lists[i]).Some? &&
                                       rest == Some(Strip(FirstValid(lists[i]).GetOr(""))) &&
                                       forall j :: 0 <= j < i ==> FirstValid(lists[j]).None?
  {
    hide FirstValid, Strip;
    if rest.Some? {
      var i :| 0 <= i < |lists[1..]| && FirstValid(lists[1..][i]).Some? &&
               rest == Some(Strip(FirstValid(lists[1..][i]).GetOr(""))) &&
               forall j :: 0 <= j < i ==> FirstValid(lists[1..][j]).None?;
      assert lists[i + 1] == lists[1..][i];
      forall j | 0 <= j < i + 1 ensures FirstValid(lists[j]).None? {
        if j > 0 {
          assert lists[j] == lists[1..][j - 1];
        }
      }
    }
  }

  // ---- Name ----

  function Boilerplate(): set<string>
  {
    {"government", "india", "authority", "unique", "identification", "aadhaar", "male", "female",
     "proof", "identity", "address", "date", "birth"}
  }

  /** The filter a captured name must pass: longer than four characters, at
      least two words, no digit, and no word of Aadhaar boilerplate. */
  predicate PlausibleName(name: string)
  {
    var words := Words(Lower(name));
    |name| > 4 && |words| >= 2 && (forall i :: 0 <= i < |name| ==> !IsDigit(name[i])) &&
    forall w :: w in words ==> w !in Boilerplate()
  }

  /** The name loop: the first pattern whose stripped capture passes the
      filter; a capture that fails it does not stop the search. */
  function NameOf(groups: seq<Option<string>>): (r: Option<string>)
    ensures r.Some? ==> PlausibleName(r.GetOr(""))
    ensures r.Some? <==> exists i :: 0 <= i < |groups| && groups[i].Some? && PlausibleName(Strip(groups[i].GetOr("")))
    ensures r.Some? ==> exists i :: 0 <= i < |groups| && NamePasses(groups[i]) &&
                                    r == Some(Strip(groups[i].GetOr(""))) &&
                                    forall j :: 0 <= j < i ==> !NamePasses(groups[j])
  {
    hide PlausibleName, Strip;
    if groups == [] then None
    else
      var rest := NameOf(groups[1..]);
      assert forall i :: 1 <= i < |groups| ==> groups[i] == groups[1..][i - 1];
      if NamePasses(groups[0]) then Some(Strip(groups[0].GetOr("")))
      else
        NameFirstShift(groups, rest);
        rest
  }

  /** A pattern's capture is there and passes the filter. */
  predicate NamePasses(g: Option<string>)
  {
    g.Some? && PlausibleName(Strip(g.GetOr("")))
  }

  /** The first passing capture of the later patterns is the first passing
      one of all of them when the first pattern's capture does not pass. */
  lemma NameFirstShift(groups: seq<Option<string>>, rest: Option<string>)
    requires groups != [] && !NamePasses(groups[0])
    requires rest.Some? ==> exists i :: 0 <= i < |groups[1..]| && NamePasses(groups[1..][i]) &&
                                        rest == Some(Strip(groups[1..][i].GetOr(""))) &&
                                        forall j :: 0 <= j < i ==> !NamePasses(groups[1..][j])
    ensures rest.Some? ==> exists i :: 0 <= i < |groups| && NamePasses(groups[i]) &&
                                       rest == Some(Strip(groups[i].GetOr(""))) &&
                                       forall j :: 0 <= j < i ==> !NamePasses(groups[j])
  {
    hide PlausibleName, Strip;
    if rest.Some? {
      var i :| 0 <= i < |groups[1..]| && NamePasses(groups[1..][i]) &&
               rest == Some(Strip(groups[1..][i].GetOr(""))) &&
               forall j :: 0 <= j < i ==> !NamePasses(groups[1..][j]);
      assert groups[i + 1] == groups[1..][i];
      forall j | 0 <= j < i + 1 ensures !NamePasses(groups[j]) {
        if j > 0 {
          assert groups[j] == groups[1..][j - 1];
        }
      }
    }
  }

  // ---- Gender: \b(MALE|FEMALE|male|female|पुरुष|महिला)\b ----

  function HindiMale(): string { "पुरुष" }
  function HindiFemale(): string { "महिला" }

  /** What the gender pattern can capture. */
  predicate GenderWord(g: string)
  {
    g in {"MALE", "FEMALE", "male", "female", HindiMale(), HindiFemale()}
  }

  /** Upper-cased, the Hindi words mapped to their English names. */
  function GenderOf(g: string): (r: string)
    requires GenderWord(g)
    ensures r == "MALE" || r == "FEMALE"
    ensures r == "MALE" <==> g == "MALE" || g == "male" || g == HindiMale()
  {
    hide Upper, HindiMale, HindiFemale;
    GenderUpper(g);
    GenderWordsDistinct();
    var u := Upper(g);
    if u == HindiMale() then "MALE"
    else if u == HindiFemale() then "FEMALE"
    else
      u
  }

  /** The six words the pattern captures are six different strings. */
  lemma GenderWordsDistinct()
    ensures HindiMale() != HindiFemale()
    ensures HindiMale() !in {"MALE", "FEMALE", "male", "female"}
    ensures HindiFemale() !in {"MALE", "FEMALE", "male", "female"}
  {
  }

  /** Upper-casing a gender word gives an English name in capitals or
      leaves a Hindi word as it is. */
  lemma GenderUpper(g: string)
    requires GenderWord(g)
    ensures Upper(g) in {"MALE", "FEMALE", HindiMale(), HindiFemale()}
    ensures g == "male" || g == "MALE" ==> Upper(g) == "MALE"
    ensures g == "female" || g == "FEMALE" ==> Upper(g) == "FEMALE"
    ensures g == HindiMale() || g == HindiFemale() ==> Upper(g) == g
  {
    hide Upper, HindiMale, HindiFemale;
    if g == HindiMale() || g == HindiFemale() {
      HindiUnchanged(g);
    } else if g == "male" || g == "MALE" {
      UpperMale(g);
    } else {
      assert g == "female" || g == "FEMALE";
      UpperFemale(g);
    }
  }

  lemma UpperMale(g: string)
    requires g == "male" || g == "MALE"
    ensures Upper(g) == "MALE"
  {
  }

  lemma UpperFemale(g: string)
    requires g == "female" || g == "FEMALE"
    ensures Upper(g) == "FEMALE"
  {
  }

  /** Text without a Latin lower-case letter is left as it is. */
  lemma HindiUnchanged(g: string)
    requires g == HindiMale() || g == HindiFemale()
    ensures Upper(g) == g
  {
    forall k | 0 <= k < |g| ensures !IsLower(g[k]) { }
  }

  // ---- `_extract_structured_data` ----

  /** One optional text field. */
  function Field(key: string, v: Option<string>): (r: map<string, Json>)
    ensures r.Keys <= {key}
    ensures key in r <==> v.Some?
    ensures key in r ==> r[key] == JString(v.GetOr(""))
  {
    match v
    case Some(s) => map[key := JString(s)]
    case None => map[]
  }

  /** The salary slip's only field: the first salary match, commas
      removed. */
  function SalaryFields(m: Matches): (r: map<string, Json>)
    ensures r.Keys <= {"monthly_salary"}
    ensures "monthly_salary" in r <==> FirstMatch(m.salary).Some?
    ensures "monthly_salary" in r ==> r["monthly_salary"] == JString(RemoveChar(FirstMatch(m.salary).GetOr(""), ','))
  {
    match FirstMatch(m.salary)
    case Some(g) => map["monthly_salary" := JString(RemoveChar(g, ','))]
    case None => map[]
  }

  /** The PAN card's only field: the leftmost PAN in the text. */
  function PanFields(text: string): (r: map<string, Json>)
    ensures r.Keys <= {"pan_number"}
    ensures "pan_number" in r <==> exists i: nat :: i <= |text| && PanAt(text, i)
    ensures "pan_number" in r ==> r["pan_number"].JString? && PanShaped(r["pan_number"].s)
    ensures "pan_number" in r ==> exists i: nat :: PanAt(text, i) && r["pan_number"] == JString(text[i..i + 10]) &&
                                                   forall j: nat :: j < i ==> !PanAt(text, j)
  {
    match FindPan(text, 0)
    case Some(i) => map["pan_number" := JString(text[i..i + 10])]
    case None => map[]
  }

  /** The Aadhaar card's fields: number, name, date of birth and gender,
      each when found. */
  function AadhaarFields(m: Matches): (r: map<string, Json>)
    requires m.gender.Some? ==> GenderWord(m.gender.GetOr(""))
    ensures r.Keys <= {"aadhaar_number", "name", "dob", "gender"}
    ensures "aadhaar_number" in r <==> AadhaarNumber(m.aadhaarNumbers).Some?
    ensures "aadhaar_number" in r ==> r["aadhaar_number"] == JString(AadhaarNumber(m.aadhaarNumbers).GetOr(""))
    ensures "name" in r <==> NameOf(m.names).Some?
    ensures "name" in r ==> r["name"].JString? && PlausibleName(r["name"].s)
    ensures "dob" in r <==> FirstMatch(m.dobs).Some?
    ensures "dob" in r ==> r["dob"] == JString(Strip(FirstMatch(m.dobs).GetOr("")))
    ensures "gender" in r <==> m.gender.Some?
    ensures "gender" in r ==> r["gender"] == JString("MALE") || r["gender"] == JString("FEMALE")
  {
    var dob := match FirstMatch(m.dobs) case Some(d) => Some(Strip(d)) case None => None;
    var gender := match m.gender case Some(g) => Some(GenderOf(g)) case None => None;
    Fields4("aadhaar_number", AadhaarNumber(m.aadhaarNumbers), "name", NameOf(m.names),
            "dob", dob, "gender", gender)
  }

  /** The name is the one the name loop chose, and the gender the one the
      captured word gives. */
  lemma AadhaarFieldsChosen(m: Matches)
    requires m.gender.Some? ==> GenderWord(m.gender.GetOr(""))
    ensures "name" in AadhaarFields(m) ==> AadhaarFields(m)["name"] == JString(NameOf(m.names).GetOr(""))
    ensures m.gender.Some? ==>
              "gender" in AadhaarFields(m) && AadhaarFields(m)["gender"] == JString(GenderOf(m.gender.GetOr("")))
  {
    hide AadhaarNumber, NameOf, GenderOf, FirstMatch, PlausibleName, Strip;
  }

  /** Four optional text fields under four different keys. */
  function Fields4(k1: string, v1: Option<string>, k2: string, v2: Option<string>,
                   k3: string, v3: Option<string>, k4: string, v4: Option<string>): (r: map<string, Json>)
    requires k1 != k2 && k1 != k3 && k1 != k4 && k2 != k3 && k2 != k4 && k3 != k4
    ensures r.Keys <= {k1, k2, k3, k4}
    ensures (k1 in r <==> v1.Some?) && (k1 in r ==> r[k1] == JString(v1.GetOr("")))
    ensures (k2 in r <==> v2.Some?) && (k2 in r ==> r[k2] == JString(v2.GetOr("")))
    ensures (k3 in r <==> v3.Some?) && (k3 in r ==> r[k3] == JString(v3.GetOr("")))
    ensures (k4 in r <==> v4.Some?) && (k4 in r ==> r[k4] == JString(v4.GetOr("")))
  {
    Field(k1, v1) + Field(k2, v2) + Field(k3, v3) + Field(k4, v4)
  }

  /** `_extract_structured_data`: the fields of the given document type; an
      unknown type yields nothing. */
  function ExtractStructured(text: string, docType: string, m: Matches): (r: map<string, Json>)
    requires m.gender.Some? ==> GenderWord(m.gender.GetOr(""))
    ensures docType == "salary_slip" ==> r == SalaryFields(m)
    ensures docType == "pan_card" ==> r == PanFields(text)
    ensures docType == "aadhaar" ==> r == AadhaarFields(m)
    ensures docType != "salary_slip" && docType != "pan_card" && docType != "aadhaar" ==> r == map[]
  {
    if docType == "salary_slip" then SalaryFields(m)
    else if docType == "pan_card" then PanFields(text)
    else if docType == "aadhaar" then AadhaarFields(m)
    else map[]
  }

  /** Every Aadhaar number extracted has twelve digits, the first neither
      0 nor 1. */
  lemma ExtractedAadhaarIsValid(lists: seq<seq<string>>)
    requires AadhaarNumber(lists).Some?
    ensures exists m :: ValidAadhaar(m) && AadhaarNumber(lists) == Some(Strip(m))
  {
  }

  // ---- the per-page merge of `_ocr_pdf_images` ----

  /** The fields of the pages with, for each key, the value of the first
      page that has it. */
  function FirstWins(pages: seq<map<string, Json>>): (r: map<string, Json>)
    ensures forall k :: k in r <==> exists i :: 0 <= i < |pages| && k in pages[i]
  {
    if pages == [] then map[]
    else
      var before := FirstWins(pages[..|pages| - 1]);
      assert forall i :: 0 <= i < |pages| - 1 ==> pages[..|pages| - 1][i] == pages[i];
      pages[|pages| - 1] + before
  }

  /** A key takes its value from the first page that has it. */
  lemma {:induction false} FirstPageWins(pages: seq<map<string, Json>>, i: nat, k: string)
    requires i < |pages| && k in pages[i]
    requires forall j :: 0 <= j < i ==> k !in pages[j]
    ensures k in FirstWins(pages) && FirstWins(pages)[k] == pages[i][k]
  {
    var init := pages[..|pages| - 1];
    if i < |pages| - 1 {
      assert forall j :: 0 <= j < i ==> init[j] == pages[j];
      FirstPageWins(init, i, k);
    } else {
      assert forall j :: 0 <= j < |init| ==> k !in init[j];
    }
  }

  /** One page of the merge loop: the page's fields are added key by key,
      unless the merge already has that key. */
  method AddPage(merged: map<string, Json>, page: map<string, Json>) returns (r: map<string, Json>)
    ensures r == page + merged
  {
    r := merged;
    var remaining := page.Keys;
    while remaining != {}
      invariant remaining <= page.Keys
      invariant r.Keys == merged.Keys + (page.Keys - remaining)
      invariant forall k :: k in merged ==> r[k] == merged[k]
      invariant forall k :: k in r && k !in merged ==> r[k] == page[k]
      decreases remaining
    {
      var k :| k in remaining;
      if k !in r {
        r := r[k := page[k]];
      }
      remaining := remaining - {k};
    }
  }

  /** The merge loop over the pages, in order. */
  method MergePages(pages: seq<map<string, Json>>) returns (merged: map<string, Json>)
    ensures merged == FirstWins(pages)
  {
    merged := map[];
    var n := 0;
    while n < |pages|
      invariant 0 <= n <= |pages|
      invariant merged == FirstWins(pages[..n])
    {
      assert pages[..n + 1][..n] == pages[..n];
      merged := AddPage(merged, pages[n]);
      n := n + 1;
    }
    assert pages[..n] == pages;
  }

  /** `{**combined_extracted, **merged_extracted}`: the pages' fields
      override those read from the combined text. */
  method PdfImageFields(pages: seq<map<string, Json>>, combined: map<string, Json>)
    returns (extracted: map<string, Json>)
    ensures extracted.Keys == combined.Keys + FirstWins(pages).Keys
    ensures forall k :: k in FirstWins(pages) ==> extracted[k] == FirstWins(pages)[k]
    ensures forall k :: k in combined && k !in FirstWins(pages) ==> extracted[k] == combined[k]
  {
    var merged := MergePages(pages);
    extracted := combined + merged;
  }
}
