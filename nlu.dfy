/** The deterministic language understanding of workers.py: number words and
    unit suffixes, the intent guess, and the amount, customer-id and consent
    extractors, each consulting the language model where the code does. */
module Nlu {
  import opened Outcomes
  import opened Text
  import opened Json
  import opened Session

  datatype Tone = Friendly | Playful

  /** The prompts workers.py sends; each call site has its own. */
  datatype Prompt =
    | IntentPrompt(text: string, stage: LoanStage)
    | AmountPrompt(text: string)
    | ConsentPrompt(text: string)
    | RephrasePrompt(chosen: string, tone: Tone)
    | RedirectPrompt(quick: string)

  /** What the model does with one prompt: `json` is what `call_llm_json`
      parses out of its answer, `raw` the text `call_llm_raw` receives before
      stripping it; None is a call that returns None (no token, an HTTP
      failure, no JSON in the answer). */
  datatype Answer = Answer(json: Option<Json>, raw: Option<string>)

  /** The language model, as the table of its answers; a prompt missing from
      the table gets no answer at all. */
  type Llm = map<Prompt, Answer>

  /** `call_llm_json(prompt)`. */
  function JsonReply(llm: Llm, p: Prompt): Option<Json>
  {
    if p in llm then llm[p].json else None
  }

  /** The text `call_llm_raw(prompt)` receives. */
  function RawReply(llm: Llm, p: Prompt): Option<string>
  {
    if p in llm then llm[p].raw else None
  }

  /** No API token: every call returns None. */
  const Unavailable: Llm := map[]

  /** `call_llm_raw`, which strips the model's text. */
  function CallRaw(llm: Llm, p: Prompt): (r: Option<string>)
    ensures llm == Unavailable ==> r == None
    ensures r.Some? ==> r.value == [] || (!IsSpace(r.value[0]) && !IsSpace(r.value[|r.value| - 1]))
  {
    match RawReply(llm, p)
    case None => None
    case Some(o) => Some(Strip(o))
  }

  // ----- number words --------------------------------------------------------

  /** `_WORD_UNITS`: the multiplier of each unit word. */
  function WordUnit(unit: string): (r: Option<int>)
    ensures r.Some? ==> r.value > 0
    ensures IsAmountUnit(unit) ==> r.Some?
  {
    if unit in {"thousand", "k", "k."} then Some(1000)
    else if unit in {"lakh", "lakhs", "lacs", "lac"} then Some(100000)
    else if unit in {"million", "m"} then Some(1000000)
    else if unit == "billion" then Some(1000000000)
    else if unit in {"crore", "cr"} then Some(10000000)
    else None
  }

  /** `_NUMBER_WORDS`: the value of each number word, zero to nineteen, the
      tens, and "hundred", "thousand", "lakh". */
  function NumberWord(w: string): (r: Option<nat>)
    ensures r.Some? ==> |w| > 0 && IsLower(w[0])
  {
    if w == "zero" then Some(0) else if w == "one" then Some(1) else if w == "two" then Some(2)
    else if w == "three" then Some(3) else if w == "four" then Some(4) else if w == "five" then Some(5)
    else if w == "six" then Some(6) else if w == "seven" then Some(7) else if w == "eight" then Some(8)
    else if w == "nine" then Some(9) else if w == "ten" then Some(10) else if w == "eleven" then Some(11)
    else if w == "twelve" then Some(12) else if w == "thirteen" then Some(13) else if w == "fourteen" then Some(14)
    else if w == "fifteen" then Some(15) else if w == "sixteen" then Some(16) else if w == "seventeen" then Some(17)
    else if w == "eighteen" then Some(18) else if w == "nineteen" then Some(19) else if w == "twenty" then Some(20)
    else if w == "thirty" then Some(30) else if w == "forty" then Some(40) else if w == "fifty" then Some(50)
    else if w == "sixty" then Some(60) else if w == "seventy" then Some(70) else if w == "eighty" then Some(80)
    else if w == "ninety" then Some(90) else if w == "hundred" then Some(100) else if w == "thousand" then Some(1000)
    else if w == "lakh" then Some(100000)
    else None
  }

  /** `re.match(r"^\.(\d+)\s*(\w+)", t)`: the digits after a leading dot and
      the word after them. When no word character follows the spaces, the
      engine gives the last digit back to `\w+`. */
  function DotUnitMatch(t: string): (r: Option<(string, string)>)
    ensures r.Some? ==> IsDigits(r.value.0)
  {
    if |t| == 0 || t[0] != '.' then None
    else
      var d := RunEnd(t, 1, Digits);
      if d == 1 then None
      else
        var w0 := RunEnd(t, d, Spaces);
        var w1 := RunEnd(t, w0, WordChars);
        if w1 > w0 then Some((t[1..d], t[w0..w1]))
        else if d > 2 then Some((t[1..d - 1], t[d - 1..d]))
        else None
  }

  /** `re.match(r"^([\d\.]+)\s*([a-zA-Z]+)$", t)`: the split is unique, since
      the three parts use disjoint characters. */
  function NumUnitMatch(t: string): (r: Option<(string, string)>)
    ensures r.Some? ==> |r.value.0| > 0 && forall i :: 0 <= i < |r.value.0| ==> IsDigitOrDot(r.value.0[i])
  {
    var n := RunEnd(t, 0, DigitsOrDots);
    if n == 0 then None
    else
      var w := RunEnd(t, n, Spaces);
      var l := RunEnd(t, w, Letters);
      if l > w && (l == |t| || (l == |t| - 1 && t[l] == '\n')) then Some((t[..n], t[w..l])) else None
  }

  /** The unit lookups after the `<number><unit>` match: the unit table, then
      the "k", "m" and "cr"/"crore" suffix rules. */
  function UnitMultiplier(unit: string): (r: Option<int>)
    ensures r.Some? ==> r.value > 0
  {
    hide *;
    if WordUnit(unit).Some? then WordUnit(unit)
    else if EndsWith(unit, "k") then Some(1000)
    else if EndsWith(unit, "m") then Some(1000000)
    else if EndsWith(unit, "cr") || Contains(unit, "crore") then Some(10000000)
    else None
  }

  /** The word loop: a number word of at least 100 multiplies the running
      value (taken as at least 1), a smaller one is added, and any other
      token abandons the parse. */
  function FoldWords(tokens: seq<string>, temp: int): Option<int>
  {
    hide NumberWord;
    if tokens == [] then Some(temp)
    else if NumberWord(tokens[0]).None? then None
    else
      var val := NumberWord(tokens[0]).value;
      FoldWords(tokens[1..], if val >= 100 then (if temp >= 1 then temp else 1) * val else temp + val)
  }

  /** The word loop fails exactly when some token is not a number word, and
      otherwise never goes below where it started. */
  lemma {:induction false} FoldWordsFails(tokens: seq<string>, temp: int)
    requires temp >= 0
    ensures FoldWords(tokens, temp).None? <==> exists i :: 0 <= i < |tokens| && NumberWord(tokens[i]).None?
    ensures FoldWords(tokens, temp).Some? ==> FoldWords(tokens, temp).value >= temp
  {
    hide NumberWord;
    if tokens != [] && NumberWord(tokens[0]).Some? {
      var val := NumberWord(tokens[0]).value;
      var next := if val >= 100 then (if temp >= 1 then temp else 1) * val else temp + val;
      FoldWordsFails(tokens[1..], next);
      if FoldWords(tokens, temp).None? {
        var i :| 0 <= i < |tokens[1..]| && NumberWord(tokens[1..][i]).None?;
        assert NumberWord(tokens[i + 1]).None?;
      } else {
        forall i | 0 <= i < |tokens| ensures NumberWord(tokens[i]).Some? {
          if i > 0 { assert tokens[i] == tokens[1..][i - 1]; }
        }
      }
    }
  }

  /** The word loop as written, over a list of tokens. */
  method FoldNumberWords(tokens: seq<string>) returns (r: Option<int>)
    ensures r == FoldWords(tokens, 0)
  {
    hide NumberWord;
    var temp := 0;
    var i := 0;
    while i < |tokens|
      invariant 0 <= i <= |tokens|
      invariant FoldWords(tokens[i..], temp) == FoldWords(tokens, 0)
    {
      var tok := tokens[i];
      assert tokens[i..][0] == tok && tokens[i..][1..] == tokens[i + 1..];
      if NumberWord(tok).None? {
        return None;
      }
      var val := NumberWord(tok).value;
      if val >= 100 {
        temp := (if temp >= 1 then temp else 1) * val;
      } else {
        temp := temp + val;
      }
      i := i + 1;
    }
    assert tokens[i..] == [];
    r := Some(temp);
  }

  /** A number times a unit multiplier. */
  function Scale(x: real, m: int): (r: real)
    ensures x >= 0.0 && m >= 0 ==> r >= 0.0
  {
    x * m as real
  }

  /** `float("0." + digits)`. */
  function Fraction(digits: string): real
    requires AllDigits(digits)
  {
    DigitsToNat(digits) as real / Pow10(|digits|) as real
  }

  /** The last step of `words_to_number`: the word path over `re.split(r"[\s-]+", t)`. */
  function WordsPath(t: string): (r: Option<real>)
    ensures r.Some? ==> r.value > 0.0
  {
    match FoldWords(SplitRuns(t), 0)
    case Some(v) => if v > 0 then Some(v as real) else None
    case None => None
  }

  /** The `.9 million` path: a value when the word after the digits is a unit. */
  function DotUnitValue(t: string): (r: Option<real>)
    ensures r.Some? ==> r.value >= 0.0
  {
    match DotUnitMatch(t)
    case Some(m) =>
      (match WordUnit(m.1)
       case Some(mult) => Some(Scale(Fraction(m.0), mult))
       case None => None)
    case None => None
  }

  /** The `100k` path once its pattern matched: a number that `float()`
      refuses ends the conversion with None, a unit without a multiplier
      falls through to the word path. */
  function NumUnitValue(t: string, num: string, unit: string): (r: Option<real>)
    requires forall i :: 0 <= i < |num| ==> IsDigitOrDot(num[i])
    ensures r.Some? ==> r.value >= 0.0
  {
    match ParseDecimal(num)
    case None => None
    case Some(x) =>
      match UnitMultiplier(Lower(unit))
      case Some(m) => Some(Scale(x, m))
      case None => WordsPath(t)
  }

  /** `text.lower().replace(",", "").strip()`, the clean-up both
      `words_to_number` and `extract_amount` begin with. */
  function Normalize(text: string): (r: string)
    ensures LowerNoComma(r)
    ensures r == [] || (!IsSpace(r[0]) && !IsSpace(r[|r| - 1]))
    ensures |r| <= |text|
  {
    var m := RemoveChar(Lower(text), ',');
    assert LowerNoComma(m) by {
      forall i | 0 <= i < |m| ensures !IsUpper(m[i]) && m[i] != ',' {
        assert m[i] in m;
      }
    }
    SliceLowerNoComma(m, Strip(m));
    Strip(m)
  }

  /** A piece of a text without capitals or commas has none either. */
  lemma SliceLowerNoComma(m: string, r: string)
    requires LowerNoComma(m)
    requires exists a: nat :: OccursAt(m, r, a)
    ensures LowerNoComma(r)
  {
    var a: nat :| OccursAt(m, r, a);
    assert forall i :: 0 <= i < |r| ==> r[i] == m[a + i];
  }

  /** No capital letter and no comma. */
  predicate LowerNoComma(s: string) { forall i :: 0 <= i < |s| ==> !IsUpper(s[i]) && s[i] != ',' }

  lemma LowerNoCommaAppend(a: string, b: string)
    requires LowerNoComma(a) && LowerNoComma(b)
    ensures LowerNoComma(a + b)
  {
    assert forall i :: |a| <= i < |a + b| ==> (a + b)[i] == b[i - |a|];
  }

  /** Text that is already lower-case, free of commas and trimmed is left as
      it is. */
  lemma NormalizeFixed(t: string)
    requires t != [] && !IsSpace(t[0]) && !IsSpace(t[|t| - 1])
    requires LowerNoComma(t)
    ensures Normalize(t) == t
  {
    LowerOfLower(t);
    RemoveCharAbsent(t, ',');
    StripOfTrimmed(t);
  }

  /** Normalising twice is normalising once. */
  lemma NormalizeIdempotent(text: string)
    ensures Normalize(Normalize(text)) == Normalize(text)
  {
    var t := Normalize(text);
    if t == [] {
      assert Normalize(t) == [] by {
        assert RemoveChar(Lower(t), ',') == [];
      }
    } else {
      NormalizeFixed(t);
    }
  }

  /** `words_to_number`. */
  function WordsToNumber(text: string): (r: Option<real>)
    ensures r.Some? ==> r.value >= 0.0
  {
    var t := Normalize(text);
    if IsDigits(t) then Some(DigitsToNat(t) as real)
    else if DotUnitValue(t).Some? then DotUnitValue(t)
    else
      match NumUnitMatch(t)
      case Some(m) => NumUnitValue(t, m.0, m.1)
      case None => WordsPath(t)
  }

  /** A token outside the number words ends the word path with None, so
      "4 million billion" has no value. */
  lemma WordsPathUnknownToken(t: string)
    requires exists i :: 0 <= i < |SplitRuns(t)| && NumberWord(SplitRuns(t)[i]).None?
    ensures WordsPath(t) == None
  {
    FoldWordsFails(SplitRuns(t), 0);
  }

  /** A whole number followed by a unit of the table is scaled by that unit. */
  lemma DigitsWithUnit(t: string, num: string, unit: string)
    requires IsDigits(num) && WordUnit(unit).Some?
    requires forall i :: 0 <= i < |unit| ==> !IsUpper(unit[i])
    ensures NumUnitValue(t, num, unit) == Some(Scale(DigitsToNat(num) as real, WordUnit(unit).value))
  {
    ParseDecimalOfDigits(num);
    LowerOfLower(unit);
  }

  /** Only white space. */
  predicate AllSpaces(s: string) { forall i :: 0 <= i < |s| ==> IsSpace(s[i]) }

  /** A non-empty run of lower-case letters. */
  predicate IsLowerWord(u: string) { |u| > 0 && forall i :: 0 <= i < |u| ==> IsLower(u[i]) }

  /** A non-empty run of digits and dots. */
  predicate IsNumeral(n: string) { |n| > 0 && forall i :: 0 <= i < |n| ==> IsDigitOrDot(n[i]) }

  /** The characters of a number, spaces and a lower-case word. */
  lemma NumberSpacesWord(n: string, sp: string, u: string)
    requires IsNumeral(n) && AllSpaces(sp) && IsLowerWord(u)
    ensures var t := n + sp + u;
            (forall i :: 0 <= i < |n| ==> t[i] == n[i]) &&
            (forall i :: |n| <= i < |n| + |sp| ==> t[i] == sp[i - |n|]) &&
            (forall i :: |n| + |sp| <= i < |t| ==> t[i] == u[i - |n| - |sp|]) &&
            t[|t| - 1] == u[|u| - 1] &&
            forall i :: 0 <= i < |t| ==> !IsUpper(t[i]) && t[i] != ','
  {
  }

  /** Text that does not start with a point is not a `.9 million` amount. */
  lemma NoLeadingPoint(t: string)
    requires t == [] || t[0] != '.'
    ensures DotUnitValue(t).None?
  {
  }

  /** A number, spaces and a lower-case word are already normalized. */
  lemma NormalizeNumberUnit(n: string, sp: string, u: string)
    requires IsNumeral(n) && AllSpaces(sp) && IsLowerWord(u)
    ensures Normalize(n + sp + u) == n + sp + u
  {
    NumberSpacesWord(n, sp, u);
    NormalizeFixed(n + sp + u);
  }

  /** The `100k` pattern splits a number, spaces and a word into the number
      and the word. */
  lemma NumUnitMatchOf(n: string, sp: string, u: string)
    requires IsNumeral(n) && AllSpaces(sp) && IsLowerWord(u)
    ensures NumUnitMatch(n + sp + u) == Some((n, u))
  {
    var t := n + sp + u;
    NumberSpacesWord(n, sp, u);
    RunEndAt(t, 0, |n|, DigitsOrDots);
    RunEndAt(t, |n|, |n| + |sp|, Spaces);
    RunEndAt(t, |n| + |sp|, |t|, Letters);
    assert t[..|n|] == n && t[|n| + |sp|..|t|] == u;
  }

  /** The `.9 million` pattern splits a point, digits, spaces and a word into
      the digits and the word. */
  lemma DotUnitMatchOf(d: string, sp: string, u: string)
    requires IsDigits(d) && AllSpaces(sp) && IsLowerWord(u)
    ensures DotUnitMatch("." + d + sp + u) == Some((d, u))
  {
    var n := "." + d;
    var t := n + sp + u;
    assert "." + d + sp + u == t;
    NumberSpacesWord(n, sp, u);
    RunEndAt(t, 1, |n|, Digits);
    RunEndAt(t, |n|, |n| + |sp|, Spaces);
    RunEndAt(t, |n| + |sp|, |t|, WordChars);
    assert t[1..|n|] == d && t[|n| + |sp|..|t|] == u;
  }

  /** A plain whole number is its own value. */
  lemma WholeNumberRead(d: string)
    requires IsDigits(d)
    ensures WordsToNumber(d) == Some(DigitsToNat(d) as real)
  {
    NormalizeFixed(d);
  }

  /** A number followed by a unit of the table, with or without spaces
      between ("4 lakh", "4.5 lakh", "100k", "1 crore"), is the number times
      the unit. */
  lemma NumberWithUnitWord(n: string, sp: string, u: string)
    requires IsNumeral(n) && IsDigit(n[0]) && ParseDecimal(n).Some?
    requires AllSpaces(sp) && IsLowerWord(u) && WordUnit(u).Some?
    ensures WordsToNumber(n + sp + u) == Some(Scale(ParseDecimal(n).value, WordUnit(u).value))
  {
    var t := n + sp + u;
    hide ParseDecimal, WordUnit, Normalize, NumUnitMatch, WordsPath, Scale, DotUnitValue;
    NormalizeNumberUnit(n, sp, u);
    NumUnitMatchOf(n, sp, u);
    assert t[0] == n[0];
    assert !IsDigits(t) by { assert t[|t| - 1] == u[|u| - 1]; }
    NoLeadingPoint(t);
    LowerOfLower(u);
  }

  /** A fraction written from its point and followed by a unit of the table
      (".9 million") is that fraction of the unit. */
  lemma FractionWithUnitWord(d: string, sp: string, u: string)
    requires IsDigits(d) && AllSpaces(sp) && IsLowerWord(u) && WordUnit(u).Some?
    ensures WordsToNumber("." + d + sp + u) == Some(Scale(Fraction(d), WordUnit(u).value))
  {
    var t := "." + d + sp + u;
    hide WordUnit, Normalize, DotUnitMatch, NumUnitValue, NumUnitMatch, WordsPath, Scale, Fraction;
    assert IsNumeral("." + d) by { assert forall i :: 1 <= i < |"." + d| ==> ("." + d)[i] == d[i - 1]; }
    NormalizeNumberUnit("." + d, sp, u);
    DotUnitMatchOf(d, sp, u);
    assert !IsDigits(t) by { assert t[0] == '.'; }
  }

  /** The first piece `re.split(r"[\s-]+", s)` gives, when a separator
      follows it. */
  lemma SplitRunsFirst(s: string, j: nat)
    requires j < |s| && IsSpaceOrDash(s[j])
    requires forall k :: 0 <= k < j ==> !IsSpaceOrDash(s[k])
    ensures SplitRuns(s)[0] == s[..j]
  {
    RunEndAt(s, 0, j, NonSpacesOrDashes);
  }

  /** Two words with white space between split into those two words. */
  lemma SplitTwoWords(a: string, sp: string, b: string)
    requires IsLowerWord(a) && IsLowerWord(b) && |sp| > 0 && AllSpaces(sp)
    ensures SplitRuns(a + sp + b) == [a, b]
  {
    var s := a + sp + b;
    assert forall k :: 0 <= k < |a| ==> s[k] == a[k];
    assert forall k :: |a| <= k < |a| + |sp| ==> s[k] == sp[k - |a|];
    RunEndAt(s, 0, |a|, NonSpacesOrDashes);
    RunEndAt(s, |a|, |a| + |sp|, SpacesOrDashes);
    assert s[|a| + |sp|..] == b && s[..|a|] == a;
    RunEndAt(b, 0, |b|, NonSpacesOrDashes);
  }

  /** "hundred" sets the running value to 100 and "thousand" multiplies it. */
  lemma FoldHundredThousand()
    ensures FoldWords(["hundred", "thousand"], 0) == Some(100000)
  {
    assert NumberWord("hundred") == Some(100);
    assert NumberWord("thousand") == Some(1000);
    hide NumberWord;
    assert ["hundred", "thousand"][1..] == ["thousand"];
    assert ["thousand"][1..] == [];
  }

  /** Two words with white space between are left to the word loop. */
  lemma TwoWordsRead(a: string, sp: string, b: string)
    requires IsLowerWord(a) && IsLowerWord(b) && |sp| > 0 && AllSpaces(sp)
    ensures WordsToNumber(a + sp + b) == WordsPath(a + sp + b)
  {
    var t := a + sp + b;
    assert forall k :: 0 <= k < |a| ==> t[k] == a[k];
    assert forall k :: |a| <= k < |a| + |sp| ==> t[k] == sp[k - |a|];
    assert forall k :: |a| + |sp| <= k < |t| ==> t[k] == b[k - |a| - |sp|];
    NormalizeFixed(t);
    NoLeadingPoint(t);
    hide WordsPath, Normalize, DotUnitValue;
    assert !IsDigits(t) by { assert !IsDigit(t[0]); }
    assert NumUnitMatch(t) == None by { RunEndAt(t, 0, 0, DigitsOrDots); }
  }

  /** Number words multiply and add up: "hundred thousand", with any white
      space between the words, is 100000. */
  lemma HundredThousandRead(sp: string)
    requires |sp| > 0 && AllSpaces(sp)
    ensures WordsToNumber("hundred" + sp + "thousand") == Some(100000.0)
  {
    assert IsLowerWord("hundred") && IsLowerWord("thousand");
    hide WordsToNumber, NumberWord, FoldWords, SplitRuns, IsLowerWord, AllSpaces;
    SplitTwoWords("hundred", sp, "thousand");
    TwoWordsRead("hundred", sp, "thousand");
    FoldHundredThousand();
  }

  /** A number word is made of letters, so a run of digits is none. */
  lemma DigitsAreNoNumberWord(d: string)
    requires IsDigits(d)
    ensures NumberWord(d) == None
  {
    hide NumberWord;
    assert IsDigit(d[0]);
  }

  /** A whole number, white space, a word, white space and a word. */
  predicate NumberThenTwoWords(d: string, sp1: string, a: string, sp2: string, b: string)
  {
    IsDigits(d) && |sp1| > 0 && AllSpaces(sp1) && IsLowerWord(a) &&
    |sp2| > 0 && AllSpaces(sp2) && IsLowerWord(b)
  }

  lemma NumberThenTwoWordsNormalized(d: string, sp1: string, a: string, sp2: string, b: string)
    requires NumberThenTwoWords(d, sp1, a, sp2, b)
    ensures Normalize(d + sp1 + a + sp2 + b) == d + sp1 + a + sp2 + b
  {
    var t := d + sp1 + a + sp2 + b;
    assert t[0] == d[0] && t[|t| - 1] == b[|b| - 1];
    assert LowerNoComma(d) && LowerNoComma(sp1) && LowerNoComma(a) && LowerNoComma(sp2) && LowerNoComma(b);
    hide LowerNoComma, Normalize;
    LowerNoCommaAppend(d, sp1);
    LowerNoCommaAppend(d + sp1, a);
    LowerNoCommaAppend(d + sp1 + a, sp2);
    LowerNoCommaAppend(d + sp1 + a + sp2, b);
    NormalizeFixed(t);
  }

  lemma NumberThenTwoWordsNoUnit(d: string, sp1: string, a: string, sp2: string, b: string)
    requires NumberThenTwoWords(d, sp1, a, sp2, b)
    ensures NumUnitMatch(d + sp1 + a + sp2 + b) == None
  {
    var t := d + sp1 + a + sp2 + b;
    var x := |d| + |sp1|;
    var y := x + |a|;
    assert forall k :: 0 <= k < |d| ==> t[k] == d[k];
    assert forall k :: |d| <= k < x ==> t[k] == sp1[k - |d|];
    assert forall k :: x <= k < y ==> t[k] == a[k - x];
    assert t[y] == sp2[0];
    RunEndAt(t, 0, |d|, DigitsOrDots);
    RunEndAt(t, |d|, x, Spaces);
    RunEndAt(t, x, y, Letters);
  }

  lemma NumberThenTwoWordsFirstPiece(d: string, sp1: string, a: string, sp2: string, b: string)
    requires NumberThenTwoWords(d, sp1, a, sp2, b)
    ensures NumberWord(SplitRuns(d + sp1 + a + sp2 + b)[0]) == None
  {
    var t := d + sp1 + a + sp2 + b;
    assert forall k :: 0 <= k < |d| ==> t[k] == d[k];
    assert t[|d|] == sp1[0];
    SplitRunsFirst(t, |d|);
    assert t[..|d|] == d;
    DigitsAreNoNumberWord(d);
  }

  /** A whole number followed by two words, such as "4 million billion", is
      outside the grammar of `words_to_number`: it gives no value. */
  lemma NumberThenTwoWordsUnread(d: string, sp1: string, a: string, sp2: string, b: string)
    requires NumberThenTwoWords(d, sp1, a, sp2, b)
    ensures WordsToNumber(d + sp1 + a + sp2 + b) == None
  {
    var t := d + sp1 + a + sp2 + b;
    assert t[0] == d[0] && t[|d|] == sp1[0];
    hide Normalize, NumUnitMatch, NumberWord, FoldWords, SplitRuns, DotUnitValue, NumberThenTwoWords;
    NumberThenTwoWordsNormalized(d, sp1, a, sp2, b);
    NumberThenTwoWordsNoUnit(d, sp1, a, sp2, b);
    NumberThenTwoWordsFirstPiece(d, sp1, a, sp2, b);
    NoLeadingPoint(t);
    assert !IsDigits(t) by { assert !IsDigit(t[|d|]); }
    WordsPathUnknownToken(t);
  }

  /** "4 million billion" has no value. */
  lemma StackedUnitsHaveNoWordValue()
    ensures WordsToNumber("4 million billion") == None
  {
    assert NumberThenTwoWords("4", " ", "million", " ", "billion");
    hide WordsToNumber, NumberThenTwoWords;
    assert "4" + " " + "million" + " " + "billion" == "4 million billion";
    NumberThenTwoWordsUnread("4", " ", "million", " ", "billion");
  }

  // ----- intent ---------------------------------------------------------------

  datatype Intent = SLOT_VALUE | META | PROCESS | CONFUSION | OUT_OF_SCOPE | CHITCHAT

  function ParseIntent(s: string): (r: Option<Intent>)
    ensures r.None? <==> s !in {"SLOT_VALUE", "META", "PROCESS", "CONFUSION", "OUT_OF_SCOPE", "CHITCHAT"}
  {
    if s == "SLOT_VALUE" then Some(SLOT_VALUE)
    else if s == "META" then Some(META)
    else if s == "PROCESS" then Some(PROCESS)
    else if s == "CONFUSION" then Some(CONFUSION)
    else if s == "OUT_OF_SCOPE" then Some(OUT_OF_SCOPE)
    else if s == "CHITCHAT" then Some(CHITCHAT)
    else None
  }

  /** An intent with the short reply hint that goes with it. */
  datatype Classified = Classified(intent: Intent, hint: Json)

  /** `hint or default`, rendered as text. */
  function HintOr(hint: Json, default: string): string
  {
    if Truthy(hint) then PyStr(hint) else default
  }

  /** The text holds a phrase asking what the bot is. */
  predicate HasMetaPhrase(t: string) { ContainsAny(t, ["what does", "what is this", "how does", "how do", "who are you", "what are you"]) }

  /** The text holds a question about why the process needs something. */
  predicate AsksWhy(t: string) { ContainsAny(t, ["why", "for what", "what for", "why do you"]) }

  /** The text holds a consent word, firm or hedged. */
  predicate HasConsentWord(t: string) { ContainsAny(t, ["yes", "no", "agree", "i do", "ok", "okay", "sure", "maybe", "i guess", "probably"]) }

  /** The text holds a hedge. */
  predicate Hedges(t: string) { ContainsAny(t, ["maybe", "i guess", "probably", "might"]) }

  /** The text holds a greeting or thanks. */
  predicate HasSmallTalk(t: string) { ContainsAny(t, ["hi", "hello", "thanks", "thank you"]) }

  /** Some `\bw\b` alternative of the list matches. */
  predicate ContainsAnyWord(s: string, words: seq<string>)
  {
    exists w :: w in words && ContainsWord(s, w)
  }

  predicate HasDigit(s: string) { exists i :: 0 <= i < |s| && IsDigit(s[i]) }

  /** `re.search(r"\d+|\blakh\b|\bthousand\b|\bmillion\b|\bcrore\b|\bcr\b|\bk\b|\bm\b", t)`. */
  predicate MentionsAmount(t: string)
  {
    HasDigit(t) || ContainsAnyWord(t, ["lakh", "thousand", "million", "crore", "cr", "k", "m"])
  }

  /** The reply hint the guess gives with each intent; SLOT_VALUE has none. */
  function GuessHint(i: Intent, why: bool): string
  {
    match i
    case CONFUSION =>
      if why then "Are you leaning towards yes or no?" else "I didn't catch that. Could you repeat briefly?"
    case META => "I help people apply for personal loans. I can guide you through the process in chat."
    case PROCESS => "I'm asking for consent so I can process your loan details (basic info, checks)."
    case CHITCHAT => "Hi! I can help with loans."
    case OUT_OF_SCOPE => "I’m sorry, I can only help with loan-related questions here."
    case SLOT_VALUE => ""
  }

  /** `deterministic_intent_guess`: the first rule that fires, in a fixed order. */
  function DeterministicIntentGuess(text: string): (r: Classified)
    ensures var t := Strip(Lower(text));
            && (t == [] ==> r.intent == CONFUSION)
            && (t != [] && HasMetaPhrase(t) ==> r.intent == META)
            && (r.intent == SLOT_VALUE ==> r.hint == JString(""))
  {
    hide *;
    var t := Strip(Lower(text));
    if |t| == 0 then Classified(CONFUSION, JString(GuessHint(CONFUSION, false)))
    else if HasMetaPhrase(t) then Classified(META, JString(GuessHint(META, false)))
    else if AsksWhy(t) then Classified(PROCESS, JString(GuessHint(PROCESS, false)))
    else if HasConsentWord(t) then
      if Hedges(t) then Classified(CONFUSION, JString(GuessHint(CONFUSION, true)))
      else Classified(SLOT_VALUE, JString(""))
    else if MentionsAmount(t) then Classified(SLOT_VALUE, JString(""))
    else if HasSmallTalk(t) then Classified(CHITCHAT, JString(GuessHint(CHITCHAT, false)))
    else Classified(OUT_OF_SCOPE, JString(GuessHint(OUT_OF_SCOPE, false)))
  }

  /** The first-hit order of the guess: each rule applies only when every
      earlier rule did not. */
  lemma IntentGuessOrder(text: string)
    ensures var t := Strip(Lower(text));
            var g := DeterministicIntentGuess(text).intent;
            && (g == META <==> t != [] && HasMetaPhrase(t))
            && (g == PROCESS <==> t != [] && !HasMetaPhrase(t) && AsksWhy(t))
            && (g == CONFUSION <==> t == [] || (!HasMetaPhrase(t) && !AsksWhy(t)
                                                && HasConsentWord(t) && Hedges(t)))
            && (g == SLOT_VALUE <==> t != [] && !HasMetaPhrase(t) && !AsksWhy(t)
                                     && ((HasConsentWord(t) && !Hedges(t))
                                         || (!HasConsentWord(t) && MentionsAmount(t))))
            && (g == CHITCHAT <==> t != [] && !HasMetaPhrase(t) && !AsksWhy(t)
                                   && !HasConsentWord(t) && !MentionsAmount(t) && HasSmallTalk(t))
  {
    hide GuessHint, HasMetaPhrase, AsksWhy, HasConsentWord, Hedges, MentionsAmount, HasSmallTalk, Strip, Lower;
  }

  /** The model's `{"intent": label, "reply": hint}` when the label is one of
      the six intents; the hint is kept only when truthy, "" otherwise. */
  function OracleIntent(parsed: Option<Json>): (r: Option<Classified>)
    ensures r.Some? <==> parsed.Some? && parsed.value.JObject? && "intent" in parsed.value.fields
                         && parsed.value.fields["intent"].JString?
                         && ParseIntent(parsed.value.fields["intent"].s).Some?
    ensures r.Some? ==> r.value.intent == ParseIntent(parsed.value.fields["intent"].s).value
                        && (r.value.hint == JString("") || Truthy(r.value.hint))
  {
    match parsed
    case Some(JObject(f)) =>
      if "intent" in f && Truthy(f["intent"]) && f["intent"].JString? then
        match ParseIntent(f["intent"].s)
        case None => None
        case Some(i) =>
          var reply := Get(f, "reply").GetOr(JString(""));
          Some(Classified(i, if Truthy(reply) then reply else JString("")))
      else None
    case _ => None
  }

  /** `classify_intent_llm`: the model's label when it is one of the six
      intents, and the deterministic guess otherwise. */
  function ClassifyIntent(text: string, stage: LoanStage, llm: Llm): (r: Classified)
    ensures llm == Unavailable ==> r == DeterministicIntentGuess(text)
    ensures OracleIntent(JsonReply(llm, IntentPrompt(text, stage))).None? ==> r == DeterministicIntentGuess(text)
    ensures OracleIntent(JsonReply(llm, IntentPrompt(text, stage))).Some? ==>
              r == OracleIntent(JsonReply(llm, IntentPrompt(text, stage))).value
  {
    match OracleIntent(JsonReply(llm, IntentPrompt(text, stage)))
    case Some(c) => c
    case None => DeterministicIntentGuess(text)
  }

  /** A label outside the six intents is replaced by the deterministic guess. */
  lemma UnknownLabelFallsBack(text: string, stage: LoanStage, llm: Llm)
    requires JsonReply(llm, IntentPrompt(text, stage)).Some?
    requires var j := JsonReply(llm, IntentPrompt(text, stage)).value;
             j.JObject? && "intent" in j.fields && j.fields["intent"].JString?
             && ParseIntent(j.fields["intent"].s).None?
    ensures ClassifyIntent(text, stage, llm) == DeterministicIntentGuess(text)
  {
  }

  // ----- amount ---------------------------------------------------------------

  /** The exception the unit path's unguarded `float()` raises. */
  datatype AmountError = FloatValueError

  /** The oracle's `{"amount": a}` when `a` is a number (a bool counts as
      one): `int(float(a))`. */
  function OracleAmount(parsed: Option<Json>): (r: Option<int>)
    ensures r.Some? <==> parsed.Some? && parsed.value.JObject? && "amount" in parsed.value.fields
                         && IsNumber(parsed.value.fields["amount"])
    ensures r.Some? ==> r.value == Trunc(AsReal(parsed.value.fields["amount"]))
  {
    match parsed
    case Some(JObject(f)) =>
      if "amount" in f && IsNumber(f["amount"]) then Some(Trunc(AsReal(f["amount"]))) else None
    case _ => None
  }

  /** The alternatives of the unit group, in the order they are tried. */
  function UnitWords(): seq<string>
  {
    ["k", "m", "cr", "crore", "lakh", "million", "billion", "thousand"]
  }

  predicate IsAmountUnit(u: string) { u in UnitWords() }

  /** Every alternative is a lower-case word. */
  lemma UnitWordsAreWords()
    ensures forall a :: a in UnitWords() ==> IsLowerWord(a)
  {
  }

  /** A unit of the group is one of its alternatives and a lower-case word. */
  lemma AmountUnitIsWord(u: string)
    requires IsAmountUnit(u)
    ensures u in UnitWords() && IsLowerWord(u)
  {
    UnitWordsAreWords();
  }

  /** The first alternative of the group that occurs at `w` followed by `\b`. */
  function UnitAlternative(t: string, w: nat, alts: seq<string>): (r: Option<string>)
    ensures r.Some? ==> r.value in alts && OccursAt(t, r.value, w) && BoundaryAfter(t, w + |r.value|)
  {
    if alts == [] then None
    else if OccursAt(t, alts[0], w) && BoundaryAfter(t, w + |alts[0]|) then Some(alts[0])
    else UnitAlternative(t, w, alts[1..])
  }

  /** A word of the group written at `w` and ending at a word boundary is the
      alternative chosen there: no other word of letters can end at a
      boundary inside it or run on past its end. */
  lemma {:induction false} UnitAlternativeAt(t: string, w: nat, alts: seq<string>, u: string)
    requires w + |u| <= |t| && t[w..w + |u|] == u && BoundaryAfter(t, w + |u|)
    requires u in alts && IsLowerWord(u)
    requires forall a :: a in alts ==> IsLowerWord(a)
    ensures UnitAlternative(t, w, alts) == Some(u)
    decreases |alts|
  {
    var a := alts[0];
    assert IsLowerWord(a);
    if a != u {
      if OccursAt(t, a, w) && BoundaryAfter(t, w + |a|) {
        if |a| < |u| {
          assert t[w + |a|] == t[w..w + |u|][|a|] == u[|a|];
          assert IsWordChar(t[w + |a|]);
        }
        assert false;
      }
      assert u in alts[1..];
      UnitAlternativeAt(t, w, alts[1..], u);
    }
  }

  /** No alternative fits at the very end of the text. */
  lemma {:induction false} NoAlternativeAtEnd(t: string, alts: seq<string>)
    requires forall a :: a in alts ==> IsLowerWord(a)
    ensures UnitAlternative(t, |t|, alts) == None
    decreases |alts|
  {
    if alts != [] {
      assert !OccursAt(t, alts[0], |t|) by { assert IsLowerWord(alts[0]); }
      NoAlternativeAtEnd(t, alts[1..]);
    }
  }

  /** The two groups of a unit match. */
  predicate IsNumberWithUnit(num: string, unit: string)
  {
    |num| > 0 && (forall i :: 0 <= i < |num| ==> IsDigitOrDot(num[i])) && IsAmountUnit(unit)
  }

  /** `([\d\.]+)\s*(k|m|cr|crore|lakh|million|billion|thousand)\b` tried at
      position `p`. Giving back digits or spaces cannot help: the unit would
      then have to start at a digit, a dot or a space. */
  function UnitMatchAt(t: string, p: nat): (r: Option<(string, string)>)
    ensures r.Some? ==> IsNumberWithUnit(r.value.0, r.value.1)
  {
    if p >= |t| || !IsDigitOrDot(t[p]) then None
    else
      var e := RunEnd(t, p, DigitsOrDots);
      var w := RunEnd(t, e, Spaces);
      match UnitAlternative(t, w, UnitWords())
      case Some(u) => Some((t[p..e], u))
      case None => None
  }

  /** Where the unit of the match at `p` ends. */
  function UnitEnd(t: string, p: nat): (r: nat)
    requires UnitMatchAt(t, p).Some?
    ensures p < r <= |t|
  {
    var e := RunEnd(t, p, DigitsOrDots);
    var w := RunEnd(t, e, Spaces);
    w + |UnitMatchAt(t, p).value.1|
  }

  /** The unit of the match at `p` is followed, after optional white space,
      by another word of the group, as in "4 million billion". */
  predicate StackedAt(t: string, p: nat)
    requires UnitMatchAt(t, p).Some?
  {
    UnitAlternative(t, RunEnd(t, UnitEnd(t, p), Spaces), UnitWords()).Some?
  }

  /** `\b(\d{1,9})\b` tried at position `p`. */
  function PlainIntAt(t: string, p: nat): (r: Option<string>)
    ensures r.Some? ==> IsDigits(r.value) && |r.value| <= 9
  {
    if p >= |t| || !IsDigit(t[p]) || !BoundaryBefore(t, p) then None
    else
      var e := RunEnd(t, p, Digits);
      if e - p <= 9 && BoundaryAfter(t, e) then Some(t[p..e]) else None
  }

  /** `re.search` for the unit pattern: the match at the leftmost position
      from `p` on that has one (the position is `FirstUnitPos`). */
  function FirstUnitMatch(t: string, p: nat): (r: Option<(string, string)>)
    ensures r.Some? ==> IsNumberWithUnit(r.value.0, r.value.1) && exists k: nat :: p <= k <= |t| && UnitMatchAt(t, k) == r
    ensures r.None? <==> forall k: nat :: p <= k <= |t| ==> UnitMatchAt(t, k).None?
    decreases |t| + 1 - p
  {
    if p > |t| then None
    else if UnitMatchAt(t, p).Some? then UnitMatchAt(t, p)
    else FirstUnitMatch(t, p + 1)
  }

  /** Where `re.search` finds the unit pattern. */
  function FirstUnitPos(t: string, p: nat): (r: Option<nat>)
    ensures r.None? <==> FirstUnitMatch(t, p).None?
    ensures r.Some? ==> p <= r.value <= |t| && UnitMatchAt(t, r.value).Some?
                        && FirstUnitMatch(t, p) == UnitMatchAt(t, r.value)
    ensures r.Some? ==> forall j: nat :: p <= j < r.value ==> UnitMatchAt(t, j).None?
    decreases |t| + 1 - p
  {
    if p > |t| then None
    else if UnitMatchAt(t, p).Some? then Some(p)
    else FirstUnitPos(t, p + 1)
  }

  /** The unit that `re.search` finds is followed by another unit. */
  predicate StackedUnits(t: string)
  {
    match FirstUnitPos(t, 0)
    case Some(p) => StackedAt(t, p)
    case None => false
  }

  /** `re.search` for the plain integer pattern. */
  function FirstPlainInt(t: string, p: nat): (r: Option<string>)
    ensures r.Some? ==> IsDigits(r.value) && |r.value| <= 9 && exists k: nat :: p <= k <= |t| && PlainIntAt(t, k) == r &&
                                                                 forall j: nat :: p <= j < k ==> PlainIntAt(t, j).None?
    ensures r.None? <==> forall k: nat :: p <= k <= |t| ==> PlainIntAt(t, k).None?
    decreases |t| + 1 - p
  {
    if p > |t| then None
    else if PlainIntAt(t, p).Some? then PlainIntAt(t, p)
    else FirstPlainInt(t, p + 1)
  }

  /** `int(float(num) * _WORD_UNITS[unit])`, where `float()` raises on a
      string such as "1.2.3". */
  function UnitAmount(num: string, unit: string): (r: Result<Option<int>, AmountError>)
    requires forall i :: 0 <= i < |num| ==> IsDigitOrDot(num[i])
    requires IsAmountUnit(unit)
    ensures r.Raised? <==> ParseDecimal(num).None?
    ensures r.Ok? ==> r.value.Some? && r.value.value >= 0
  {
    match ParseDecimal(num)
    case None => Raised(FloatValueError)
    case Some(x) => Ok(Some(Trunc(Scale(x, WordUnit(unit).value))))
  }

  /** `extract_amount`: the oracle's number first, then the rules on the
      lower-cased, comma-free and stripped text. Only a unit match whose
      number `float()` refuses raises. The rules are the corrected ones:
      they agree with the rules as written except on stacked units, which
      give no amount here. */
  function ExtractAmount(text: string, llm: Llm): (r: Result<Option<int>, AmountError>)
    ensures OracleAmount(JsonReply(llm, AmountPrompt(text))).Some? ==> r == Ok(OracleAmount(JsonReply(llm, AmountPrompt(text))))
    ensures OracleAmount(JsonReply(llm, AmountPrompt(text))).None? && r.Ok? && r.value.Some? ==> r.value.value >= 0
    ensures var m := FirstUnitMatch(Normalize(text), 0);
            r.Raised? <==> OracleAmount(JsonReply(llm, AmountPrompt(text))).None? && m.Some? && ParseDecimal(m.value.0).None?
    ensures OracleAmount(JsonReply(llm, AmountPrompt(text))).None? && !StackedUnits(Normalize(text)) ==>
              r == RuleAmountAsWritten(Normalize(text))
    ensures OracleAmount(JsonReply(llm, AmountPrompt(text))).None? && StackedUnits(Normalize(text)) ==>
              r.Raised? || r == Ok(None)
  {
    var viaOracle := OracleAmount(JsonReply(llm, AmountPrompt(text)));
    if viaOracle.Some? then Ok(viaOracle)
    else RuleAmount(Normalize(text))
  }

  /** The rules `extract_amount` falls back on, as written: the first number
      with a unit, then `words_to_number`, then the first 1-9 digit integer,
      and no amount when none of them applies. */
  function RuleAmountAsWritten(t: string): (r: Result<Option<int>, AmountError>)
    ensures var m := FirstUnitMatch(t, 0);
            m.Some? ==> match ParseDecimal(m.value.0)
                        case None => r.Raised?
                        case Some(x) => r == Ok(Some(Trunc(Scale(x, WordUnit(m.value.1).value))))
    ensures FirstUnitMatch(t, 0).None? && WordsToNumber(t).Some? ==> r == Ok(Some(Trunc(WordsToNumber(t).value)))
    ensures FirstUnitMatch(t, 0).None? && WordsToNumber(t).None? && FirstPlainInt(t, 0).Some? ==>
              r == Ok(Some(DigitsToNat(FirstPlainInt(t, 0).value)))
    ensures FirstUnitMatch(t, 0).None? && WordsToNumber(t).None? && FirstPlainInt(t, 0).None? ==> r == Ok(None)
    ensures r.Ok? && r.value.Some? ==> r.value.value >= 0
  {
    match FirstUnitMatch(t, 0)
    case Some(m) => UnitAmount(m.0, m.1)
    case None =>
      match WordsToNumber(t)
      case Some(v) => Ok(Some(Trunc(v)))
      case None =>
        match FirstPlainInt(t, 0)
        case Some(d) => Ok(Some(DigitsToNat(d)))
        case None => Ok(None)
  }

  /** The rules with stacked units refused: a number followed by two unit
      words, such as "4 million billion", gives no amount instead of the
      number times the first unit. Everything else is as written. */
  function RuleAmount(t: string): (r: Result<Option<int>, AmountError>)
    ensures r.Raised? <==> FirstUnitMatch(t, 0).Some? && ParseDecimal(FirstUnitMatch(t, 0).value.0).None?
    ensures StackedUnits(t) ==> r.Raised? || r == Ok(None)
    ensures !StackedUnits(t) ==> r == RuleAmountAsWritten(t)
    ensures r.Ok? && r.value.Some? ==> r.value.value >= 0
  {
    var asWritten := RuleAmountAsWritten(t);
    if StackedUnits(t) && asWritten.Ok? then Ok(None) else asWritten
  }

  /** A whole number times a unit multiplier is a whole amount. */
  lemma TruncScaleWhole(n: nat, m: int)
    requires m > 0
    ensures Trunc(Scale(n as real, m)) == n * m
  {
    assert Scale(n as real, m) == (n * m) as real;
  }

  /** A number, white space and a unit of the group, followed by the end of
      the text or a character that is not a word character, is the unit
      pattern's match at the start. */
  lemma NumberUnitAt(n: string, sp: string, u: string, rest: string)
    requires IsNumeral(n) && AllSpaces(sp) && IsAmountUnit(u)
    requires rest == [] || !IsWordChar(rest[0])
    ensures var t := n + sp + u + rest;
            UnitMatchAt(t, 0) == Some((n, u)) && UnitEnd(t, 0) == |n| + |sp| + |u| &&
            FirstUnitPos(t, 0) == Some(0)
  {
    var t := n + sp + u + rest;
    var w := |n| + |sp|;
    UnitWordsAreWords();
    assert IsLowerWord(u);
    assert forall k :: 0 <= k < |n| ==> t[k] == n[k];
    assert forall k :: |n| <= k < w ==> t[k] == sp[k - |n|];
    assert t[w..w + |u|] == u;
    assert t[w] == u[0];
    assert w + |u| < |t| ==> t[w + |u|] == rest[0];
    RunEndAt(t, 0, |n|, DigitsOrDots);
    RunEndAt(t, |n|, w, Spaces);
    UnitAlternativeAt(t, w, UnitWords(), u);
    assert t[..|n|] == n;
  }

  /** The language model being unavailable, the rules decide. */
  lemma RulesWhenUnavailable(text: string)
    ensures ExtractAmount(text, Unavailable) == RuleAmount(Normalize(text))
  {
  }

  /** A number followed by a unit word ("4 lakh", "4.5 lakh", "100k",
      ".9 million", "1 crore") is the number times the unit, cut to a whole
      amount. */
  lemma NumberWithUnitAmount(n: string, sp: string, u: string)
    requires IsNumeral(n) && ParseDecimal(n).Some? && AllSpaces(sp) && IsAmountUnit(u)
    ensures ExtractAmount(n + sp + u, Unavailable) == Ok(Some(Trunc(Scale(ParseDecimal(n).value, WordUnit(u).value))))
  {
    var t := n + sp + u;
    assert t + [] == t;
    NumberUnitAt(n, sp, u, []);
    UnitWordsAreWords();
    NormalizeNumberUnit(n, sp, u);
    RunEndAt(t, |t|, |t|, Spaces);
    NoAlternativeAtEnd(t, UnitWords());
    assert !StackedUnits(t);
    hide Normalize, UnitMatchAt, FirstUnitPos, StackedUnits, WordsToNumber, FirstPlainInt, ParseDecimal, Scale;
    RulesWhenUnavailable(t);
  }

  /** A whole number followed by a unit word is the exact product. */
  lemma WholeNumberWithUnitAmount(n: string, sp: string, u: string)
    requires IsDigits(n) && AllSpaces(sp) && IsAmountUnit(u)
    ensures ExtractAmount(n + sp + u, Unavailable) == Ok(Some(DigitsToNat(n) * WordUnit(u).value))
  {
    ParseDecimalOfDigits(n);
    NumberWithUnitAmount(n, sp, u);
    TruncScaleWhole(DigitsToNat(n), WordUnit(u).value);
  }

  /** Digits alone hold no number with a unit. */
  lemma DigitsHaveNoUnit(d: string)
    requires IsDigits(d)
    ensures FirstUnitMatch(d, 0).None? && FirstUnitPos(d, 0).None?
  {
    UnitWordsAreWords();
    NoAlternativeAtEnd(d, UnitWords());
    RunEndAt(d, |d|, |d|, Spaces);
    forall k: nat | k <= |d| ensures UnitMatchAt(d, k).None? {
      if k < |d| {
        RunEndAt(d, k, |d|, DigitsOrDots);
      }
    }
  }

  /** A plain whole number is taken as the amount. */
  lemma PlainDigitsAmount(d: string)
    requires IsDigits(d)
    ensures ExtractAmount(d, Unavailable) == Ok(Some(DigitsToNat(d)))
  {
    NormalizeFixed(d);
    PlainDigitsRule(d);
    hide Normalize, RuleAmount, DigitsToNat;
    RulesWhenUnavailable(d);
  }

  /** The rules read plain digits as the words path does: their value. */
  lemma PlainDigitsRule(d: string)
    requires IsDigits(d)
    ensures RuleAmount(d) == Ok(Some(DigitsToNat(d)))
  {
    DigitsHaveNoUnit(d);
    WholeNumberRead(d);
    hide UnitMatchAt, FirstUnitMatch, FirstUnitPos, WordsToNumber, FirstPlainInt, ParseDecimal, DigitsToNat;
    assert !StackedUnits(d);
  }

  /** As written, a number followed by two unit words is read as the number
      times the first unit: "4 million billion" is 4000000. */
  lemma StackedUnitsAsWritten(d: string, sp1: string, a: string, sp2: string, b: string)
    requires NumberThenTwoWords(d, sp1, a, sp2, b) && IsAmountUnit(a)
    ensures RuleAmountAsWritten(d + sp1 + a + sp2 + b) == Ok(Some(DigitsToNat(d) * WordUnit(a).value))
  {
    var t := d + sp1 + a + sp2 + b;
    assert t == d + sp1 + a + (sp2 + b);
    assert (sp2 + b)[0] == sp2[0];
    NumberUnitAt(d, sp1, a, sp2 + b);
    ParseDecimalOfDigits(d);
    TruncScaleWhole(DigitsToNat(d), WordUnit(a).value);
  }

  /** White space and a word after some text: the space run ends where the
      word begins, and the word runs to the end. */
  lemma SpacesThenWord(p: string, sp: string, b: string)
    requires AllSpaces(sp) && IsLowerWord(b)
    ensures var t := p + sp + b;
            RunEnd(t, |p|, Spaces) == |p| + |sp| && t[|p| + |sp|..|t|] == b
  {
    var t := p + sp + b;
    assert forall k :: |p| <= k < |p| + |sp| ==> t[k] == sp[k - |p|];
    assert t[|p| + |sp|] == b[0];
    RunEndAt(t, |p|, |p| + |sp|, Spaces);
  }

  /** The units are stacked when the first match's unit is followed, after
      white space, by another word of the group. */
  lemma StackedFrom(t: string, p: nat, q: nat, b: string)
    requires FirstUnitPos(t, 0) == Some(p)
    requires UnitMatchAt(t, p).Some? && UnitEnd(t, p) <= q <= |t| && RunEnd(t, UnitEnd(t, p), Spaces) == q
    requires UnitAlternative(t, q, UnitWords()) == Some(b)
    ensures StackedUnits(t)
  {
  }

  /** The pieces of a number followed by two words, as the unit lemmas take
      them. */
  lemma NumberThenTwoWordsParts(d: string, sp1: string, a: string, sp2: string, b: string)
    requires NumberThenTwoWords(d, sp1, a, sp2, b)
    ensures IsNumeral(d) && AllSpaces(sp1) && AllSpaces(sp2) && IsLowerWord(b)
    ensures !IsWordChar((sp2 + b)[0])
    ensures d + sp1 + a + sp2 + b == d + sp1 + a + (sp2 + b)
  {
    assert (sp2 + b)[0] == sp2[0];
  }

  /** A number followed by two unit words has its units stacked. */
  lemma NumberThenTwoUnitsStacked(d: string, sp1: string, a: string, sp2: string, b: string)
    requires NumberThenTwoWords(d, sp1, a, sp2, b) && IsAmountUnit(a) && IsAmountUnit(b)
    ensures StackedUnits(d + sp1 + a + sp2 + b)
  {
    var t := d + sp1 + a + sp2 + b;
    var y := |d| + |sp1| + |a|;
    hide NumberThenTwoWords, IsNumeral, AllSpaces, IsLowerWord, IsAmountUnit;
    hide UnitMatchAt, UnitEnd, StackedUnits, FirstUnitPos, UnitAlternative, RunEnd;
    NumberThenTwoWordsParts(d, sp1, a, sp2, b);
    NumberUnitAt(d, sp1, a, sp2 + b);
    SpacesThenWord(d + sp1 + a, sp2, b);
    UnitWordsAreWords();
    AmountUnitIsWord(b);
    UnitAlternativeAt(t, y + |sp2|, UnitWords(), b);
    StackedFrom(t, 0, y + |sp2|, b);
  }

  /** Corrected, a number followed by two unit words gives no amount. */
  lemma StackedUnitsUnresolved(d: string, sp1: string, a: string, sp2: string, b: string)
    requires NumberThenTwoWords(d, sp1, a, sp2, b) && IsAmountUnit(a) && IsAmountUnit(b)
    ensures ExtractAmount(d + sp1 + a + sp2 + b, Unavailable) == Ok(None)
  {
    var t := d + sp1 + a + sp2 + b;
    hide Normalize, StackedUnits, RuleAmountAsWritten, NumberThenTwoWords, FirstUnitMatch, WordsToNumber, FirstPlainInt;
    NumberThenTwoUnitsStacked(d, sp1, a, sp2, b);
    StackedUnitsAsWritten(d, sp1, a, sp2, b);
    NumberThenTwoWordsNormalized(d, sp1, a, sp2, b);
    RulesWhenUnavailable(t);
  }

  /** "4 lakh", "1 crore" and "100k" are read with their units. */
  lemma WholeUnitExamples()
    ensures ExtractAmount("4 lakh", Unavailable) == Ok(Some(400000))
    ensures ExtractAmount("1 crore", Unavailable) == Ok(Some(10000000))
    ensures ExtractAmount("100k", Unavailable) == Ok(Some(100000))
  {
    assert IsDigits("4") && IsDigits("1") && IsDigits("100") && AllSpaces(" ") && AllSpaces("");
    assert IsAmountUnit("lakh") && IsAmountUnit("crore") && IsAmountUnit("k");
    assert DigitsToNat("4") * WordUnit("lakh").value == 400000;
    assert DigitsToNat("1") * WordUnit("crore").value == 10000000;
    assert DigitsToNat("100") * WordUnit("k").value == 100000;
    hide ExtractAmount, IsDigits, AllSpaces, IsAmountUnit, DigitsToNat, WordUnit;
    assert "4" + " " + "lakh" == "4 lakh";
    assert "1" + " " + "crore" == "1 crore";
    assert "100" + "" + "k" == "100k";
    WholeNumberWithUnitAmount("4", " ", "lakh");
    WholeNumberWithUnitAmount("1", " ", "crore");
    WholeNumberWithUnitAmount("100", "", "k");
  }

  /** ".9 million" is nine tenths of a million. */
  lemma FractionUnitExample()
    ensures ExtractAmount(".9 million", Unavailable) == Ok(Some(900000))
  {
    assert IsNumeral(".9") && AllSpaces(" ") && IsAmountUnit("million");
    assert ParseDecimal(".9") == Some(0.9) by {
      RunEndAt(".9", 0, 0, Digits);
      assert ".9"[1..] == "9";
    }
    assert Trunc(Scale(0.9, WordUnit("million").value)) == 900000;
    hide ExtractAmount, IsNumeral, AllSpaces, IsAmountUnit, ParseDecimal, Trunc, Scale, WordUnit;
    assert ".9" + " " + "million" == ".9 million";
    NumberWithUnitAmount(".9", " ", "million");
  }

  /** "4 million billion": 4000000 as written, no amount once corrected. */
  lemma FourMillionBillion()
    ensures RuleAmountAsWritten("4 million billion") == Ok(Some(4000000))
    ensures ExtractAmount("4 million billion", Unavailable) == Ok(None)
  {
    assert NumberThenTwoWords("4", " ", "million", " ", "billion");
    assert IsAmountUnit("million") && IsAmountUnit("billion");
    assert DigitsToNat("4") * WordUnit("million").value == 4000000;
    hide RuleAmountAsWritten, ExtractAmount, NumberThenTwoWords, IsAmountUnit, DigitsToNat, WordUnit;
    assert "4" + " " + "million" + " " + "billion" == "4 million billion";
    StackedUnitsAsWritten("4", " ", "million", " ", "billion");
    StackedUnitsUnresolved("4", " ", "million", " ", "billion");
  }

  // ----- customer id and consent ----------------------------------------------

  /** `CUST` followed by exactly three digits. */
  predicate IsCustomerId(s: string)
  {
    |s| == 7 && s[..4] == "CUST" && AllDigits(s[4..])
  }

  /** An id starts at position `p` of `u`. */
  predicate IdAt(u: string, p: nat)
  {
    p + 7 <= |u| && IsCustomerId(u[p..p + 7])
  }

  /** No id starts at or after position `p` of `u`. */
  predicate NoIdFrom(u: string, p: nat)
  {
    forall k: nat :: p <= k <= |u| ==> !IdAt(u, k)
  }

  /** `re.search(r"CUST\d{3}", u)` from position `p` on: the id at the
      leftmost position that has one, and None exactly when none has. */
  function FirstCustomerId(u: string, p: nat): (r: Option<string>)
    ensures r.Some? ==> IsCustomerId(r.value) && exists k: nat :: p <= k <= |u| && IdAt(u, k) && r.value == u[k..k + 7] &&
                                                   forall j: nat :: p <= j < k ==> !IdAt(u, j)
    ensures r.None? <==> NoIdFrom(u, p)
    decreases |u| + 1 - p
  {
    if p > |u| then None
    else if IdAt(u, p) then Some(u[p..p + 7])
    else FirstCustomerId(u, p + 1)
  }

  /** `extract_customer_id`: the whole upper-cased, stripped text when it is
      an id, else the first id inside the upper-cased text. */
  function ExtractCustomerId(text: string): (r: Option<string>)
    ensures r.Some? ==> IsCustomerId(r.value) && forall i :: 0 <= i < |r.value| ==> !IsLower(r.value[i])
    ensures r.None? <==> !IsCustomerId(Upper(Strip(text))) && NoIdFrom(Upper(text), 0)
    ensures IsCustomerId(Upper(Strip(text))) ==> r == Some(Upper(Strip(text)))
    ensures !IsCustomerId(Upper(Strip(text))) ==> r == FirstCustomerId(Upper(text), 0)
  {
    var t := Upper(Strip(text));
    if IsCustomerId(t) then
      IdHasNoLower(t);
      Some(t)
    else
      var f := FirstCustomerId(Upper(text), 0);
      if f.Some? then IdHasNoLower(f.value); f else f
  }

  /** An id is upper case throughout: `CUST` and digits. */
  lemma IdHasNoLower(s: string)
    requires IsCustomerId(s)
    ensures forall i :: 0 <= i < |s| ==> !IsLower(s[i])
  {
    forall i | 0 <= i < |s|
      ensures !IsLower(s[i])
    {
      if i < 4 {
        assert s[i] == s[..4][i];
      } else {
        assert s[i] == s[4..][i - 4];
      }
    }
  }

  /** The text holds an affirmative word. */
  predicate SaysYes(t: string) { ContainsAnyWord(t, ["yes", "yep", "ok", "okay", "i do", "i agree", "agree", "sure"]) }

  /** The text holds a negative word. */
  predicate SaysNo(t: string) { ContainsAnyWord(t, ["no", "nope", "don't", "do not", "not"]) }


  /** The model's `{"consent": c}`: only a JSON boolean counts. */
  function OracleConsent(parsed: Option<Json>): (r: Option<bool>)
    ensures r.Some? <==> parsed.Some? && parsed.value.JObject? && "consent" in parsed.value.fields
                         && parsed.value.fields["consent"].JBool?
    ensures r.Some? ==> parsed.value.fields["consent"] == JBool(r.value)
  {
    match parsed
    case Some(JObject(f)) =>
      if "consent" in f && f["consent"].JBool? then Some(f["consent"].b) else None
    case _ => None
  }

  /** `extract_consent`: affirmative words, then negative words, then the
      model. */
  function ExtractConsent(text: string, llm: Llm): (r: Option<bool>)
    ensures SaysYes(Lower(text)) ==> r == Some(true)
    ensures !SaysYes(Lower(text)) && SaysNo(Lower(text)) ==> r == Some(false)
    ensures !SaysYes(Lower(text)) && !SaysNo(Lower(text)) ==>
              r == OracleConsent(JsonReply(llm, ConsentPrompt(text)))
    ensures llm == Unavailable && r.Some? ==> SaysYes(Lower(text)) || SaysNo(Lower(text))
  {
    var t := Lower(text);
    if SaysYes(t) then Some(true)
    else if SaysNo(t) then Some(false)
    else OracleConsent(JsonReply(llm, ConsentPrompt(text)))
  }

  /** The affirmative words win: "I do not agree" is consent. */
  lemma DoNotAgreeIsConsent(llm: Llm)
    ensures ExtractConsent("I do not agree", llm) == Some(true)
  {
    var s := "I do not agree";
    var t := Lower(s);
    assert s[0] == 'I' && s[1] == ' ' && s[2] == 'd' && s[3] == 'o' && s[4] == ' ';
    assert t[0] == 'i' && t[1] == ' ' && t[2] == 'd' && t[3] == 'o' && t[4] == ' ';
    OpensWithIDo(t);
  }

  /** A lower-cased text that opens with "i do " holds the affirmative "i do". */
  lemma OpensWithIDo(t: string)
    requires |t| > 5 && t[0] == 'i' && t[1] == ' ' && t[2] == 'd' && t[3] == 'o' && t[4] == ' '
    ensures SaysYes(t)
  {
    assert t[0..4] == "i do";
    assert WordAt(t, "i do", 0);
    assert "i do" in ["yes", "yep", "ok", "okay", "i do", "i agree", "agree", "sure"];
  }
}
