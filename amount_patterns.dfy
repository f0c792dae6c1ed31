/** The six amount patterns shared by `SlotFiller.extract_loan_amount` and
    `AmountWorker._extract_raw_amount`, searched case-insensitively:

      0  ₹\s*(N)\s*(?:lakh|lac|l)?
      1  (N)\s*(?:lakh|lac|l)
      2  ₹\s*(N)
      3  (N)\s*rupees
      4  \b(\d{2,7})\s*(k|thousand)\b
      5  \b(\d{4,7})\b

    where N is `\d+(?:,\d+)*(?:\.\d+)?`. Each pattern is written as the test
    "a match starts at position i" together with the first group it captures;
    a search takes the leftmost start. Backtracking never changes a group
    here: giving back part of N, of a digit run or of a space run always
    leaves a digit, comma, dot or space next, which none of the continuations
    accepts. For the same reason patterns 0 and 2 capture the same group. */
module AmountPatterns {
  import opened Outcomes
  import opened Text

  /** The rupee sign. */
  const Rupee: char := '\U{20B9}'

  /** The end of `\d+(?:,\d+)*` read greedily from the digit at `p`. */
  function IntPartEnd(s: string, p: nat): (e: nat)
    requires p < |s| && IsDigit(s[p])
    ensures p < e <= |s| && IsDigit(s[e - 1])
    ensures forall k :: p <= k < e ==> IsDigit(s[k]) || s[k] == ','
    ensures forall k :: p <= k < e && s[k] == ',' ==> IsDigit(s[k + 1])
    decreases |s| - p
  {
    var d := RunEnd(s, p, Digits);
    if d + 1 < |s| && s[d] == ',' && IsDigit(s[d + 1]) then IntPartEnd(s, d + 1) else d
  }

  /** The end of N read greedily from the digit at `p`. */
  function NumberEnd(s: string, p: nat): (e: nat)
    requires p < |s| && IsDigit(s[p])
    ensures p < e <= |s|
    ensures forall k :: p <= k < e ==> IsDigit(s[k]) || s[k] == ',' || s[k] == '.'
  {
    var i := IntPartEnd(s, p);
    if i + 1 < |s| && s[i] == '.' && IsDigit(s[i + 1]) then RunEnd(s, i + 1, Digits) else i
  }

  /** A match: the first group is `s[start..end]`; `thousands` records that
      the second group (k or thousand) took part. */
  datatype Hit = Hit(start: nat, end: nat, thousands: bool)

  /** A group lies inside the text and holds only digits, commas and dots,
      with a digit first. */
  predicate HitOk(s: string, h: Hit)
  {
    h.start < h.end <= |s| && IsDigit(s[h.start]) &&
    forall k :: h.start <= k < h.end ==> IsDigit(s[k]) || s[k] == ',' || s[k] == '.'
  }

  /** Pattern `k` matches starting at position `i`, capturing the returned
      group. */
  function MatchAt(s: string, i: nat, k: nat): (r: Option<Hit>)
    requires i < |s|
    ensures r.Some? ==> HitOk(s, r.value)
    ensures r.Some? ==> (r.value.thousands <==> k == 4)
  {
    if k == 0 || k == 2 then
      if s[i] != Rupee then None
      else
        var p := RunEnd(s, i + 1, Spaces);
        if p < |s| && IsDigit(s[p]) then Some(Hit(p, NumberEnd(s, p), false)) else None
    else if k == 1 || k == 3 then
      if !IsDigit(s[i]) then None
      else
        var e := NumberEnd(s, i);
        var j := RunEnd(s, e, Spaces);
        var follows :=
          if k == 1 then j < |s| && LowerChar(s[j]) == 'l'
          else j + 6 <= |s| && Lower(s[j..j + 6]) == "rupees";
        if follows then Some(Hit(i, e, false)) else None
    else if k == 4 || k == 5 then
      if !IsDigit(s[i]) || !BoundaryBefore(s, i) then None
      else
        var d := RunEnd(s, i, Digits);
        if k == 4 then
          var j := RunEnd(s, d, Spaces);
          var unit :=
            (j < |s| && LowerChar(s[j]) == 'k' && BoundaryAfter(s, j + 1)) ||
            (j + 8 <= |s| && Lower(s[j..j + 8]) == "thousand" && BoundaryAfter(s, j + 8));
          if 2 <= d - i <= 7 && unit then Some(Hit(i, d, true)) else None
        else
          if 4 <= d - i <= 7 && BoundaryAfter(s, d) then Some(Hit(i, d, false)) else None
    else None
  }

  /** `re.search`: the match of pattern `k` with the leftmost start at or
      after `i`. */
  function Search(s: string, i: nat, k: nat): (r: Option<Hit>)
    ensures r.Some? ==> HitOk(s, r.value) && r.value.thousands == (k == 4)
    ensures r.Some? ==> exists j :: i <= j < |s| && MatchAt(s, j, k) == r &&
                                    forall j' :: i <= j' < j ==> MatchAt(s, j', k).None?
    ensures r.None? <==> forall j :: i <= j < |s| ==> MatchAt(s, j, k).None?
    decreases |s| - i
  {
    hide MatchAt;
    if i >= |s| then None
    else if MatchAt(s, i, k).Some? then MatchAt(s, i, k)
    else Search(s, i + 1, k)
  }

  /** `float(g.replace(',', ''))`; None stands for the `ValueError`. */
  function GroupValue(g: string): (r: Option<real>)
    requires forall k :: 0 <= k < |g| ==> IsDigit(g[k]) || g[k] == ',' || g[k] == '.'
    ensures r.Some? ==> r.value >= 0.0
  {
    var t := RemoveChar(g, ',');
    assert forall k :: 0 <= k < |t| ==> IsDigitOrDot(t[k]) by {
      forall k | 0 <= k < |t| ensures IsDigitOrDot(t[k]) {
        assert t[k] in t;
      }
    }
    ParseDecimal(t)
  }

  /** `'lakh' in text.lower() or 'lac' in text.lower()`. */
  predicate MentionsLakh(text: string)
  {
    Contains(Lower(text), "lakh") || Contains(Lower(text), "lac")
  }

  /** The amount a match stands for: the group's value, times 1000 when the
      k/thousand group took part, times 100000 when "lakh" or "lac" appears
      anywhere in the message. */
  function HitAmount(text: string, h: Hit): (r: Option<real>)
    requires HitOk(text, h)
    ensures r.Some? ==> r.value >= 0.0
  {
    match GroupValue(text[h.start..h.end])
    case None => None
    case Some(v) =>
      var a := v * (if h.thousands then 1000.0 else 1.0);
      Some(if MentionsLakh(text) then a * 100000.0 else a)
  }

  /** The commas of `\d+(?:,\d+)*` go, and a non-empty digit string remains. */
  lemma IntPartDigits(s: string, p: nat)
    requires p < |s| && IsDigit(s[p])
    ensures IsDigits(RemoveChar(s[p..IntPartEnd(s, p)], ','))
  {
    hide IntPartEnd;
    var g := s[p..IntPartEnd(s, p)];
    assert forall k :: 0 <= k < |g| ==> IsDigit(g[k]) || g[k] == ',';
    var t := RemoveChar(g, ',');
    assert g[0] == s[p] && g[0] != ',';
    assert t == [g[0]] + RemoveChar(g[1..], ',');
    forall k | 0 <= k < |t| ensures IsDigit(t[k]) {
      assert t[k] in t;
      var j :| 0 <= j < |g| && g[j] == t[k];
    }
  }

  /** Digits, a point and digits parse. */
  lemma DotJoinParses(x: string, y: string)
    requires IsDigits(x) && AllDigits(y)
    ensures forall k :: 0 <= k < |x + ['.'] + y| ==> IsDigitOrDot((x + ['.'] + y)[k])
    ensures ParseDecimal(x + ['.'] + y).Some?
  {
    var t := x + ['.'] + y;
    assert t[..|x|] == x;
    assert t[|x| + 1..] == y;
    ParseDecimalOneDot(t, |x|);
  }

  /** An integer part followed by a point and digits loses only its commas. */
  lemma FractionCommas(a: string, y: string)
    requires AllDigits(y)
    ensures RemoveChar(a + ['.'] + y, ',') == RemoveChar(a, ',') + ['.'] + y
  {
    hide RemoveChar;
    RemoveCharAppend(a, ['.'] + y, ',');
    assert a + ['.'] + y == a + (['.'] + y);
    RemoveCharCons('.', y, ',');
    RemoveCharDigits(y, ',');
  }

  /** Every group the patterns capture parses, so the `except ValueError`
      branch of both callers is never taken. */
  lemma GroupAlwaysParses(s: string, p: nat)
    requires p < |s| && IsDigit(s[p])
    ensures GroupValue(s[p..NumberEnd(s, p)]).Some?
  {
    hide IntPartEnd, ParseDecimal, RunEnd, RemoveChar;
    var i := IntPartEnd(s, p);
    IntPartDigits(s, p);
    var e := NumberEnd(s, p);
    if i + 1 < |s| && s[i] == '.' && IsDigit(s[i + 1]) {
      assert AllDigits(s[i + 1..e]);
      assert s[p..e] == s[p..i] + ['.'] + s[i + 1..e];
      FractionCommas(s[p..i], s[i + 1..e]);
      DotJoinParses(RemoveChar(s[p..i], ','), s[i + 1..e]);
    } else {
      ParseDecimalOfDigits(RemoveChar(s[p..i], ','));
    }
  }

  /** Every match has a value. */
  lemma MatchAlwaysParses(s: string, i: nat, k: nat)
    requires i < |s| && MatchAt(s, i, k).Some?
    ensures GroupValue(s[MatchAt(s, i, k).value.start..MatchAt(s, i, k).value.end]).Some?
  {
    var h := MatchAt(s, i, k).value;
    if k == 0 || k == 2 || k == 1 || k == 3 {
      assert h.end == NumberEnd(s, h.start);
      GroupAlwaysParses(s, h.start);
    } else {
      assert h.end == RunEnd(s, h.start, Digits);
      assert AllDigits(s[h.start..h.end]);
      RemoveCharDigits(s[h.start..h.end], ',');
      ParseDecimalOfDigits(RemoveChar(s[h.start..h.end], ','));
    }
  }

  /** The first match of a pattern always has a value. */
  lemma SearchAlwaysParses(s: string, k: nat)
    requires Search(s, 0, k).Some?
    ensures HitAmount(s, Search(s, 0, k).value).Some?
  {
    var j :| 0 <= j < |s| && MatchAt(s, j, k) == Search(s, 0, k) &&
             forall j' :: 0 <= j' < j ==> MatchAt(s, j', k).None?;
    MatchAlwaysParses(s, j, k);
  }
}
