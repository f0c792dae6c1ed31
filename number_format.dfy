/** Python's fixed-point rendering `format(x, ",.Nf")` of a non-negative
    number, as the workers use it to show amounts: the value is rounded half
    to even at N decimals and the whole part is grouped in threes with
    commas. */
module NumberFormat {
  import opened Outcomes
  import opened Text
  import opened AmountPatterns

  /** `format(n, ",d")`: the digits of `n` in groups of three, separated by
      commas. */
  function Group(n: nat): (r: string)
    ensures r != [] && IsDigit(r[0])
    ensures forall i :: 0 <= i < |r| ==> IsDigit(r[i]) || r[i] == ','
  {
    if n < 1000 then NatToString(n) else Group(n / 1000) + "," + PadDigits(n % 1000, 3)
  }

  /** One step of `Group`. */
  lemma GroupUnfold(n: nat)
    ensures n < 1000 ==> Group(n) == NatToString(n)
    ensures n >= 1000 ==> Pow10(3) == 1000 &&
                          Group(n) == Group(n / 1000) + [','] + PadDigits(n % 1000, 3)
  {
    assert Pow10(3) == 1000;
  }

  /** Removing the commas around a separator and a digit string. */
  lemma DropCommas(g: string, sep: char, p: string)
    requires AllDigits(p)
    ensures RemoveChar(g + [sep] + p, ',') == RemoveChar(g, ',') + (if sep == ',' then [] else [sep]) + p
  {
    RemoveCharAppend(g + [sep], p, ',');
    RemoveCharAppend(g, [sep], ',');
    RemoveCharDigits(p, ',');
    assert RemoveChar([sep], ',') == (if sep == ',' then [] else [sep]) by {
      assert [sep][1..] == [];
    }
  }

  /** Dropping the commas of a grouped number gives its plain digits back. */
  lemma {:induction false} GroupReadsBack(n: nat)
    ensures IsDigits(RemoveChar(Group(n), ','))
    ensures DigitsToNat(RemoveChar(Group(n), ',')) == n
    decreases n
  {
    hide DigitsToNat, RemoveChar, Group, NatToString, PadDigits, Pow10;
    GroupUnfold(n);
    if n < 1000 {
      RemoveCharDigits(NatToString(n), ',');
      NatToStringRoundTrip(n);
    } else {
      var g := Group(n / 1000);
      var p := PadDigits(n % 1000, 3);
      GroupReadsBack(n / 1000);
      DropCommas(g, ',', p);
      assert RemoveChar(Group(n), ',') == RemoveChar(g, ',') + p;
      DigitsToNatAppend(RemoveChar(g, ','), p);
      assert n / 1000 * 1000 + n % 1000 == n;
    }
  }

  /** The digits of `q / 10^places` with the point set `places` digits from
      the right. */
  function Render(q: nat, places: nat): (r: string)
    ensures r != [] && IsDigit(r[0])
    ensures forall i :: 0 <= i < |r| ==> IsDigit(r[i]) || r[i] == ',' || r[i] == '.'
  {
    var p := Pow10(places);
    DivFacts(q, p);
    var whole := Group(q / p);
    if places == 0 then whole else whole + "." + PadDigits(q % p, places)
  }

  /** `x` counted in units of `10^-places`, rounded half to even. */
  function Scaled(x: real, places: nat): (q: nat)
    requires x >= 0.0
    ensures x * Pow10(places) as real - 0.5 <= q as real <= x * Pow10(places) as real + 0.5
  {
    assert x * Pow10(places) as real >= 0.0;
    RoundHalfEven(x * Pow10(places) as real)
  }

  /** `format(x, ",.Nf")` for `x >= 0`. */
  function FormatFixed(x: real, places: nat): (r: string)
    requires x >= 0.0
    ensures r != [] && IsDigit(r[0])
    ensures forall i :: 0 <= i < |r| ==> IsDigit(r[i]) || r[i] == ',' || r[i] == '.'
  {
    Render(Scaled(x, places), places)
  }

  /** `format(x, ",.Nf")` for any `x`: a negative number gets a minus sign
      in front of the rendering of its magnitude. */
  function FormatSigned(x: real, places: nat): (r: string)
    ensures r != []
    ensures x >= 0.0 ==> r == FormatFixed(x, places)
    ensures x < 0.0 ==> r[0] == '-' && r[1..] == FormatFixed(-x, places)
  {
    if x < 0.0 then "-" + FormatFixed(-x, places) else FormatFixed(x, places)
  }

  /** The digits of `q / 10^places` with the point set `places` digits from
      the right, and no thousands separators. */
  function PointDigits(q: nat, places: nat): (r: string)
    ensures r != [] && forall i :: 0 <= i < |r| ==> IsDigitOrDot(r[i])
  {
    var p := Pow10(places);
    DivFacts(q, p);
    if places == 0 then NatToString(q / p) else NatToString(q / p) + "." + PadDigits(q % p, places)
  }

  /** `format(x, ".Nf")`: `x` rounded half to even at N decimals, without
      thousands separators, a negative number with a minus sign in front. */
  function FormatPoint(x: real, places: nat): (r: string)
    ensures r != []
    ensures x >= 0.0 ==> r == PointDigits(Scaled(x, places), places)
    ensures x < 0.0 ==> r[0] == '-' && r[1..] == PointDigits(Scaled(-x, places), places)
  {
    if x < 0.0 then "-" + PointDigits(Scaled(-x, places), places) else PointDigits(Scaled(x, places), places)
  }

  /** An ungrouped rendering reads back, through `float`, as the number over
      `10^places`. */
  lemma PointDigitsReadsBack(q: nat, places: nat)
    ensures ParseDecimal(PointDigits(q, places)) == Some(q as real / Pow10(places) as real)
  {
    var p := Pow10(places);
    var w := q / p;
    DivFacts(q, p);
    NatToStringRoundTrip(w);
    hide ParseDecimal, DigitsToNat, Decimal, NatToString;
    if places == 0 {
      assert p == 1;
      assert PointDigits(q, places) == NatToString(w);
      ParseDecimalOfDigits(NatToString(w));
      assert q as real / p as real == q as real;
    } else {
      var pad := PadDigits(q % p, places);
      assert PointDigits(q, places) == NatToString(w) + ['.'] + pad;
      ParsePoint(NatToString(w), pad);
      RealDivMod(q, p);
    }
  }

  /** What `format(x, ".Nf")` shows of a non-negative number reads back
      within half a unit of the last place. */
  lemma FormatPointReadsBack(x: real, places: nat)
    requires x >= 0.0
    ensures ParseDecimal(FormatPoint(x, places)).Some?
    ensures var v := ParseDecimal(FormatPoint(x, places)).GetOr(0.0);
            x - 0.5 / Pow10(places) as real <= v <= x + 0.5 / Pow10(places) as real
  {
    hide *;
    var q := Scaled(x, places);
    var p := Pow10(places) as real;
    var s := FormatPoint(x, places);
    assert s == PointDigits(q, places);
    PointDigitsReadsBack(q, places);
    assert ParseDecimal(s) == Some(q as real / p);
    ScaledBack(x, q as real, p);
  }

  /** A figure shown with two decimals reads back within 0.005. */
  lemma TwoPlacesReadBack(x: real)
    requires x >= 0.0
    ensures ParseDecimal(FormatPoint(x, 2)).Some?
    ensures x - 0.005 <= ParseDecimal(FormatPoint(x, 2)).GetOr(0.0) <= x + 0.005
  {
    assert Pow10(2) == 100;
    FormatPointReadsBack(x, 2);
  }

  /** Dividing a rounding of `x * p` by `p` lands within `0.5 / p` of `x`. */
  lemma ScaledBack(x: real, q: real, p: real)
    requires p >= 1.0 && x * p - 0.5 <= q <= x * p + 0.5
    ensures x - 0.5 / p <= q / p <= x + 0.5 / p
  {
    assert q / p <= x + 0.5 / p by {
      assert q <= (x + 0.5 / p) * p;
    }
    assert x - 0.5 / p <= q / p by {
      assert (x - 0.5 / p) * p <= q;
    }
  }

  /** One step of `Render`. */
  lemma RenderUnfold(q: nat, places: nat)
    ensures Pow10(places) >= 1 && q / Pow10(places) >= 0 && q % Pow10(places) < Pow10(places)
    ensures places == 0 ==> Pow10(places) == 1 && Render(q, places) == Group(q)
    ensures places > 0 ==>
              Render(q, places) == Group(q / Pow10(places)) + ['.'] + PadDigits(q % Pow10(places), places)
  {
    DivFacts(q, Pow10(places));
  }

  /** A rendering without decimals reads back as the number. */
  lemma RenderWholeReadsBack(q: nat)
    ensures GroupValue(Render(q, 0)) == Some(q as real)
  {
    RenderUnfold(q, 0);
    hide Render, Group, RemoveChar, DigitsToNat, ParseDecimal, Pow10;
    GroupReadsBack(q);
    ParseDecimalOfDigits(RemoveChar(Group(q), ','));
  }

  /** A rendering with decimals reads back as the number over `10^places`. */
  lemma RenderPointReadsBack(q: nat, places: nat)
    requires places > 0
    ensures GroupValue(Render(q, places)) == Some(q as real / Pow10(places) as real)
  {
    RenderUnfold(q, places);
    var p := Pow10(places);
    var w := q / p;
    hide Render, Group, RemoveChar, DigitsToNat, ParseDecimal, Pow10, PadDigits, Decimal;
    var a := RemoveChar(Group(w), ',');
    var pad := PadDigits(q % p, places);
    assert RemoveChar(Render(q, places), ',') == a + ['.'] + pad by {
      DropCommas(Group(w), '.', pad);
    }
    assert ParseDecimal(a + ['.'] + pad) == Some(Decimal(w, q % p, p)) by {
      GroupReadsBack(w);
      ParsePoint(a, pad);
    }
    RealDivMod(q, p);
  }

  /** A rendering reads back as the number it renders. */
  lemma RenderReadsBack(q: nat, places: nat)
    ensures GroupValue(Render(q, places)) == Some(q as real / Pow10(places) as real)
  {
    if places == 0 {
      assert Pow10(0) == 1;
      RenderWholeReadsBack(q);
    } else {
      RenderPointReadsBack(q, places);
    }
  }

  /** What the rendering shows, read back by the amount patterns' own group
      parser, is the value rounded to the chosen number of places. */
  lemma FormatFixedReadsBack(x: real, places: nat)
    requires x >= 0.0
    ensures GroupValue(FormatFixed(x, places)) == Some(Scaled(x, places) as real / Pow10(places) as real)
  {
    RenderReadsBack(Scaled(x, places), places);
  }

  /** A whole number is shown without decimals so that it reads back
      unchanged. */
  lemma WholeReadsBack(n: nat)
    ensures GroupValue(FormatFixed(n as real, 0)) == Some(n as real)
  {
    hide FormatFixed, GroupValue, Render, RoundHalfEven;
    FormatFixedReadsBack(n as real, 0);
    assert Pow10(0) == 1;
    assert Scaled(n as real, 0) == n by {
      assert n as real * Pow10(0) as real == n as real;
      WholeRounds(n as real);
    }
  }
}
