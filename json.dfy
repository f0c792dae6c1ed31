/** JSON-shaped Python values: what `json.loads` returns and what the session
    dictionaries hold. */
module Json {
  import opened Outcomes
  import opened Text

  datatype Json =
    | JNull
    | JBool(b: bool)
    | JInt(i: int)
    | JReal(r: real)
    | JString(s: string)
    | JArray(items: seq<Json>)
    | JObject(fields: map<string, Json>)

  /** Python truthiness. */
  predicate Truthy(j: Json)
  {
    match j
    case JNull => false
    case JBool(b) => b
    case JInt(i) => i != 0
    case JReal(r) => r != 0.0
    case JString(s) => |s| > 0
    case JArray(items) => |items| > 0
    case JObject(fields) => |fields| > 0
  }

  /** `isinstance(j, (int, float))`; `bool` is a subclass of `int`. */
  predicate IsNumber(j: Json)
  {
    j.JBool? || j.JInt? || j.JReal?
  }

  /** `float(j)` for a number. */
  function AsReal(j: Json): real
    requires IsNumber(j)
  {
    match j
    case JBool(b) => if b then 1.0 else 0.0
    case JInt(i) => i as real
    case JReal(r) => r
  }

  /** `d.get(key)`. */
  function Get(d: map<string, Json>, key: string): (r: Option<Json>)
    ensures r.Some? <==> key in d
    ensures r.Some? ==> r.value == d[key]
  {
    if key in d then Some(d[key]) else None
  }

  /** `x` has no fractional part. */
  predicate IsWhole(x: real) { x.Floor as real == x }

  function Abs(x: real): (r: real)
    ensures r >= 0.0 && (r == x || r == -x)
  {
    if x < 0.0 then -x else x
  }

  /** `x` scaled by `10^k`. */
  function Shift(x: real, k: nat): (r: real)
    ensures x >= 0.0 ==> r >= 0.0
  {
    x * Pow10(k) as real
  }

  /** `x` written with `k` decimal places loses nothing. */
  predicate WholeAt(x: real, k: nat) { IsWhole(Shift(x, k)) }

  /** The fewest decimal places from `k` to fifteen after which `x` is
      whole, if there are any. */
  function Places(x: real, k: nat): (p: Option<nat>)
    requires k <= 16
    ensures p.Some? ==> k <= p.value <= 15 && WholeAt(x, p.value)
    ensures p.Some? ==> forall j :: k <= j < p.value ==> !WholeAt(x, j)
    ensures p.None? ==> forall j :: k <= j <= 15 ==> !WholeAt(x, j)
    decreases 16 - k
  {
    hide WholeAt;
    if k > 15 then None
    else if WholeAt(x, k) then Some(k)
    else Places(x, k + 1)
  }

  /** The decimal places `repr` shows for a float it writes out positionally:
      0 for a whole number below 10^16 (shown with ".0"), and otherwise the
      exact decimal expansion when it has at most fifteen significant digits
      and the number is at least 0.0001 in size. Any fifteen-digit decimal
      is the shortest text that reads back as its float, so `repr` prints
      exactly those digits. None for the floats `repr` writes in exponent
      notation or with more digits. */
  function ReprPlaces(x: real): (p: Option<nat>)
    ensures p.Some? ==> p.value <= 15 && WholeAt(Abs(x), p.value)
    ensures p.Some? && p.value > 0 ==> !WholeAt(Abs(x), p.value - 1)
  {
    var a := Abs(x);
    if IsWhole(a) then
      assert Shift(a, 0) == a;
      if a < 10000000000000000.0 then Some(0) else None
    else
      assert !WholeAt(a, 0) by { assert Shift(a, 0) == a; }
      match Places(a, 1)
      case Some(k) => if Shift(a, k) < 1000000000000000.0 && a >= 0.0001 then Some(k) else None
      case None => None
  }

  /** The digits of `m / 10^k` with the point set `k` places from the
      right, or the digits of `m` and ".0" when `k` is 0. */
  function Positional(m: nat, k: nat): (s: string)
    ensures s != [] && IsDigit(s[0])
    ensures forall i :: 0 <= i < |s| ==> IsDigitOrDot(s[i])
  {
    var p := Pow10(k);
    DivFacts(m, p);
    hide NatToString, PadDigits, Pow10;
    var whole := NatToString(if k == 0 then m else m / p);
    var places := if k == 0 then "0" else PadDigits(m % p, k);
    DigitsPointDigits(whole, places);
    whole + "." + places
  }

  /** `repr(x)` for a float: digits, a point and the decimal places, with a
      minus sign in front of a negative number; a float `repr` would write
      otherwise gets the stand-in "<float>". */
  function FloatRepr(x: real): (r: string)
    ensures r != []
    ensures ReprPlaces(x).None? <==> r == "<float>"
    ensures ReprPlaces(x).Some? ==> (x < 0.0 <==> r[0] == '-')
  {
    match ReprPlaces(x)
    case None => "<float>"
    case Some(k) =>
      var shown := Positional(Shift(Abs(x), k).Floor, k);
      assert "<float>"[0] == '<';
      if x < 0.0 then "-" + shown else shown
  }

  /** The positional digits read back as `m / 10^k`. */
  lemma PositionalReadsBack(m: nat, k: nat)
    ensures ParseDecimal(Positional(m, k)) == Some(m as real / Pow10(k) as real)
  {
    var p := Pow10(k);
    DivFacts(m, p);
    var whole := NatToString(if k == 0 then m else m / p);
    var places := if k == 0 then "0" else PadDigits(m % p, k);
    hide Pow10, NatToString, PadDigits, DigitsToNat, ParseDecimal, Decimal;
    assert Positional(m, k) == whole + ['.'] + places;
    ParsePoint(whole, places);
    if k == 0 {
      NatToStringRoundTrip(m);
      ZeroDigit();
      DecimalOfZero(m, Pow10(|places|));
      assert p == 1;
    } else {
      NatToStringRoundTrip(m / p);
      RealDivMod(m, p);
    }
  }

  /** What `repr` shows of a non-negative float, read back by `float()`, is
      the float itself. */
  lemma FloatReprReadsBack(x: real)
    requires x >= 0.0 && ReprPlaces(x).Some?
    ensures forall i :: 0 <= i < |FloatRepr(x)| ==> IsDigitOrDot(FloatRepr(x)[i])
    ensures ParseDecimal(FloatRepr(x)) == Some(x)
  {
    var k := ReprPlaces(x).value;
    var m := Shift(x, k).Floor;
    assert Abs(x) == x;
    hide Positional, ParseDecimal, Pow10, ReprPlaces, Shift;
    assert FloatRepr(x) == Positional(m, k);
    assert m as real == Shift(x, k);
    PositionalReadsBack(m, k);
    UnShift(x, k);
  }

  /** Scaling by `10^k` and dividing again gives the number back. */
  lemma UnShift(x: real, k: nat)
    ensures Shift(x, k) / Pow10(k) as real == x
  {
  }


  /** `repr` once its places and the scaled digits are known. */
  lemma ReprFrom(x: real, k: nat, m: nat)
    requires ReprPlaces(x) == Some(k) && Shift(Abs(x), k).Floor == m
    ensures FloatRepr(x) == if x < 0.0 then "-" + Positional(m, k) else Positional(m, k)
  {
    hide ReprPlaces, Shift, Abs, Positional;
  }

  /** The positional text, once the power of ten, the whole part and the
      padded places are known. */
  lemma PositionalParts(m: nat, k: nat, p: nat, w: nat, f: nat)
    requires k > 0 && Pow10(k) == p && m / p == w && m % p == f
    ensures f < Pow10(k)
    ensures Positional(m, k) == NatToString(w) + "." + PadDigits(f, k)
  {
  }

  lemma RatePlaces()
    ensures ReprPlaces(10.5) == Some(1) && Shift(Abs(10.5), 1).Floor == 105
  {
    assert Pow10(1) == 10;
    assert Shift(10.5, 1) == 105.0;
    assert (10.5).Floor == 10;
    hide Shift, Pow10;
    assert Places(10.5, 1) == Some(1);
  }

  lemma RateDigits()
    ensures Positional(105, 1) == "10.5"
  {
    assert Pow10(1) == 10;
    PositionalParts(105, 1, 10, 10, 5);
    assert NatToString(10) == "10";
    assert PadDigits(5, 1) == "5";
  }

  /** A rate such as 10.5 is shown as Python shows it. */
  lemma FractionalRateShown()
    ensures FloatRepr(10.5) == "10.5"
  {
    hide Positional, ReprPlaces, Shift, Abs, FloatRepr, Places, Pow10, NatToString, PadDigits;
    RatePlaces();
    RateDigits();
    ReprFrom(10.5, 1, 105);
  }

  /** A whole rate keeps Python's trailing ".0". */
  lemma WholeRateShown()
    ensures FloatRepr(18.0) == "18.0"
  {
    assert Shift(18.0, 0) == 18.0;
    assert NatToString(18) == "18";
  }

  lemma QuarterPlaces()
    ensures ReprPlaces(-0.25) == Some(2) && Shift(Abs(-0.25), 2).Floor == 25
  {
    assert Abs(-0.25) == 0.25;
    assert Pow10(1) == 10 && Pow10(2) == 100;
    assert Shift(0.25, 1) == 2.5 && Shift(0.25, 2) == 25.0;
    assert (0.25).Floor == 0 && (2.5).Floor == 2;
    hide Shift, Pow10, Abs;
    assert !WholeAt(0.25, 1);
    assert Places(0.25, 1) == Some(2);
  }

  lemma QuarterDigits()
    ensures Positional(25, 2) == "0.25"
  {
    assert Pow10(2) == 100;
    PositionalParts(25, 2, 100, 0, 25);
    assert NatToString(0) == "0";
    assert PadDigits(25, 2) == "25" by {
      assert Pow10(1) == 10;
      assert PadDigits(2, 1) == "2";
    }
    hide Positional, NatToString, PadDigits, Pow10;
  }

  /** A negative fraction keeps its sign and its leading zero. */
  lemma NegativeFractionShown()
    ensures FloatRepr(-0.25) == "-0.25"
  {
    hide Positional, ReprPlaces, Shift, Abs, FloatRepr, Places, Pow10, NatToString, PadDigits;
    QuarterPlaces();
    QuarterDigits();
    ReprFrom(-0.25, 2, 25);
  }


  /** `str(j)` for the values whose rendering the chatbot shows; lists and
      dictionaries, and floats outside `FloatRepr`'s range, get a fixed
      stand-in text. */
  function PyStr(j: Json): string
  {
    match j
    case JNull => "None"
    case JBool(b) => if b then "True" else "False"
    case JInt(i) => IntToString(i)
    case JReal(r) => FloatRepr(r)
    case JString(s) => s
    case JArray(_) => "<list>"
    case JObject(_) => "<dict>"
  }
}
