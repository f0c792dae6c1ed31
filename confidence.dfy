/** `compute_confidence`: the share of an extraction's fields that were
    filled, rounded to two decimals. */
module Confidence {
  import opened Outcomes
  import opened Text
  import opened Json
  import opened Sets

  /** `round(x, 2)`. */
  function Round2(x: real): (r: real)
    ensures (x * 100.0) == (x * 100.0).Floor as real ==> r == x
  {
    (RoundHalfEven(x * 100.0) as real) / 100.0
  }

  /** Rounding keeps a share between 0 and 1. */
  lemma Round2Bounds(x: real)
    requires 0.0 <= x <= 1.0
    ensures 0.0 <= Round2(x) <= 1.0
  {
    var y := x * 100.0;
    var f := y.Floor;
    assert 0 <= f <= 100;
    if f == 100 {
      assert y == 100.0;
    }
  }

  /** The keys whose value is truthy. */
  function Filled(data: map<string, Json>): (r: set<string>)
    ensures r <= data.Keys
    ensures forall k :: k in r <==> k in data && Truthy(data[k])
  {
    set k | k in data && Truthy(data[k])
  }

  /** The one exception `compute_confidence` raises. */
  datatype ConfidenceError = ZeroDivision

  /** `compute_confidence`: filled over total, rounded to two decimals; an
      empty dictionary divides by zero. */
  function ComputeConfidence(data: map<string, Json>): (r: Result<real, ConfidenceError>)
    ensures r.Raised? <==> data == map[]
    ensures r.Ok? ==> 0.0 <= r.value <= 1.0
  {
    if |data| == 0 then Raised(ZeroDivision)
    else
      var x := (|Filled(data)| as real) / (|data| as real);
      SubsetCard(Filled(data), data.Keys);
      Round2Bounds(x);
      Ok(Round2(x))
  }

  /** Every field filled gives exactly 1.0. */
  lemma AllFilledIsOne(data: map<string, Json>)
    requires data != map[]
    requires forall k :: k in data ==> Truthy(data[k])
    ensures ComputeConfidence(data) == Ok(1.0)
  {
    assert Filled(data) == data.Keys;
    var x := (|Filled(data)| as real) / (|data| as real);
    assert x == 1.0;
    assert x * 100.0 == 100.0;
  }

  /** No field filled gives exactly 0.0. */
  lemma NoneFilledIsZero(data: map<string, Json>)
    requires data != map[]
    requires forall k :: k in data ==> !Truthy(data[k])
    ensures ComputeConfidence(data) == Ok(0.0)
  {
    assert Filled(data) == {};
    var x := (|Filled(data)| as real) / (|data| as real);
    assert x == 0.0;
    assert x * 100.0 == 0.0;
  }

  /** A share in quarters is already a two-decimal number: rounding it
      changes nothing. */
  lemma QuartersAreExact(k: nat)
    ensures Round2((k as real) / 4.0) == (k as real) / 4.0
  {
    hide Round2, RoundHalfEven;
    var x := (k as real) / 4.0;
    assert x * 100.0 == (25 * k) as real;
  }
}
