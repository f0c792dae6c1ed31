/** Character classes and string operations of Python's `str` and `re` as the
    chatbot uses them. Case mapping, whitespace, `\w` and `\d` are the ASCII
    ones. */
module Text {
  import opened Outcomes

  predicate IsDigit(c: char) { '0' <= c <= '9' }
  predicate IsUpper(c: char) { 'A' <= c <= 'Z' }
  predicate IsLower(c: char) { 'a' <= c <= 'z' }
  predicate IsLetter(c: char) { IsUpper(c) || IsLower(c) }
  /** The `\w` class. */
  predicate IsWordChar(c: char) { IsLetter(c) || IsDigit(c) || c == '_' }
  /** `str.isspace()` and the `\s` class: space, tab through carriage return,
      and the four separator controls. */
  predicate IsSpace(c: char) { c == ' ' || '\t' <= c <= '\r' || '\U{1C}' <= c <= '\U{1F}' }
  predicate IsDigitOrDot(c: char) { IsDigit(c) || c == '.' }
  predicate IsSpaceOrDash(c: char) { IsSpace(c) || c == '-' }
  /** The line boundaries `str.splitlines()` recognises among ASCII characters. */
  predicate IsLineBreak(c: char) { '\n' <= c <= '\r' || '\U{1C}' <= c <= '\U{1E}' }

  /** The character sets the scanners below run over. */
  datatype CharClass =
    | Digits | Spaces | NonSpaces | WordChars | NonWordChars | Letters | DigitsOrDots
    | SpacesOrDashes | NonSpacesOrDashes | NonLineBreaks | AllBut(c: char)

  predicate InClass(c: char, cls: CharClass)
  {
    match cls
    case Digits => IsDigit(c)
    case Spaces => IsSpace(c)
    case NonSpaces => !IsSpace(c)
    case WordChars => IsWordChar(c)
    case NonWordChars => !IsWordChar(c)
    case Letters => IsLetter(c)
    case DigitsOrDots => IsDigitOrDot(c)
    case SpacesOrDashes => IsSpaceOrDash(c)
    case NonSpacesOrDashes => !IsSpaceOrDash(c)
    case NonLineBreaks => !IsLineBreak(c)
    case AllBut(x) => c != x
  }

  function LowerChar(c: char): char
  {
    if IsUpper(c) then (c as int - 'A' as int + 'a' as int) as char else c
  }

  function UpperChar(c: char): char
  {
    if IsLower(c) then (c as int - 'a' as int + 'A' as int) as char else c
  }

  /** `str.lower()`. */
  function Lower(s: string): (r: string)
    ensures |r| == |s|
    ensures forall i :: 0 <= i < |s| ==> r[i] == LowerChar(s[i]) && !IsUpper(r[i])
  {
    if s == [] then [] else [LowerChar(s[0])] + Lower(s[1..])
  }

  /** Lowering text without upper-case letters changes nothing. */
  lemma LowerOfLower(s: string)
    requires forall i :: 0 <= i < |s| ==> !IsUpper(s[i])
    ensures Lower(s) == s
  {
  }

  /** A letter that lowers to `l` upper-cases to `u`, the capital of `l`. */
  lemma CaseFold(c: char, l: char, u: char)
    requires LowerChar(c) == l && IsLower(l) && u as int == l as int - 32
    ensures UpperChar(c) == u
  {
  }

  /** `str.upper()`. */
  function Upper(s: string): (r: string)
    ensures |r| == |s|
    ensures forall i :: 0 <= i < |s| ==> r[i] == UpperChar(s[i]) && !IsLower(r[i])
  {
    if s == [] then [] else [UpperChar(s[0])] + Upper(s[1..])
  }

  /** Whatever its case, `cust` followed by digits upper-cases to `CUST`
      and the same digits. */
  lemma UpperCustDigits(p: string, d: string)
    requires |p| == 4 && Lower(p) == "cust" && AllDigits(d)
    ensures Upper(p + d) == "CUST" + d
  {
    hide Lower, Upper;
    var g := Upper(p + d);
    assert LowerChar(p[0]) == 'c' && LowerChar(p[1]) == 'u' && LowerChar(p[2]) == 's' && LowerChar(p[3]) == 't';
    CaseFold(p[0], 'c', 'C');
    CaseFold(p[1], 'u', 'U');
    CaseFold(p[2], 's', 'S');
    CaseFold(p[3], 't', 'T');
    forall k | 0 <= k < |g| ensures g[k] == ("CUST" + d)[k] {
      assert (p + d)[k] == if k < 4 then p[k] else d[k - 4];
    }
  }

  predicate StartsWith(s: string, p: string) { |p| <= |s| && s[..|p|] == p }
  predicate EndsWith(s: string, p: string) { |p| <= |s| && s[|s| - |p|..] == p }

  /** `sub` occurs in `s` at position `i`. */
  predicate OccursAt(s: string, sub: string, i: nat)
  {
    i + |sub| <= |s| && s[i..i + |sub|] == sub
  }

  /** `sub in s`. */
  predicate Contains(s: string, sub: string)
  {
    exists i: nat :: i <= |s| && OccursAt(s, sub, i)
  }

  /** `any(k in s for k in keys)`. */
  predicate ContainsAny(s: string, keys: seq<string>)
  {
    exists k :: k in keys && Contains(s, k)
  }

  /** The end of the longest run of characters of class `cls` that starts at `i`. */
  function RunEnd(s: string, i: nat, cls: CharClass): (j: nat)
    requires i <= |s|
    ensures i <= j <= |s|
    ensures forall k :: i <= k < j ==> InClass(s[k], cls)
    ensures j == |s| || !InClass(s[j], cls)
    decreases |s| - i
  {
    if i < |s| && InClass(s[i], cls) then RunEnd(s, i + 1, cls) else i
  }

  /** A run that stops where its class stops ends there. */
  lemma RunEndAt(s: string, i: nat, j: nat, cls: CharClass)
    requires i <= j <= |s|
    requires forall k :: i <= k < j ==> InClass(s[k], cls)
    requires j == |s| || !InClass(s[j], cls)
    ensures RunEnd(s, i, cls) == j
  {
  }

  /** `\b` just before position `i` when `s[i]` is a word character. */
  predicate BoundaryBefore(s: string, i: nat)
    requires i <= |s|
  {
    i == 0 || !IsWordChar(s[i - 1])
  }

  /** `\b` at position `j` when `s[j - 1]` is a word character. */
  predicate BoundaryAfter(s: string, j: nat)
    requires j <= |s|
  {
    j == |s| || !IsWordChar(s[j])
  }

  /** `\bw\b` matches at `i`. */
  predicate WordAt(s: string, w: string, i: nat)
  {
    i + |w| <= |s| && s[i..i + |w|] == w && BoundaryBefore(s, i) && BoundaryAfter(s, i + |w|)
  }

  /** `re.search(r"\bw\b", s)` succeeds, for a word `w` that begins and ends
      with word characters. */
  predicate ContainsWord(s: string, w: string)
  {
    exists i: nat :: i <= |s| && WordAt(s, w, i)
  }

  function LStrip(s: string): (r: string)
    ensures |r| <= |s| && r == s[|s| - |r|..]
    ensures r == [] || !IsSpace(r[0])
    ensures forall i :: 0 <= i < |s| - |r| ==> IsSpace(s[i])
  {
    if |s| > 0 && IsSpace(s[0]) then LStrip(s[1..]) else s
  }

  function RStrip(s: string): (r: string)
    ensures |r| <= |s| && r == s[..|r|]
    ensures r == [] || !IsSpace(r[|r| - 1])
    ensures forall i :: |r| <= i < |s| ==> IsSpace(s[i])
  {
    if |s| > 0 && IsSpace(s[|s| - 1]) then RStrip(s[..|s| - 1]) else s
  }

  /** `str.strip()`: a substring of `s` with no white space at either end,
      obtained by dropping only white space. */
  function Strip(s: string): (r: string)
    ensures r == [] || (!IsSpace(r[0]) && !IsSpace(r[|r| - 1]))
    ensures exists a: nat :: OccursAt(s, r, a)
  {
    var l := LStrip(s);
    var r := RStrip(l);
    assert OccursAt(s, r, |s| - |l|);
    r
  }

  /** Stripping leaves nothing exactly when the string is all white space. */
  lemma StripEmpty(s: string)
    ensures Strip(s) == [] <==> forall i :: 0 <= i < |s| ==> IsSpace(s[i])
  {
    var l := LStrip(s);
    if RStrip(l) == [] {
      assert l == [] by {
        if l != [] { assert false; }
      }
    }
  }

  /** Text with no white space at either end strips to itself. */
  lemma StripOfTrimmed(s: string)
    requires s != [] && !IsSpace(s[0]) && !IsSpace(s[|s| - 1])
    ensures Strip(s) == s
  {
    assert LStrip(s) == s;
    assert RStrip(s) == s;
  }

  /** `s.replace(c, "")`. */
  function RemoveChar(s: string, c: char): (r: string)
    ensures c !in r
    ensures forall x :: x in r <==> x in s && x != c
    ensures |r| <= |s|
  {
    if s == [] then []
    else (if s[0] == c then [] else [s[0]]) + RemoveChar(s[1..], c)
  }

  /** Removing a character distributes over concatenation. */
  lemma {:induction false} RemoveCharAppend(a: string, b: string, c: char)
    ensures RemoveChar(a + b, c) == RemoveChar(a, c) + RemoveChar(b, c)
    decreases |a|
  {
    if a != [] {
      assert (a + b)[0] == a[0];
      assert (a + b)[1..] == a[1..] + b;
      RemoveCharAppend(a[1..], b, c);
    } else {
      assert a + b == b;
    }
  }

  /** One step of `RemoveChar`. */
  lemma RemoveCharCons(x: char, y: string, c: char)
    ensures RemoveChar([x] + y, c) == (if x == c then [] else [x]) + RemoveChar(y, c)
  {
    assert ([x] + y)[1..] == y;
  }

  /** Removing a character that does not occur changes nothing. */
  lemma {:induction false} RemoveCharAbsent(s: string, c: char)
    requires c !in s
    ensures RemoveChar(s, c) == s
    decreases |s|
  {
    if s != [] {
      assert c !in s[1..];
      RemoveCharAbsent(s[1..], c);
      assert s == [s[0]] + s[1..];
    }
  }

  /** A digit string has nothing to remove but digits. */
  lemma {:induction false} RemoveCharDigits(a: string, c: char)
    requires AllDigits(a) && !IsDigit(c)
    ensures RemoveChar(a, c) == a
    decreases |a|
  {
    if a != [] {
      RemoveCharDigits(a[1..], c);
      assert a == [a[0]] + a[1..];
    }
  }

  /** `s.split()` with no argument: the maximal runs of non-space characters. */
  function Words(s: string): (r: seq<string>)
    ensures forall k :: 0 <= k < |r| ==> |r[k]| > 0 && forall j :: 0 <= j < |r[k]| ==> !IsSpace(r[k][j])
    decreases |s|
  {
    var start := RunEnd(s, 0, Spaces);
    if start == |s| then []
    else
      var end := RunEnd(s, start, NonSpaces);
      [s[start..end]] + Words(s[end..])
  }

  /** `re.findall(r"\w+", s)`: the maximal runs of word characters, in order. */
  function WordTokens(s: string): (r: seq<string>)
    ensures forall k :: 0 <= k < |r| ==> |r[k]| > 0 && forall j :: 0 <= j < |r[k]| ==> IsWordChar(r[k][j])
    decreases |s|
  {
    var start := RunEnd(s, 0, NonWordChars);
    if start == |s| then []
    else
      var end := RunEnd(s, start, WordChars);
      [s[start..end]] + WordTokens(s[end..])
  }

  /** An occurrence survives appending text. */
  lemma ContainsAppend(s: string, t: string, sub: string)
    requires Contains(s, sub)
    ensures Contains(s + t, sub)
  {
    var i: nat :| i <= |s| && OccursAt(s, sub, i);
    assert (s + t)[i..i + |sub|] == s[i..i + |sub|];
    assert OccursAt(s + t, sub, i);
  }

  /** An occurrence survives prepending text. */
  lemma ContainsPrepend(t: string, s: string, sub: string)
    requires Contains(s, sub)
    ensures Contains(t + s, sub)
  {
    var i: nat :| i <= |s| && OccursAt(s, sub, i);
    assert (t + s)[|t| + i..|t| + i + |sub|] == s[i..i + |sub|];
    assert OccursAt(t + s, sub, |t| + i);
  }

  /** A text contains whatever is written in its middle. */
  lemma ContainsMiddle(a: string, m: string, b: string)
    ensures Contains(a + m + b, m)
  {
    assert (a + m + b)[|a|..|a| + |m|] == m;
    assert OccursAt(a + m + b, m, |a|);
  }

  /** Lowering distributes over concatenation. */
  lemma LowerAppend(s: string, t: string)
    ensures Lower(s + t) == Lower(s) + Lower(t)
  {
  }

  /** Upper-casing first changes nothing once the text is lowered. */
  lemma LowerOfUpper(s: string)
    ensures Lower(Upper(s)) == Lower(s)
  {
  }

  /** The middle part of a three-way concatenation, sliced back out. */
  lemma SliceOfConcat(a: string, b: string, c: string)
    ensures (a + b + c)[|a|..|a| + |b|] == b
  {
  }

  /** `sep.join(parts)`. */
  function Join(parts: seq<string>, sep: string): string
  {
    if |parts| == 0 then ""
    else if |parts| == 1 then parts[0]
    else parts[0] + sep + Join(parts[1..], sep)
  }

  /** `s.split(c)` for a one-character separator: never empty, and the pieces
      never contain the separator. */
  function SplitOn(s: string, c: char): (r: seq<string>)
    ensures |r| >= 1
    ensures forall k :: 0 <= k < |r| ==> c !in r[k]
    decreases |s|
  {
    var j := RunEnd(s, 0, AllBut(c));
    if j == |s| then [s] else [s[..j]] + SplitOn(s[j + 1..], c)
  }

  /** `re.split(r"[\s-]+", s)`: the pieces between maximal separator runs;
      only the first and the last piece can be empty. */
  function SplitRuns(s: string): (r: seq<string>)
    ensures |r| >= 1
    ensures forall k :: 0 <= k < |r| ==> forall j :: 0 <= j < |r[k]| ==> !IsSpaceOrDash(r[k][j])
    decreases |s|
  {
    var j := RunEnd(s, 0, NonSpacesOrDashes);
    if j == |s| then [s]
    else
      var k := RunEnd(s, j, SpacesOrDashes);
      [s[..j]] + SplitRuns(s[k..])
  }

  predicate AllDigits(s: string) { forall i :: 0 <= i < |s| ==> IsDigit(s[i]) }

  /** `re.fullmatch(r"\d+", s)`. */
  predicate IsDigits(s: string) { |s| > 0 && AllDigits(s) }

  function DigitValue(c: char): nat
    requires IsDigit(c)
  {
    c as int - '0' as int
  }

  function DigitChar(d: nat): (c: char)
    requires d < 10
    ensures IsDigit(c) && DigitValue(c) == d
  {
    ('0' as int + d) as char
  }

  /** The value of a decimal digit string, as `int()` reads it. */
  function DigitsToNat(s: string): nat
    requires AllDigits(s)
    decreases |s|
  {
    if |s| == 0 then 0 else DigitsToNat(s[..|s| - 1]) * 10 + DigitValue(s[|s| - 1])
  }

  function Pow10(k: nat): (r: nat)
    ensures r >= 1
  {
    if k == 0 then 1 else 10 * Pow10(k - 1)
  }

  lemma {:induction false} DigitsToNatBound(s: string)
    requires AllDigits(s)
    ensures DigitsToNat(s) < Pow10(|s|)
    decreases |s|
  {
    if |s| > 0 { DigitsToNatBound(s[..|s| - 1]); }
  }

  /** `str(n)` for a natural number. */
  function NatToString(n: nat): (r: string)
    ensures IsDigits(r)
  {
    if n < 10 then [DigitChar(n)] else NatToString(n / 10) + [DigitChar(n % 10)]
  }

  /** `str(i)` for an integer. */
  function IntToString(i: int): string
  {
    if i < 0 then "-" + NatToString(-i) else NatToString(i)
  }

  /** Reading back the decimal rendering of a number gives the number. */
  lemma {:induction false} NatToStringRoundTrip(n: nat)
    ensures DigitsToNat(NatToString(n)) == n
  {
    if n >= 10 {
      var s := NatToString(n);
      NatToStringRoundTrip(n / 10);
      assert s[..|s| - 1] == NatToString(n / 10);
    }
  }

  /** `float(s)` for a string made only of digits and dots: it parses when it
      holds at least one digit and at most one dot, and raises otherwise. */
  function ParseDecimal(s: string): (r: Option<real>)
    requires forall i :: 0 <= i < |s| ==> IsDigitOrDot(s[i])
    ensures r.Some? ==> r.value >= 0.0
  {
    var d := RunEnd(s, 0, Digits);
    if d == |s| then
      if d == 0 then None else Some(DigitsToNat(s) as real)
    else
      var frac := s[d + 1..];
      if !AllDigits(frac) || (d == 0 && |frac| == 0) then None
      else Some(Decimal(DigitsToNat(s[..d]), DigitsToNat(frac), Pow10(|frac|)))
  }

  /** The number written `whole.frac`, where the fraction's digits stand for
      `frac / scale`. */
  function Decimal(whole: nat, frac: nat, scale: nat): (r: real)
    requires scale >= 1
    ensures r >= whole as real
  {
    whole as real + frac as real / scale as real
  }

  /** A digit string parses as the number it spells. */
  lemma ParseDecimalOfDigits(s: string)
    requires IsDigits(s)
    ensures ParseDecimal(s) == Some(DigitsToNat(s) as real)
  {
    assert RunEnd(s, 0, Digits) == |s|;
  }

  /** The value of two digit strings written one after the other. */
  lemma {:induction false} DigitsToNatAppend(a: string, b: string)
    requires AllDigits(a) && AllDigits(b)
    ensures DigitsToNat(a + b) == DigitsToNat(a) * Pow10(|b|) + DigitsToNat(b)
    decreases |b|
  {
    if |b| == 0 {
      assert a + b == a;
    } else {
      var b' := b[..|b| - 1];
      var x := a + b;
      assert x[..|x| - 1] == a + b' && x[|x| - 1] == b[|b| - 1];
      DigitsToNatAppend(a, b');
      var d := DigitValue(b[|b| - 1]);
      assert DigitsToNat(x) == DigitsToNat(a + b') * 10 + d;
      assert DigitsToNat(b) == DigitsToNat(b') * 10 + d;
      hide DigitsToNat, Pow10;
      ShiftDigit(DigitsToNat(a), Pow10(|b'|), DigitsToNat(b'), d);
    }
  }

  lemma ShiftDigit(h: nat, p: nat, t: nat, d: nat)
    ensures (h * p + t) * 10 + d == h * (10 * p) + (t * 10 + d)
  {
  }

  /** `float()` of digits around one dot: the whole part plus the fraction. */
  lemma ParseDecimalSplit(s: string, i: nat)
    requires forall k :: 0 <= k < |s| ==> IsDigitOrDot(s[k])
    requires i < |s| && s[i] == '.'
    requires IsDigits(s[..i]) && IsDigits(s[i + 1..])
    ensures ParseDecimal(s) == Some(Decimal(DigitsToNat(s[..i]), DigitsToNat(s[i + 1..]), Pow10(|s| - i - 1)))
  {
    hide DigitsToNat, Pow10;
    var d := RunEnd(s, 0, Digits);
    forall k | 0 <= k < i ensures InClass(s[k], Digits) {
      assert s[..i][k] == s[k];
    }
    assert d == i;
  }

  /** Digits, a point and digits are all digits or dots. */
  lemma DigitsPointDigits(a: string, b: string)
    requires IsDigits(a) && AllDigits(b)
    ensures IsDigit((a + "." + b)[0])
    ensures forall i :: 0 <= i < |a + "." + b| ==> IsDigitOrDot((a + "." + b)[i])
  {
    var s := a + "." + b;
    forall i | 0 <= i < |s| ensures IsDigitOrDot(s[i]) {
      if i < |a| { assert s[i] == a[i]; } else if i > |a| { assert s[i] == b[i - |a| - 1]; }
    }
  }

  /** `float()` refuses a string with two dots, such as "1.2.3". */
  lemma {:induction false} ParseDecimalTwoDots(s: string, i: nat, j: nat)
    requires forall k :: 0 <= k < |s| ==> IsDigitOrDot(s[k])
    requires i < j < |s| && s[i] == '.' && s[j] == '.'
    ensures ParseDecimal(s) == None
  {
    var d := RunEnd(s, 0, Digits);
    assert s[d + 1..][j - d - 1] == '.';
  }

  /** `float()` accepts digits with one dot in them, as long as a digit is
      present somewhere. */
  lemma ParseDecimalOneDot(s: string, i: nat)
    requires i < |s| && s[i] == '.'
    requires AllDigits(s[..i]) && AllDigits(s[i + 1..]) && |s| > 1
    ensures ParseDecimal(s).Some?
  {
    assert RunEnd(s, 0, Digits) == i;
  }

  /** `int(x)` for a float: truncation toward zero. */
  function Trunc(x: real): (r: int)
    ensures x >= 0.0 ==> r == x.Floor
    ensures -1.0 < x - r as real < 1.0
    ensures r as real == x || (x >= 0.0 && r as real < x) || (x < 0.0 && r as real > x)
  {
    if x >= 0.0 then x.Floor else -((-x).Floor)
  }

  /** Python's `round(x)` on an exact value: to the nearest integer, a tie
      going to the even neighbour. */
  function RoundHalfEven(x: real): (r: int)
    ensures x - 0.5 <= r as real <= x + 0.5
    ensures (r as real - x == 0.5 || x - r as real == 0.5) ==> r % 2 == 0
    ensures x == x.Floor as real ==> r == x.Floor
  {
    var f := x.Floor;
    var d := x - f as real;
    if d < 0.5 then f
    else if d > 0.5 then f + 1
    else if f % 2 == 0 then f else f + 1
  }

  /** Division by a positive place value. */
  lemma DivFacts(q: nat, p: nat)
    requires p >= 1
    ensures 0 <= q / p && q % p < p && q / p * p + q % p == q
  {
  }

  /** Splitting an integer at a place value, seen on exact reals. */
  lemma RealDivMod(q: nat, p: nat)
    requires p >= 1
    ensures q / p >= 0 && Decimal(q / p, q % p, p) == q as real / p as real
  {
    var w, r := q / p, q % p;
    DivFacts(q, p);
    assert q as real == (w as real) * (p as real) + r as real;
  }

  lemma ZeroDigit()
    ensures AllDigits("0") && DigitsToNat("0") == 0
  {
  }

  lemma DecimalOfZero(w: nat, scale: nat)
    requires scale >= 1
    ensures Decimal(w, 0, scale) == w as real
  {
  }

  /** Digits, a point and more digits parse as the decimal they spell. */
  lemma ParsePoint(a: string, pad: string)
    requires IsDigits(a) && IsDigits(pad)
    ensures ParseDecimal(a + ['.'] + pad) == Some(Decimal(DigitsToNat(a), DigitsToNat(pad), Pow10(|pad|)))
  {
    var t := a + ['.'] + pad;
    hide DigitsToNat, ParseDecimal, Pow10, Decimal;
    assert t[..|a|] == a;
    assert t[|a| + 1..] == pad;
    ParseDecimalSplit(t, |a|);
  }

  /** A whole number rounds to itself. */
  lemma WholeRounds(x: real)
    requires x == x.Floor as real
    ensures RoundHalfEven(x) == x.Floor
  {
  }

  /** The decimal digits of `m < 10^w`, padded with zeros to `w` places. */
  function PadDigits(m: nat, w: nat): (r: string)
    requires m < Pow10(w)
    ensures |r| == w && AllDigits(r)
    ensures DigitsToNat(r) == m
  {
    if w == 0 then []
    else
      var r := PadDigits(m / 10, w - 1) + [DigitChar(m % 10)];
      assert r[..w - 1] == PadDigits(m / 10, w - 1);
      r
  }

  /** A line as `strip()` leaves it and the filter keeps it: non-empty,
      with no whitespace at either end. */
  predicate CleanLine(line: string)
  {
    line != [] && !IsSpace(line[0]) && !IsSpace(line[|line| - 1])
  }

  /** The stripped, non-empty lines of a text split on "\n". */
  function StrippedLines(parts: seq<string>): (r: seq<string>)
    ensures |r| <= |parts|
    ensures forall line :: line in r ==> CleanLine(line)
  {
    hide Strip, LStrip, RStrip;
    if parts == [] then []
    else
      var rest := StrippedLines(parts[1..]);
      var line := Strip(parts[0]);
      if line != [] then [line] + rest else rest
  }

  /** Stripping a piece free of `c` leaves a line free of `c`. */
  lemma StripAvoids(s: string, c: char)
    requires c !in s
    ensures c !in Strip(s)
  {
    var r := Strip(s);
    var a: nat :| OccursAt(s, r, a);
    forall k | 0 <= k < |r| ensures r[k] != c {
      assert r[k] == s[a + k];
    }
  }

  /** The stripped lines of pieces free of `c` are free of `c`. */
  lemma {:induction false} StrippedLinesAvoid(parts: seq<string>, c: char)
    requires forall k :: 0 <= k < |parts| ==> c !in parts[k]
    ensures forall k :: 0 <= k < |StrippedLines(parts)| ==> c !in StrippedLines(parts)[k]
    decreases |parts|
  {
    if parts != [] {
      StrippedLinesAvoid(parts[1..], c);
      StripAvoids(parts[0], c);
    }
  }

  /** Splitting a join on its one-character separator gives the parts back
      when no part holds the separator. */
  lemma {:induction false} SplitOnJoin(parts: seq<string>, c: char)
    requires |parts| >= 1
    requires forall k :: 0 <= k < |parts| ==> c !in parts[k]
    ensures SplitOn(Join(parts, [c]), c) == parts
    decreases |parts|
  {
    var s := Join(parts, [c]);
    var p := parts[0];
    if |parts| == 1 {
      assert s == p;
      forall k | 0 <= k < |p| ensures InClass(s[k], AllBut(c)) {
        assert p[k] in p;
      }
      RunEndAt(s, 0, |p|, AllBut(c));
    } else {
      var rest := Join(parts[1..], [c]);
      assert s == p + [c] + rest;
      forall k | 0 <= k < |p| ensures InClass(s[k], AllBut(c)) {
        assert s[k] == p[k] && p[k] in p;
      }
      RunEndAt(s, 0, |p|, AllBut(c));
      assert s[..|p|] == p;
      assert s[|p| + 1..] == rest;
      SplitOnJoin(parts[1..], c);
      assert parts == [p] + parts[1..];
    }
  }

  /** `[l.strip() for l in text.split("\n") if l.strip()][:n]`: the first
      `n` stripped non-empty lines of a text, all of them when it has fewer. */
  function FirstLines(text: string, n: nat): (r: seq<string>)
    ensures var lines := StrippedLines(SplitOn(text, '\n'));
            && (|lines| <= n ==> r == lines)
            && (|lines| > n ==> r == lines[..n])
    ensures forall k :: 0 <= k < |r| ==> CleanLine(r[k]) && '\n' !in r[k]
  {
    var parts := SplitOn(text, '\n');
    var lines := StrippedLines(parts);
    StrippedLinesAvoid(parts, '\n');
    CleanLinesPrefix(lines, n);
    hide *;
    if |lines| <= n then lines else lines[..n]
  }

  /** A prefix of clean lines free of newlines is clean and free of them. */
  lemma CleanLinesPrefix(lines: seq<string>, n: nat)
    requires forall line :: line in lines ==> CleanLine(line)
    requires forall k :: 0 <= k < |lines| ==> '\n' !in lines[k]
    ensures var r := if |lines| <= n then lines else lines[..n];
            forall k :: 0 <= k < |r| ==> CleanLine(r[k]) && '\n' !in r[k]
  {
    var r := if |lines| <= n then lines else lines[..n];
    forall k | 0 <= k < |r| ensures CleanLine(r[k]) && '\n' !in r[k] {
      assert r[k] == lines[k] && lines[k] in lines;
    }
  }

  /** The first lines, joined with "\n", split back into those lines. */
  lemma FirstLinesSplitBack(text: string, n: nat)
    ensures FirstLines(text, n) != [] ==> SplitOn(Join(FirstLines(text, n), "\n"), '\n') == FirstLines(text, n)
  {
    if FirstLines(text, n) != [] {
      SplitOnJoin(FirstLines(text, n), '\n');
    }
  }

  /** `s.splitlines()`: the lines of `s` without their terminators; "\r\n"
      ends one line. */
  function SplitLines(s: string): (r: seq<string>)
    ensures s != [] ==> |r| >= 1
    ensures forall k :: 0 <= k < |r| ==> forall i :: 0 <= i < |r[k]| ==> !IsLineBreak(r[k][i])
    decreases |s|
  {
    if s == [] then []
    else
      var j := RunEnd(s, 0, NonLineBreaks);
      if j == |s| then [s]
      else
        var next := if s[j] == '\r' && j + 1 < |s| && s[j + 1] == '\n' then j + 2 else j + 1;
        [s[..j]] + SplitLines(s[next..])
  }

  /** A stripped text that holds a line break has at least two lines. */
  lemma SplitLinesOfStripped(s: string)
    requires s != [] && !IsSpace(s[|s| - 1])
    requires exists i :: 0 <= i < |s| && IsLineBreak(s[i])
    ensures |SplitLines(s)| >= 2
  {
    var j := RunEnd(s, 0, NonLineBreaks);
    var next := if s[j] == '\r' && j + 1 < |s| && s[j + 1] == '\n' then j + 2 else j + 1;
    assert next < |s|;
  }
}
