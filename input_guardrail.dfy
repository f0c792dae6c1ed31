/** `InputGuardrail`: the checks every customer message passes before it is
    routed, and the clean-up of a message that passes them. */
module InputGuardrail {
  import opened Text

  /** The two settings the guardrail reads: the longest message accepted
      and the keywords that mark a message as offensive. */
  datatype Config = Config(maxLength: nat, offensiveKeywords: seq<string>)

  /** Why a message is refused. */
  datatype Refusal = Empty | TooLong(max: nat) | Injection | Offensive

  /** `(is_valid, sanitized_input or error_message)`. */
  datatype Verdict = Accepted(text: string) | Refused(why: Refusal)

  function RefusalText(why: Refusal): string
  {
    match why
    case Empty => "Empty input"
    case TooLong(max) => "Input too long (max " + NatToString(max) + " characters)"
    case Injection => "Invalid input detected"
    case Offensive => "Please keep the conversation professional"
  }

  /** The pair `validate` returns. */
  function AsPair(v: Verdict): (bool, string)
  {
    match v
    case Accepted(text) => (true, text)
    case Refused(why) => (false, RefusalText(why))
  }

  // The injection patterns. Every pattern is searched case-insensitively
  // in the lower-cased message; `.` does not match a line break, and `$`
  // matches at the end or just before a final line break.

  /** `<script`, `javascript:`, `onerror=` and `onclick=`, as plain text. */
  function MarkupPatterns(): seq<string>
  {
    ["<script", "javascript:", "onerror=", "onclick="]
  }

  /** No line break in `s[i..j]`, so `.*` can span it. */
  predicate OneLine(s: string, i: nat, j: nat)
    requires i <= j <= |s|
  {
    '\n' !in s[i..j]
  }

  /** `\bUNION\b.*\bSELECT\b`. */
  predicate UnionSelect(s: string)
  {
    exists i: nat, j: nat :: i + 5 <= j <= |s| && WordAt(s, "union", i) && WordAt(s, "select", j) && OneLine(s, i + 5, j)
  }

  /** `\bDROP\b.*\bTABLE\b`. */
  predicate DropTable(s: string)
  {
    exists i: nat, j: nat :: i + 4 <= j <= |s| && WordAt(s, "drop", i) && WordAt(s, "table", j) && OneLine(s, i + 4, j)
  }

  /** `--.*$`: a double dash on the last line, a final line break aside. */
  predicate DashComment(s: string)
  {
    exists i: nat :: i <= |s| && OccursAt(s, "--", i) &&
      (OneLine(s, i + 2, |s|) || (i + 2 < |s| && s[|s| - 1] == '\n' && OneLine(s, i + 2, |s| - 1)))
  }

  /** `/\*.*\*\/`: a block comment opened and closed on one line. */
  predicate BlockComment(s: string)
  {
    exists i: nat, j: nat :: i + 2 <= j <= |s| && OccursAt(s, "/*", i) && OccursAt(s, "*/", j) && OneLine(s, i + 2, j)
  }

  /** `_contains_injection_patterns`: any of the eight patterns. */
  predicate HasInjection(text: string)
  {
    var s := Lower(text);
    ContainsAny(s, MarkupPatterns()) || UnionSelect(s) || DropTable(s) || DashComment(s) || BlockComment(s)
  }

  /** `_contains_offensive_content`: a keyword, lower-cased, inside the
      lower-cased message. */
  predicate HasOffensive(text: string, keywords: seq<string>)
  {
    exists k :: k in keywords && Contains(Lower(text), Lower(k))
  }

  /** `"".join(char for char in text if ord(char) >= 32 or char in "\n\t")`. */
  function DropControl(s: string): (r: string)
    ensures |r| <= |s|
    ensures forall i :: 0 <= i < |r| ==> r[i] >= ' ' || r[i] == '\n' || r[i] == '\t'
    ensures forall c :: c in r ==> c in s
  {
    if s == [] then []
    else
      var rest := DropControl(s[1..]);
      assert forall c :: c in s[1..] ==> c in s;
      if s[0] >= ' ' || s[0] == '\n' || s[0] == '\t' then [s[0]] + rest else rest
  }

  /** `_sanitize`: white-space runs become single spaces, control characters
      go, and the ends are stripped. */
  function Sanitize(text: string): (r: string)
    ensures forall i :: 0 <= i < |r| ==> r[i] >= ' '
    ensures r == [] || (!IsSpace(r[0]) && !IsSpace(r[|r| - 1]))
  {
    var squeezed := Join(Words(text), " ");
    JoinOfWords(Words(text));
    var cleaned := DropControl(squeezed);
    StripChars(cleaned);
    Strip(cleaned)
  }

  /** Stripping keeps only characters of the text it strips. */
  lemma StripChars(s: string)
    ensures forall i :: 0 <= i < |Strip(s)| ==> Strip(s)[i] in s
  {
    var r := Strip(s);
    var a: nat :| OccursAt(s, r, a);
    assert forall i :: 0 <= i < |r| ==> r[i] == s[a + i];
  }

  /** Words joined with single spaces contain no white space but those
      spaces. */
  lemma {:induction false} JoinOfWords(words: seq<string>)
    requires forall k :: 0 <= k < |words| ==> forall j :: 0 <= j < |words[k]| ==> !IsSpace(words[k][j])
    ensures forall c :: c in Join(words, " ") ==> c == ' ' || !IsSpace(c)
  {
    if |words| > 1 {
      JoinOfWords(words[1..]);
      assert forall j :: 0 <= j < |words[0]| ==> !IsSpace(words[0][j]);
    } else if |words| == 1 {
      assert forall j :: 0 <= j < |words[0]| ==> !IsSpace(words[0][j]);
    }
  }

  /** A character that is neither white space nor a control character. */
  predicate Visible(c: char)
  {
    c >= ' ' && !IsSpace(c)
  }

  /** The visible characters of `s`, in order. */
  function Visibles(s: string): (r: string)
    ensures forall i :: 0 <= i < |r| ==> Visible(r[i])
  {
    if s == [] then [] else (if Visible(s[0]) then [s[0]] else []) + Visibles(s[1..])
  }

  lemma {:induction false} VisiblesAppend(a: string, b: string)
    ensures Visibles(a + b) == Visibles(a) + Visibles(b)
  {
    if a == [] {
      assert a + b == b;
    } else {
      assert (a + b)[0] == a[0];
      assert (a + b)[1..] == a[1..] + b;
      VisiblesAppend(a[1..], b);
    }
  }

  lemma {:induction false} VisiblesNone(s: string)
    requires forall i :: 0 <= i < |s| ==> !Visible(s[i])
    ensures Visibles(s) == []
  {
    if s != [] {
      VisiblesNone(s[1..]);
    }
  }

  /** One step of `Words`: the leading space run, then the first word. */
  lemma WordsStep(s: string, start: nat, end: nat)
    requires start == RunEnd(s, 0, Spaces) < |s| && end == RunEnd(s, start, NonSpaces)
    ensures start < end
    ensures Words(s) == [s[start..end]] + Words(s[end..])
  {
  }

  /** Text made of white space only has no words. */
  lemma WordsNone(s: string)
    requires RunEnd(s, 0, Spaces) == |s|
    ensures Words(s) == [] && Join(Words(s), " ") == []
    ensures forall i :: 0 <= i < |s| ==> !Visible(s[i])
  {
  }

  /** One step of `Join` with a single space. */
  lemma JoinStep(w: string, rest: seq<string>)
    ensures Join([w] + rest, " ") == if rest == [] then w else w + " " + Join(rest, " ")
    ensures rest == [] ==> Join(rest, " ") == []
  {
    assert ([w] + rest)[0] == w;
    assert ([w] + rest)[1..] == rest;
  }

  /** The visible characters of text that starts with white space. */
  lemma VisiblesAfterSpaces(s: string, start: nat, end: nat)
    requires start <= end <= |s|
    requires forall i :: 0 <= i < start ==> IsSpace(s[i])
    ensures Visibles(s) == Visibles(s[start..end]) + Visibles(s[end..])
  {
    hide Visibles;
    var spaces := s[..start];
    assert s == spaces + s[start..end] + s[end..];
    VisiblesAppend(spaces + s[start..end], s[end..]);
    VisiblesAppend(spaces, s[start..end]);
    VisiblesNone(spaces);
  }

  /** The single spaces `Join` puts between words are not visible. */
  lemma VisiblesOfJoinStep(w: string, rest: seq<string>)
    ensures Visibles(Join([w] + rest, " ")) == Visibles(w) + Visibles(Join(rest, " "))
  {
    hide Visibles, Join;
    JoinStep(w, rest);
    VisiblesNone([]);
    if rest != [] {
      VisiblesAppend(w + " ", Join(rest, " "));
      VisiblesAppend(w, " ");
      VisiblesNone(" ");
    }
  }

  /** Splitting into words and joining them with single spaces keeps every
      visible character, in order. */
  lemma {:induction false} SqueezeKeepsVisible(s: string)
    ensures Visibles(Join(Words(s), " ")) == Visibles(s)
    decreases |s|
  {
    hide Words, Visibles, Join;
    var start := RunEnd(s, 0, Spaces);
    if start == |s| {
      WordsNone(s);
      VisiblesNone(s);
      VisiblesNone([]);
    } else {
      var end := RunEnd(s, start, NonSpaces);
      WordsStep(s, start, end);
      var w := s[start..end];
      var rest := Words(s[end..]);
      VisiblesAfterSpaces(s, start, end);
      SqueezeKeepsVisible(s[end..]);
      VisiblesOfJoinStep(w, rest);
    }
  }

  /** Dropping control characters keeps every visible character. */
  lemma {:induction false} DropControlKeepsVisible(s: string)
    ensures Visibles(DropControl(s)) == Visibles(s)
  {
    if s != [] {
      DropControlKeepsVisible(s[1..]);
      var rest := DropControl(s[1..]);
      if s[0] >= ' ' || s[0] == '\n' || s[0] == '\t' {
        assert DropControl(s) == [s[0]] + rest;
        VisiblesAppend([s[0]], rest);
      }
    }
  }

  lemma LStripKeepsVisible(s: string)
    ensures Visibles(LStrip(s)) == Visibles(s)
  {
    var l := LStrip(s);
    hide Visibles, LStrip;
    var front := s[..|s| - |l|];
    assert s == front + l;
    VisiblesAppend(front, l);
    VisiblesNone(front);
  }

  lemma RStripKeepsVisible(s: string)
    ensures Visibles(RStrip(s)) == Visibles(s)
  {
    var r := RStrip(s);
    hide Visibles, RStrip;
    var back := s[|r|..];
    assert s == r + back;
    VisiblesAppend(r, back);
    VisiblesNone(back);
  }

  /** Stripping removes white space only. */
  lemma StripKeepsVisible(s: string)
    ensures Visibles(Strip(s)) == Visibles(s)
  {
    LStripKeepsVisible(s);
    RStripKeepsVisible(LStrip(s));
  }

  /** Sanitising loses no visible character and adds none: only white space
      and control characters change. */
  lemma SanitizeKeepsVisible(text: string)
    ensures Visibles(Sanitize(text)) == Visibles(text)
  {
    var squeezed := Join(Words(text), " ");
    SqueezeKeepsVisible(text);
    DropControlKeepsVisible(squeezed);
    StripKeepsVisible(DropControl(squeezed));
  }

  /** `validate`: the checks in their fixed order (empty, too long, an
      injection pattern, an offensive keyword), the first that fails giving
      the answer; a message that passes them all comes back sanitised. The
      length limit applies to the raw message. */
  function Validate(config: Config, input: string): (v: Verdict)
    ensures v == Refused(Empty) <==> Strip(input) == []
    ensures v == Refused(TooLong(config.maxLength)) <==> Strip(input) != [] && |input| > config.maxLength
    ensures v == Refused(Injection) <==>
              Strip(input) != [] && |input| <= config.maxLength && HasInjection(input)
    ensures v == Refused(Offensive) <==>
              Strip(input) != [] && |input| <= config.maxLength && !HasInjection(input) &&
              HasOffensive(input, config.offensiveKeywords)
    ensures v.Accepted? <==>
              Strip(input) != [] && |input| <= config.maxLength && !HasInjection(input) &&
              !HasOffensive(input, config.offensiveKeywords)
    ensures v.Accepted? ==> v.text == Sanitize(input)
  {
    if Strip(input) == [] then Refused(Empty)
    else if |input| > config.maxLength then Refused(TooLong(config.maxLength))
    else if HasInjection(input) then Refused(Injection)
    else if HasOffensive(input, config.offensiveKeywords) then Refused(Offensive)
    else Accepted(Sanitize(input))
  }

  /** An occurrence survives lower-casing both texts. */
  lemma LowerOccurrence(s: string, p: string, i: nat)
    requires OccursAt(s, p, i)
    ensures OccursAt(Lower(s), Lower(p), i)
  {
    assert forall k :: 0 <= k < |p| ==> Lower(s)[i + k] == LowerChar(s[i + k]) == LowerChar(p[k]);
  }

  /** A markup pattern is caught whatever its case in the message. */
  lemma MarkupInAnyCase(input: string, p: string)
    requires Lower(p) in MarkupPatterns()
    requires Contains(input, p)
    ensures HasInjection(input)
  {
    var i: nat :| i <= |input| && OccursAt(input, p, i);
    LowerOccurrence(input, p, i);
    assert Contains(Lower(input), Lower(p));
  }

  /** An offensive keyword is caught whatever its case, in the keyword list
      and in the message. */
  lemma OffensiveInAnyCase(input: string, keywords: seq<string>, k: string, p: string)
    requires k in keywords && Lower(k) == Lower(p)
    requires Contains(input, p)
    ensures HasOffensive(input, keywords)
  {
    var i: nat :| i <= |input| && OccursAt(input, p, i);
    LowerOccurrence(input, p, i);
    assert Contains(Lower(input), Lower(k));
  }

  /** Text of control characters holds no text that starts with a
      printable character. */
  lemma NoPrintableOccurrence(s: string, p: string, i: nat)
    requires forall k :: 0 <= k < |s| ==> s[k] < ' '
    requires p != [] && p[0] >= ' '
    ensures !OccursAt(s, p, i)
  {
    if i < |s| {
      assert s[i] < ' ';
    }
  }

  /** No pattern can start at a control character. */
  lemma ControlTextHasNoInjection(input: string)
    requires forall i :: 0 <= i < |input| ==> input[i] < ' '
    ensures !HasInjection(input)
  {
    var s := Lower(input);
    assert forall i :: 0 <= i < |s| ==> s[i] < ' ';
    forall p, i: nat | p in MarkupPatterns()
      ensures !OccursAt(s, p, i)
    {
      NoPrintableOccurrence(s, p, i);
    }
    forall i: nat
      ensures !WordAt(s, "union", i) && !WordAt(s, "drop", i)
      ensures !OccursAt(s, "--", i) && !OccursAt(s, "/*", i)
    {
      NoPrintableOccurrence(s, "union", i);
      NoPrintableOccurrence(s, "drop", i);
      NoPrintableOccurrence(s, "--", i);
      NoPrintableOccurrence(s, "/*", i);
    }
  }

  /** A message of control characters alone is neither empty to `strip` nor
      caught by any check, and sanitises to nothing: it is accepted as the
      empty message. */
  lemma ControlTextAcceptedEmpty(config: Config, input: string)
    requires input != [] && |input| <= config.maxLength
    requires forall i :: 0 <= i < |input| ==> input[i] < ' ' && !IsSpace(input[i])
    requires !HasOffensive(input, config.offensiveKeywords)
    ensures Validate(config, input) == Accepted([])
  {
    StripEmpty(input);
    ControlTextHasNoInjection(input);
    var r := Sanitize(input);
    SanitizeKeepsVisible(input);
    VisiblesNone(input);
  }
}
