/** Keyword-scored snippet retrieval and the policy answer of rag.py. The
    loaded documents are a parameter. */
module Rag {
  import opened Text
  import opened Sorting

  /** Hits of the question's words in a lower-cased document, repeats
      counted; folded from the end so that a loop can extend it. */
  function Hits(words: seq<string>, ldoc: string): (n: nat)
    ensures n <= |words|
  {
    if words == [] then 0
    else Hits(words[..|words| - 1], ldoc) + (if Contains(ldoc, words[|words| - 1]) then 1 else 0)
  }

  /** A document's score: how many `\w+` tokens of the lower-cased question
      occur inside the lower-cased document. */
  function Score(question: string, doc: string): nat
  {
    Hits(WordTokens(Lower(question)), Lower(doc))
  }

  function ScoreOf(p: (int, string)): int { p.0 }

  /** The `(score, doc)` pairs with a positive score, in document order. */
  function Scored(question: string, docs: seq<string>): (r: seq<(int, string)>)
    ensures |r| <= |docs|
    ensures forall k :: 0 <= k < |r| ==> r[k].0 > 0 && r[k].1 in docs && r[k].0 == Score(question, r[k].1)
  {
    if docs == [] then []
    else
      var rest := Scored(question, docs[..|docs| - 1]);
      var d := docs[|docs| - 1];
      if Score(question, d) > 0 then rest + [(Score(question, d), d)] else rest
  }

  /** `s[:k]` for any integer `k`, negative ones counting from the end. */
  function PyPrefix<T>(s: seq<T>, k: int): (r: seq<T>)
    ensures |r| <= |s| && r == s[..|r|]
    ensures k >= 0 ==> |r| == if k <= |s| then k else |s|
    ensures k < 0 ==> |r| == if |s| + k >= 0 then |s| + k else 0
  {
    if k >= 0 then (if k <= |s| then s[..k] else s)
    else if |s| + k >= 0 then s[..|s| + k] else []
  }

  function Docs(pairs: seq<(int, string)>): (r: seq<string>)
    ensures |r| == |pairs| && forall k :: 0 <= k < |r| ==> r[k] == pairs[k].1
  {
    seq(|pairs|, k requires 0 <= k < |pairs| => pairs[k].1)
  }

  /** What `retrieve_relevant_snippets` returns: the scored documents, best
      first with ties in document order, cut to `top_k`. */
  function Retrieved(question: string, docs: seq<string>, topK: int): seq<string>
  {
    Docs(PyPrefix(SortDesc(Scored(question, docs), ScoreOf), topK))
  }

  /** The retrieval loop as written: scores each document word by word, keeps
      the positive ones, sorts them by score (stably, descending) and cuts. */
  method RetrieveRelevantSnippets(question: string, docs: seq<string>, topK: int) returns (r: seq<string>)
    ensures r == Retrieved(question, docs, topK)
  {
    var q := Lower(question);
    var words := WordTokens(q);
    var scored: seq<(int, string)> := [];
    var i := 0;
    while i < |docs|
      invariant 0 <= i <= |docs|
      invariant scored == Scored(question, docs[..i])
    {
      var doc := docs[i];
      var ldoc := Lower(doc);
      var score := 0;
      var j := 0;
      while j < |words|
        invariant 0 <= j <= |words|
        invariant score == Hits(words[..j], ldoc)
      {
        if Contains(ldoc, words[j]) {
          score := score + 1;
        }
        assert words[..j + 1][..j] == words[..j];
        j := j + 1;
      }
      assert words[..j] == words;
      assert docs[..i + 1][..i] == docs[..i];
      if score > 0 {
        scored := scored + [(score, doc)];
      }
      i := i + 1;
    }
    assert docs[..i] == docs;
    scored := SortDesc(scored, ScoreOf);
    r := Docs(PyPrefix(scored, topK));
  }

  /** Every snippet is a document that scored, there are at most `top_k` of
      them, and they come best first. */
  lemma RetrievedProperties(question: string, docs: seq<string>, topK: int)
    ensures var r := Retrieved(question, docs, topK);
            && |r| <= |docs| && (topK >= 0 ==> |r| <= topK)
            && forall k :: 0 <= k < |r| ==> r[k] in docs && Score(question, r[k]) > 0
    ensures var p := PyPrefix(SortDesc(Scored(question, docs), ScoreOf), topK);
            forall a, b :: 0 <= a < b < |p| ==> p[a].0 >= p[b].0
  {
    hide Score, Scored, SortDesc;
    var sorted := SortDesc(Scored(question, docs), ScoreOf);
    SortedPairsScored(question, docs);
    SortDescSorted(Scored(question, docs), ScoreOf);
    var p := PyPrefix(sorted, topK);
    forall k | 0 <= k < |p| ensures p[k] == sorted[k] { }
  }

  /** The sorted pairs are still scored documents, and no more of them. */
  lemma SortedPairsScored(question: string, docs: seq<string>)
    ensures var sorted := SortDesc(Scored(question, docs), ScoreOf);
            |sorted| <= |docs| &&
            forall k :: 0 <= k < |sorted| ==> sorted[k].0 > 0 && sorted[k].1 in docs && sorted[k].0 == Score(question, sorted[k].1)
  {
    hide Score;
    var s := Scored(question, docs);
    var sorted := SortDesc(s, ScoreOf);
    SortDescPermutation(s, ScoreOf);
    forall k | 0 <= k < |sorted|
      ensures sorted[k].0 > 0 && sorted[k].1 in docs && sorted[k].0 == Score(question, sorted[k].1)
    {
      assert sorted[k] in multiset(sorted);
      assert sorted[k] in multiset(s);
    }
  }

  /** Among documents of equal score the snippets keep the input order. */
  lemma RetrievedTiesInOrder(question: string, docs: seq<string>, v: int)
    ensures WithKey(SortDesc(Scored(question, docs), ScoreOf), ScoreOf, v) == WithKey(Scored(question, docs), ScoreOf, v)
  {
    SortDescStable(Scored(question, docs), ScoreOf, v);
  }

  const NoDocsAnswer := "No policy documents are configured yet."

  /** `answer_from_policy_docs`: the best snippet verbatim, the first document
      when nothing scores, and a fixed text without documents. The second
      emptiness check of the source cannot fire once documents exist. */
  function AnswerFromPolicyDocs(question: string, docs: seq<string>): (r: (string, seq<string>))
    ensures docs == [] <==> r == (NoDocsAnswer, [])
    ensures docs != [] ==> |r.1| >= 1 && r.0 == r.1[0] && r.0 in docs
    ensures docs != [] && Retrieved(question, docs, 3) == [] ==> r.1 == [docs[0]]
    ensures docs != [] && Retrieved(question, docs, 3) != [] ==> r.1 == Retrieved(question, docs, 3)
  {
    if docs == [] then (NoDocsAnswer, [])
    else
      var snippets := Retrieved(question, docs, 3);
      RetrievedProperties(question, docs, 3);
      var chosen := if snippets == [] then docs[..1] else snippets;
      (chosen[0], chosen)
  }
}
