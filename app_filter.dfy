/** The relevancy filter of the Streamlit front end: each article's checklist verdict is
    compared with the integer 0 and only the articles that compare equal are kept. The
    checklist answers with the strings "True" and "False", which never equal an int in
    Python, so as written the filter keeps nothing; the corrected filter keeps the articles
    whose verdict is "True". */
module AppFilter {
  import opened PyValues

  /** Python's ==, as far as the filter needs it: bools and ints compare by number, everything
      else by value and type (a str never equals an int). */
  predicate PyEquals(a: Value, b: Value) {
    if IsInt(a) && IsInt(b) then IntOf(a) == IntOf(b) else a == b
  }

  /** The verdicts the checklist can return. */
  predicate IsVerdict(v: Value) {
    v == Str("True") || v == Str("False")
  }

  /** The articles kept as written: those whose verdict == 0. */
  function FilterAsWritten(articles: seq<Dict>, verdicts: seq<Value>): (kept: seq<Dict>)
    requires |verdicts| == |articles|
    ensures |kept| <= |articles|
    ensures forall a :: a in kept ==> exists k :: 0 <= k < |articles| && articles[k] == a && PyEquals(verdicts[k], Int(0))
  {
    if |articles| == 0 then []
    else
      var rest := FilterAsWritten(articles[1..], verdicts[1..]);
      if PyEquals(verdicts[0], Int(0)) then [articles[0]] + rest else rest
  }

  /** With the checklist's string verdicts the filter as written keeps no article at all,
      relevant or not. */
  lemma {:induction false} FilterAsWrittenKeepsNothing(articles: seq<Dict>, verdicts: seq<Value>)
    requires |verdicts| == |articles|
    requires forall k :: 0 <= k < |verdicts| ==> IsVerdict(verdicts[k])
    ensures FilterAsWritten(articles, verdicts) == []
    decreases |articles|
  {
    if |articles| > 0 {
      assert !PyEquals(verdicts[0], Int(0));
      FilterAsWrittenKeepsNothing(articles[1..], verdicts[1..]);
    }
  }

  /** A relevant article that the filter as written drops. */
  lemma RelevantArticleDropped()
    ensures FilterAsWritten([map["body" := Str("news")]], [Str("True")]) == []
  {
    FilterAsWrittenKeepsNothing([map["body" := Str("news")]], [Str("True")]);
  }

  /** The articles kept as intended: those judged relevant, in their original order. */
  function FilterCorrected(articles: seq<Dict>, verdicts: seq<Value>): (kept: seq<Dict>)
    requires |verdicts| == |articles|
    ensures |kept| <= |articles|
    ensures forall a :: a in kept ==> exists k :: 0 <= k < |articles| && articles[k] == a && verdicts[k] == Str("True")
  {
    if |articles| == 0 then []
    else
      var rest := FilterCorrected(articles[1..], verdicts[1..]);
      if verdicts[0] == Str("True") then [articles[0]] + rest else rest
  }

  /** The number of relevant articles. */
  function RelevantCount(verdicts: seq<Value>): nat {
    if |verdicts| == 0 then 0
    else (if verdicts[0] == Str("True") then 1 else 0) + RelevantCount(verdicts[1..])
  }

  /** Every relevant article is kept (as many as there are relevant verdicts) and every
      article judged relevant is kept in place of none other. */
  lemma {:induction false} FilterCorrectedKeepsRelevant(articles: seq<Dict>, verdicts: seq<Value>)
    requires |verdicts| == |articles|
    ensures |FilterCorrected(articles, verdicts)| == RelevantCount(verdicts)
    ensures forall k :: 0 <= k < |articles| && verdicts[k] == Str("True") ==> articles[k] in FilterCorrected(articles, verdicts)
    decreases |articles|
  {
    if |articles| > 0 {
      FilterCorrectedKeepsRelevant(articles[1..], verdicts[1..]);
      forall k | 0 <= k < |articles| && verdicts[k] == Str("True")
        ensures articles[k] in FilterCorrected(articles, verdicts)
      {
        if k > 0 {
          assert articles[1..][k - 1] == articles[k];
          assert verdicts[1..][k - 1] == verdicts[k];
        }
      }
    }
  }
}
