/** risk_scoring_template: the fixed example report the agent copies the format of, a list of
    five identified risks, a table of their ratings and a table of their scores and bands.
    The tables are kept as records; the tool's text is rendered from them. */
module RiskTemplate {
  import opened PyValues
  import opened RiskScoring

  const IdentifiedRisks: seq<string> := [
    "Decreased demand",
    "Increased competition",
    "Negative impact on brand reputation",
    "Decreased profitability",
    "Increased pressure on supply chain"]

  /** "| Decreased demand | 3 | 4 |" */
  datatype RatingRow = RatingRow(risk: string, likelihood: int, impact: int)

  /** "| Decreased demand | 12 | Medium Risk |" */
  datatype ScoreRow = ScoreRow(risk: string, score: int, band: Band)

  const RatingRows: seq<RatingRow> := [
    RatingRow("Decreased demand", 3, 4),
    RatingRow("Increased competition", 4, 3),
    RatingRow("Negative impact on brand reputation", 5, 4),
    RatingRow("Decreased profitability", 4, 5),
    RatingRow("Increased pressure on supply chain", 3, 4)]

  const ScoreRows: seq<ScoreRow> := [
    ScoreRow("Decreased demand", 12, Medium),
    ScoreRow("Increased competition", 12, Medium),
    ScoreRow("Negative impact on brand reputation", 20, High),
    ScoreRow("Decreased profitability", 20, High),
    ScoreRow("Increased pressure on supply chain", 12, Medium)]

  /** A ratings row is well formed under the rubric: both ratings in 1..5. */
  predicate RatingsInRange(row: RatingRow) {
    1 <= row.likelihood <= 5 && 1 <= row.impact <= 5
  }

  /** A score row agrees with its ratings row: same risk, score = likelihood × impact, and
      the band the rubric gives that score. */
  predicate RowsAgree(rating: RatingRow, score: ScoreRow)
    requires RatingsInRange(rating)
  {
    && score.risk == rating.risk
    && score.score == Score(rating.likelihood, rating.impact)
    && BandOf(score.score) == Some(score.band)
  }

  /** The example report is consistent with the rubric: the three lists name the same five
      risks in the same order, every rating lies in 1..5, every score is the product of its
      ratings and every band is the rubric's band for that score. */
  lemma TemplateMatchesRubric()
    ensures |RatingRows| == |ScoreRows| == |IdentifiedRisks| == 5
    ensures forall k :: 0 <= k < 5 ==> RatingRows[k].risk == IdentifiedRisks[k]
    ensures forall k :: 0 <= k < 5 ==> RatingsInRange(RatingRows[k])
    ensures forall k :: 0 <= k < 5 ==> RowsAgree(RatingRows[k], ScoreRows[k])
  {
    BandOfIff(12);
    BandOfIff(20);
  }

  /** "    1. Decreased demand\n" */
  function RiskLine(n: int, risk: string): string {
    Indent + IntToString(n) + ". " + risk + "\n"
  }

  /** The risks numbered upwards from `first`, one line each. */
  function NumberedFrom(risks: seq<string>, first: int): string {
    if |risks| == 0 then ""
    else RiskLine(first, risks[0]) + NumberedFrom(risks[1..], first + 1)
  }

  /** The "Identified Risks:" list: the risks numbered from 1. */
  function RiskLines(risks: seq<string>): string {
    NumberedFrom(risks, 1)
  }

  /** Numbering a concatenation: the second part continues where the first part stops. */
  lemma {:induction false} NumberedFromAppend(a: seq<string>, b: seq<string>, first: int)
    ensures NumberedFrom(a + b, first) == NumberedFrom(a, first) + NumberedFrom(b, first + |a|)
    decreases |a|
  {
    if |a| == 0 {
      assert a + b == b;
      assert "" + NumberedFrom(b, first) == NumberedFrom(b, first);
    } else {
      assert (a + b)[0] == a[0];
      assert (a + b)[1..] == a[1..] + b;
      NumberedFromAppend(a[1..], b, first + 1);
      var h := RiskLine(first, a[0]);
      var x := NumberedFrom(a[1..], first + 1);
      var y := NumberedFrom(b, first + |a|);
      assert h + (x + y) == h + x + y;
    }
  }

  /** One more risk at the end of the list gets the next number. */
  lemma NumberedFromSnoc(risks: seq<string>, last: string, first: int)
    ensures NumberedFrom(risks + [last], first) == NumberedFrom(risks, first) + RiskLine(first + |risks|, last)
  {
    NumberedFromAppend(risks, [last], first);
    assert [last][1..] == [];
    assert RiskLine(first + |risks|, last) + "" == RiskLine(first + |risks|, last);
  }

  /** Splitting the risk list anywhere: the second part continues the numbering of the first,
      so the risks are numbered 1, 2, ... in their order. */
  lemma RiskLinesAppend(a: seq<string>, b: seq<string>)
    ensures RiskLines(a + b) == RiskLines(a) + NumberedFrom(b, |a| + 1)
  {
    NumberedFromAppend(a, b, 1);
  }

  function RatingLines(rows: seq<RatingRow>): string {
    if |rows| == 0 then ""
    else Indent + "| " + rows[0].risk + " | " + IntToString(rows[0].likelihood) + " | " +
         IntToString(rows[0].impact) + " |\n" + RatingLines(rows[1..])
  }

  function ScoreLines(rows: seq<ScoreRow>): string {
    if |rows| == 0 then ""
    else Indent + "| " + rows[0].risk + " | " + IntToString(rows[0].score) + " | " +
         BandName(rows[0].band) + " Risk |\n" + ScoreLines(rows[1..])
  }

  const RisksHeader := "\n" + Indent + "Identified Risks:\n"

  /** The blank line closing the risk list, then the ratings table's title and head. */
  const RatingsHeader :=
    "\n" +
    Indent + "Likelihood and Impact Ratings:\n" +
    Indent + "| Risk | Likelihood Rating | Impact Rating |\n" +
    Indent + "|------|------------------|---------------|\n"

  /** The blank line closing the ratings table, then the scores table's title and head. */
  const ScoresHeader :=
    "\n" +
    Indent + "Risk Scores and Ratings:\n" +
    Indent + "| Risk | Risk Score | Risk Rating |\n" +
    Indent + "|------|------------|------------|\n"

  /** The three sections under their headers, separated by a blank line, beginning with a
      newline and ending with the indentation of the closing quotes. */
  function Layout(risks: string, ratings: string, scores: string): string {
    RisksHeader + risks + RatingsHeader + ratings + ScoresHeader + scores + Indent
  }

  /** Seven strings concatenated: each can be read back at its offset. */
  lemma SevenParts(a: string, b: string, c: string, d: string, e: string, f: string, g: string)
    ensures var text := a + b + c + d + e + f + g;
            var o1 := |a|;
            var o2 := o1 + |b|;
            var o3 := o2 + |c|;
            var o4 := o3 + |d|;
            var o5 := o4 + |e|;
            var o6 := o5 + |f|;
            && |text| == o6 + |g|
            && text[..o1] == a && text[o1..o2] == b && text[o2..o3] == c && text[o3..o4] == d
            && text[o4..o5] == e && text[o5..o6] == f && text[o6..] == g
  {
  }

  /** Where each header and each section lies in the layout. */
  lemma LayoutSections(risks: string, ratings: string, scores: string)
    ensures var text := Layout(risks, ratings, scores);
            var o1 := |RisksHeader|;
            var o2 := o1 + |risks|;
            var o3 := o2 + |RatingsHeader|;
            var o4 := o3 + |ratings|;
            var o5 := o4 + |ScoresHeader|;
            var o6 := o5 + |scores|;
            && |text| == o6 + |Indent|
            && text[..o1] == RisksHeader && text[o1..o2] == risks
            && text[o2..o3] == RatingsHeader && text[o3..o4] == ratings
            && text[o4..o5] == ScoresHeader && text[o5..o6] == scores
            && text[o6..] == Indent
  {
    SevenParts(RisksHeader, risks, RatingsHeader, ratings, ScoresHeader, scores, Indent);
  }

  /** The template built from a risk list and its two tables: the risks numbered from 1 under
      "Identified Risks:", the tables after them. */
  function TemplateOf(risks: seq<string>, ratingRows: seq<RatingRow>, scoreRows: seq<ScoreRow>): (text: string)
    ensures |text| == |RisksHeader| + |RiskLines(risks)| + |RatingsHeader| + |RatingLines(ratingRows)| +
                      |ScoresHeader| + |ScoreLines(scoreRows)| + |Indent|
    ensures text[..|RisksHeader|] == RisksHeader
    ensures text[|RisksHeader|..|RisksHeader| + |RiskLines(risks)|] == RiskLines(risks)
  {
    LayoutSections(RiskLines(risks), RatingLines(ratingRows), ScoreLines(scoreRows));
    Layout(RiskLines(risks), RatingLines(ratingRows), ScoreLines(scoreRows))
  }

  /** The template text of the tool. */
  function TemplateText(): string {
    TemplateOf(IdentifiedRisks, RatingRows, ScoreRows)
  }

  /** risk_scoring_template(question): the example report, opening with a newline and the
      indented "Identified Risks:" header. */
  function RiskScoringTemplate(question: string): (text: string)
    ensures |text| > |RisksHeader| && text[..|RisksHeader|] == RisksHeader
    ensures text[0] == '\n'
  {
    TemplateText()
  }

  /** The question is ignored. */
  lemma TemplateIgnoresQuestion(q1: string, q2: string)
    ensures RiskScoringTemplate(q1) == RiskScoringTemplate(q2)
  {
  }
}
