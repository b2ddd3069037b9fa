/** get_risk_scoring_system: the likelihood × impact rubric the agent is handed. The rubric's
    scales, worked example and bands are kept as data, the tool's text is rendered from them,
    and the score and band functions are what the text describes. */
module RiskScoring {
  import opened PyValues

  /** A likelihood or impact rating. */
  type Rating = r: int | 1 <= r <= 5 witness 1

  /** One step of a rating scale: "3: Possible - The risk may occur under certain circumstances." */
  datatype Step = Step(name: string, description: string)

  const LikelihoodScale: seq<Step> := [
    Step("Rare", "The risk is unlikely to occur."),
    Step("Unlikely", "The risk has a low probability of occurring."),
    Step("Possible", "The risk may occur under certain circumstances."),
    Step("Likely", "The risk is expected to occur."),
    Step("Almost Certain", "The risk is highly probable.")]

  const ImpactScale: seq<Step> := [
    Step("Insignificant", "Negligible impact on objectives or minimal consequences."),
    Step("Minor", "Some impact on objectives, but manageable with minimal effort."),
    Step("Moderate", "Significant impact on objectives, requiring additional resources and actions to address."),
    Step("Major", "Severe impact on objectives, potentially causing delays, financial loss, or reputation damage."),
    Step("Catastrophic", "Devastating impact on objectives, leading to significant losses or even business failure.")]

  /** Both scales have one step per rating, so a rating r names step r - 1; rating 4 is
      "Likely" and "Major". */
  lemma ScalesCoverRatings()
    ensures |LikelihoodScale| == 5 && |ImpactScale| == 5
    ensures LikelihoodScale[3].name == "Likely" && ImpactScale[3].name == "Major"
  {
  }

  /** Risk score: likelihood times impact. */
  function Score(likelihood: Rating, impact: Rating): (s: int)
    ensures 1 <= s <= 25
    ensures s >= likelihood && s >= impact
  {
    likelihood * impact
  }

  /** The score does not depend on which rating is which. */
  lemma ScoreSymmetric(likelihood: Rating, impact: Rating)
    ensures Score(likelihood, impact) == Score(impact, likelihood)
  {
  }

  /** Raising either rating never lowers the score. */
  lemma ScoreMonotone(l1: Rating, i1: Rating, l2: Rating, i2: Rating)
    requires l1 <= l2 && i1 <= i2
    ensures Score(l1, i1) <= Score(l2, i2)
  {
    assert l1 * i1 <= l2 * i1;
    assert l2 * i1 <= l2 * i2;
  }

  datatype Band = Low | Medium | High

  /** "Low Risk: Risk score of 1-5": a band and its score range; the last one is open. */
  datatype BandRow = BandRow(band: Band, lo: int, hi: Option<int>)

  const BandTable: seq<BandRow> := [
    BandRow(Low, 1, Some(5)),
    BandRow(Medium, 6, Some(15)),
    BandRow(High, 16, Nothing)]

  predicate InRow(row: BandRow, score: int) {
    row.lo <= score && (row.hi.Nothing? || score <= row.hi.value)
  }

  /** The first row of `table` whose range holds the score. */
  function FindBand(table: seq<BandRow>, score: int): (r: Option<Band>)
    ensures r.Some? ==> exists k :: 0 <= k < |table| && InRow(table[k], score) &&
                          table[k].band == r.value && forall j :: 0 <= j < k ==> !InRow(table[j], score)
    ensures r.Nothing? <==> forall k :: 0 <= k < |table| ==> !InRow(table[k], score)
  {
    if |table| == 0 then Nothing
    else if InRow(table[0], score) then Some(table[0].band)
    else
      var r := FindBand(table[1..], score);
      if r.Some? then
        var k' :| 0 <= k' < |table| - 1 && InRow(table[1..][k'], score) && table[1..][k'].band == r.value &&
                  forall j :: 0 <= j < k' ==> !InRow(table[1..][j], score);
        assert InRow(table[k' + 1], score) && forall j :: 0 <= j < k' + 1 ==> !InRow(table[j], score);
        r
      else
        assert forall k :: 1 <= k < |table| ==> table[k] == table[1..][k - 1];
        r
  }

  /** The rubric's band for a score; scores below 1 have none. */
  function BandOf(score: int): Option<Band> {
    FindBand(BandTable, score)
  }

  /** The three ranges as the rubric states them, in both directions. */
  lemma BandOfIff(score: int)
    ensures BandOf(score) == Some(Low) <==> 1 <= score <= 5
    ensures BandOf(score) == Some(Medium) <==> 6 <= score <= 15
    ensures BandOf(score) == Some(High) <==> score >= 16
    ensures BandOf(score) == Nothing <==> score < 1
  {
    if BandOf(score).Some? {
      var k :| 0 <= k < |BandTable| && InRow(BandTable[k], score) && BandTable[k].band == BandOf(score).value &&
               forall j :: 0 <= j < k ==> !InRow(BandTable[j], score);
      assert k == 0 || k == 1 || k == 2;
    } else {
      assert !InRow(BandTable[0], score) && !InRow(BandTable[1], score) && !InRow(BandTable[2], score);
    }
  }

  /** Every score a pair of ratings can produce gets exactly one band. */
  lemma EveryScoreHasOneBand(likelihood: Rating, impact: Rating)
    ensures BandOf(Score(likelihood, impact)).Some?
    ensures forall k, j :: 0 <= k < j < |BandTable| ==>
              !(InRow(BandTable[k], Score(likelihood, impact)) && InRow(BandTable[j], Score(likelihood, impact)))
  {
    BandOfIff(Score(likelihood, impact));
  }

  function Rank(b: Band): nat {
    match b
    case Low => 0
    case Medium => 1
    case High => 2
  }

  /** A higher score never gets a lower band. */
  lemma BandMonotone(s1: int, s2: int)
    requires 1 <= s1 <= s2
    ensures BandOf(s1).Some? && BandOf(s2).Some?
    ensures Rank(BandOf(s1).value) <= Rank(BandOf(s2).value)
  {
    BandOfIff(s1);
    BandOfIff(s2);
  }

  /** The rubric's worked example: likelihood 3 and impact 4. */
  const ExampleLikelihood: Rating := 3
  const ExampleImpact: Rating := 4

  /** 3 x 4 = 12, which the rubric's own ranges put in the Medium band. */
  lemma WorkedExampleIsMedium()
    ensures Score(ExampleLikelihood, ExampleImpact) == 12
    ensures BandOf(Score(ExampleLikelihood, ExampleImpact)) == Some(Medium)
  {
    BandOfIff(12);
  }

  // ---------------------------------------------------------------------------------------
  // The tool's text

  const Indent := "    "

  function BandName(b: Band): string {
    match b
    case Low => "Low"
    case Medium => "Medium"
    case High => "High"
  }

  /** "    3: Possible - The risk may occur under certain circumstances." for each step. */
  function ScaleLines(scale: seq<Step>): (lines: seq<string>)
    ensures |lines| == |scale|
    ensures forall k :: 0 <= k < |scale| ==>
              lines[k] == Indent + NatToString(k + 1) + ": " + scale[k].name + " - " + scale[k].description
  {
    seq(|scale|, k requires 0 <= k < |scale| =>
      Indent + NatToString(k + 1) + ": " + scale[k].name + " - " + scale[k].description)
  }

  /** "    Medium Risk: Risk score of 6-15"; an open range reads "16 or above". */
  function BandLine(row: BandRow): string {
    Indent + BandName(row.band) + " Risk: Risk score of " + IntToString(row.lo) +
    (match row.hi case Some(hi) => "-" + IntToString(hi) case Nothing => " or above")
  }

  function BandLines(table: seq<BandRow>): (lines: seq<string>)
    ensures |lines| == |table| && forall k :: 0 <= k < |table| ==> lines[k] == BandLine(table[k])
  {
    seq(|table|, k requires 0 <= k < |table| => BandLine(table[k]))
  }

  const IntroLine :=
    "A scoring system for risk management helps quantify and assess risks based on their " +
    "likelihood and impact. Here's a commonly used scoring system that combines likelihood " +
    "and impact ratings:"

  function ExampleLine(): string {
    Indent + "Multiply the Likelihood Rating by the Impact Rating to calculate the risk score. " +
    "For example, if a risk has a Likelihood Rating of " + IntToString(ExampleLikelihood) +
    " and an Impact Rating of " + IntToString(ExampleImpact) + ", the risk score would be " +
    IntToString(ExampleLikelihood) + " x " + IntToString(ExampleImpact) + " = " +
    IntToString(Score(ExampleLikelihood, ExampleImpact)) + "."
  }

  const ClosingLine :=
    Indent + "By using this scoring system, risks can be prioritized based on their potential impact, " +
    "enabling risk managers to allocate appropriate resources and focus on addressing high-priority " +
    "risks first. Keep in mind that this scoring system can be tailored to fit the specific needs " +
    "and context of your organization or project."

  /** The rubric's lines in order; the tool's text is these joined by newlines. */
  function RubricLines(): (lines: seq<string>)
    ensures |lines| == 21
    ensures lines[0] == IntroLine && lines[1] == Indent + "Likelihood Rating:"
    ensures lines[2..7] == ScaleLines(LikelihoodScale) && lines[8..13] == ScaleLines(ImpactScale)
    ensures lines[13] == Indent + "Risk Scoring:" && lines[14] == ExampleLine()
    ensures lines[17..20] == BandLines(BandTable)
  {
    var likelihood := ScaleLines(LikelihoodScale);
    var impact := ScaleLines(ImpactScale);
    var bands := BandLines(BandTable);
    var scoring := [Indent + "Risk Scoring:", ExampleLine(), Indent + "Risk Rating:",
                    Indent + "Based on the risk score, assign a Risk Rating to categorize the risk's severity:"];
    var head := [IntroLine, Indent + "Likelihood Rating:"] + likelihood + [Indent + "Impact Rating:"];
    var body := head + impact + scoring;
    assert |head| == 8 && head[2..7] == likelihood;
    assert head[0] == IntroLine && head[1] == Indent + "Likelihood Rating:";
    assert |body| == 17 && body[2..7] == likelihood && body[8..13] == impact;
    assert body[13] == scoring[0] && body[14] == scoring[1];
    body + bands + [ClosingLine]
  }

  /** get_risk_scoring_system(question): the rubric's lines joined by newlines, opening with the
      introduction and the indented "Likelihood Rating:" header, whatever the question. */
  function GetRiskScoringSystem(question: string): (text: string)
    ensures var head := RubricLines()[0] + "\n" + RubricLines()[1];
            |text| >= |head| && text[..|head|] == head
  {
    JoinStartsWith("\n", RubricLines());
    Join("\n", RubricLines())
  }

  /** The question is ignored. */
  lemma RubricIgnoresQuestion(q1: string, q2: string)
    ensures GetRiskScoringSystem(q1) == GetRiskScoringSystem(q2)
  {
  }
}
