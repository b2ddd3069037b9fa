/** RiskAnalysis.analysis: three language-model stages run strictly in sequence (key points of
    the article, risk identification by a plan-and-execute agent, risk scoring by a tool-using
    chat agent) and a report that concatenates their outputs under fixed headers. Each stage
    is external and appears as a function parameter that returns its text or raises. */
module RiskAnalysis {
  import opened PyValues
  import opened ChatPrompts
  import opened RiskScoring

  /** LLMChain(llm, prompt = chat_prompt).run: the formatted messages in, the model's text out. */
  type KeypointChain = seq<Message> -> Result<string>

  /** PlanAndExecute(planner, executor).run on a single prompt string. */
  type Planner = string -> Result<string>

  /** The chat-zero-shot-react agent run on the formatted scoring messages. */
  type ScoringAgent = seq<Message> -> Result<string>

  // ---------------------------------------------------------------------------------------
  // Stage 1: key points

  const KeypointSystemText :=
    "You are a helpful assistant. " +
    "Your job is to read a news article and return its key point."

  const KeypointPrompt := [
    MessageTemplate(System, Nothing, [Lit(KeypointSystemText)]),
    MessageTemplate(Human, Nothing,
      [Lit(KeypointHumanHead), Slot("news"), Lit(".")])]

  const KeypointHumanHead := "Please identify the key points of the following news article: "

  /** The messages the key-point chain formats from str(news). */
  function KeypointMessages(news: Value): Result<seq<Message>> {
    FormatMessages(KeypointPrompt, map["news" := StrOf(news)])
  }

  /** The fixed system turn and a human turn that carries str(news). */
  function KeypointTurns(news: Value): seq<Message> {
    [Message(System, Nothing, KeypointSystemText),
     Message(Human, Nothing, KeypointHumanHead + StrOf(news) + ".")]
  }

  /** Formatting the key-point prompt never fails and gives exactly those two turns. */
  lemma KeypointMessagesShape(news: Value)
    ensures KeypointMessages(news) == Ok(KeypointTurns(news))
  {
    KeypointFormat(StrOf(news));
  }

  lemma KeypointFormat(n: string)
    ensures FormatMessages(KeypointPrompt, map["news" := n]) ==
            Ok([Message(System, Nothing, KeypointSystemText), Message(Human, Nothing, KeypointHumanHead + n + ".")])
  {
    var b := map["news" := n];
    var contents := [KeypointSystemText, KeypointHumanHead + n + "."];
    FillLiteral(KeypointSystemText, b);
    FillThree(KeypointHumanHead, "news", ".", b);
    assert KeypointPrompt[0].template == [Lit(KeypointSystemText)];
    assert KeypointPrompt[1].template == [Lit(KeypointHumanHead), Slot("news"), Lit(".")];
    FormatMessagesFilled(KeypointPrompt, b, contents);
    var p := KeypointPrompt;
    var made := seq(|p|, k requires 0 <= k < |p| => Message(p[k].role, p[k].name, contents[k]));
    assert made == [Message(System, Nothing, KeypointSystemText), Message(Human, Nothing, KeypointHumanHead + n + ".")] by {
      assert made[0] == Message(System, Nothing, KeypointSystemText);
      assert made[1] == Message(Human, Nothing, KeypointHumanHead + n + ".");
    }
  }

  // ---------------------------------------------------------------------------------------
  // Stage 2: risk identification

  const RiskPromptHead := "You are a helpful assistant. Please identify the major risks for the \n        company "
  const RiskPromptMid := " based on this statement: "
  const RiskPromptTail :=
    ". Report each identified risk type (max. 3) and support your decision\n" +
    "        by providing explanations. Do not create more than 5 steps."

  /** The planner's prompt: str.format of the template with str(company) and the key points. */
  function RiskIdentificationPrompt(company: Value, keypoints: string): string {
    RiskPromptHead + StrOf(company) + RiskPromptMid + keypoints + RiskPromptTail
  }

  /** The prompt embeds the company and the key points verbatim, at fixed places after the
      fixed head. */
  lemma RiskPromptEmbeds(company: Value, keypoints: string)
    ensures var p := RiskIdentificationPrompt(company, keypoints);
            var c := StrOf(company);
            var at := |RiskPromptHead| + |c| + |RiskPromptMid|;
            && p[..|RiskPromptHead|] == RiskPromptHead
            && p[|RiskPromptHead|..|RiskPromptHead| + |c|] == c
            && p[|RiskPromptHead| + |c|..at] == RiskPromptMid
            && p[at..at + |keypoints|] == keypoints
            && p[at + |keypoints|..] == RiskPromptTail
  {
    var c := StrOf(company);
    var p := RiskIdentificationPrompt(company, keypoints);
    var x := RiskPromptHead + c;
    var y := x + RiskPromptMid;
    var z := y + keypoints;
    assert p == z + RiskPromptTail;
    assert p[..|z|] == z;
    assert z[..|y|] == y;
    assert y[..|x|] == x;
  }

  // ---------------------------------------------------------------------------------------
  // Stage 3: risk scoring

  const ScoringSystemText :=
    "You are a helpful assistant. " +
    "Your job is to award risk scores to identified risks."

  const ScoringExampleUserText :=
    "Please score the risks for the company \n" +
    "        Apple as identified in this risk assessment: The potential risks for Apple include a decrease in demand \n" +
    "        for the iPhone 15 range due to the higher prices, which could lead to lower sales and revenue. \n" +
    "        Additionally, if international customers are facing their second successive major price increase, \n" +
    "        this could lead to a negative impact on Apple's reputation and customer loyalty. Your final answer \n" +
    "        should include a detailed explanation for your reasoning."

  /** One scoring claim of the example answer: the two ratings (as steps of the rubric's
      scales), the score it states and the band it states. */
  datatype Claim = Claim(likelihood: Rating, impact: Rating, score: int, band: Band)

  /** "likelihood rating of "Likely" and an impact rating of "Major"" */
  function ClaimRatings(c: Claim): string {
    "likelihood rating of \"" + LikelihoodScale[c.likelihood - 1].name +
    "\" and an impact rating of \"" + ImpactScale[c.impact - 1].name + "\""
  }

  /** "4 x 4 = 16" */
  function ClaimScore(c: Claim): string {
    IntToString(c.likelihood) + " x " + IntToString(c.impact) + " = " + IntToString(c.score)
  }

  /** The example answer with its two claims filled in; the second says "also" when it falls in
      the same band as the first. */
  function ScoringExampleAnswer(first: Claim, second: Claim): string {
    "Based on the identified risks for Apple in the given \n" +
    "        risk assessment, the risk of a decrease in demand for the iPhone 15 range due to the higher prices has a \n" +
    "        " + ClaimRatings(first) + ". Therefore, the risk score for this risk is \n" +
    "        " + ClaimScore(first) + ", which falls under the \"" + BandName(first.band) + " Risk\" category. " +
    "This risk is severe and could potentially cause \n" +
    "        financial loss for Apple. The risk of international customers facing their second successive major price \n" +
    "        increase has a " + ClaimRatings(second) + ". Therefore, the risk score \n" +
    "        for this risk is " + ClaimScore(second) + ", which " + (if second.band == first.band then "also " else "") +
    "falls under the \"" + BandName(second.band) + " Risk\" category. This risk is significant and \n" +
    "        could potentially damage Apple's reputation and customer loyalty."
  }

  /** The claims the prompt's example answer makes: Likely × Major = 16 High, and
      Likely × Moderate = 12, labelled High as well. */
  const ExampleClaimsAsWritten := [Claim(4, 4, 16, High), Claim(4, 3, 12, High)]

  /** The same claims with the band the rubric gives a score of 12. */
  const ExampleClaimsCorrected := [Claim(4, 4, 16, High), Claim(4, 3, 12, Medium)]

  /** A claim agrees with the rubric: its score is the product of its ratings and its band is
      the rubric's band for that score. */
  predicate ClaimAgrees(c: Claim) {
    c.score == Score(c.likelihood, c.impact) && BandOf(c.score) == Some(c.band)
  }

  /** As written, the example's arithmetic is right but its second band is not: the rubric puts
      4 x 3 = 12 in the Medium band, and the example teaches the agent to call it High. */
  lemma ExampleAsWrittenContradictsRubric()
    ensures ExampleClaimsAsWritten[0].score == Score(4, 4) && ClaimAgrees(ExampleClaimsAsWritten[0])
    ensures ExampleClaimsAsWritten[1].score == Score(4, 3)
    ensures !ClaimAgrees(ExampleClaimsAsWritten[1]) && BandOf(12) == Some(Medium)
  {
    BandOfIff(12);
    BandOfIff(16);
  }

  /** Corrected, every claim of the example agrees with the rubric. */
  lemma ExampleCorrectedAgreesWithRubric()
    ensures forall k :: 0 <= k < |ExampleClaimsCorrected| ==> ClaimAgrees(ExampleClaimsCorrected[k])
    ensures ExampleClaimsCorrected[0] == ExampleClaimsAsWritten[0]
    ensures ExampleClaimsCorrected[1].score == ExampleClaimsAsWritten[1].score
  {
    BandOfIff(12);
    BandOfIff(16);
  }

  const ScoringHumanHead := "Please score the risks for the company "
  const ScoringHumanMid := " as identified in this risk \n        assessment: "
  const ScoringHumanTail := ". Your final answer should include a detailed explanation for your reasoning."

  /** The scoring prompt with the given example answer: system turn, example user, example
      assistant, human turn. */
  function ScoringPromptWith(answer: string): seq<MessageTemplate> {
    [MessageTemplate(System, Nothing, [Lit(ScoringSystemText)]),
     MessageTemplate(System, Some("example_user"), [Lit(ScoringExampleUserText)]),
     MessageTemplate(System, Some("example_assistant"), [Lit(answer)]),
     MessageTemplate(Human, Nothing,
       [Lit(ScoringHumanHead), Slot("company"), Lit(ScoringHumanMid), Slot("risk_analysis"), Lit(ScoringHumanTail)])]
  }

  /** The example answer the program sends: 12 is labelled High. */
  const ScoringExampleAsWritten := ScoringExampleAnswer(ExampleClaimsAsWritten[0], ExampleClaimsAsWritten[1])

  /** The example answer with the band the rubric gives 12. */
  const ScoringExampleCorrected := ScoringExampleAnswer(ExampleClaimsCorrected[0], ExampleClaimsCorrected[1])

  /** The scoring prompt analysis formats. */
  const ScoringPrompt := ScoringPromptWith(ScoringExampleAsWritten)

  /** The same prompt with the rubric-consistent example answer. */
  const ScoringPromptCorrected := ScoringPromptWith(ScoringExampleCorrected)

  /** The human scoring turn as the agent sees it. */
  function ScoringHumanTurn(company: string, riskAnalysis: string): string {
    ScoringHumanHead + company + ScoringHumanMid + riskAnalysis + ScoringHumanTail
  }

  /** format_messages(company = company, risk_analysis = risk_analysis) on the scoring prompt. */
  function ScoringMessages(company: Value, riskAnalysis: string): Result<seq<Message>> {
    FormatMessages(ScoringPrompt, map["company" := StrOf(company), "risk_analysis" := riskAnalysis])
  }

  /** Four turns in order: system, example user, example assistant, and a human turn carrying
      str(company) and the risk analysis. */
  function ScoringTurns(company: Value, riskAnalysis: string): seq<Message> {
    [Message(System, Nothing, ScoringSystemText),
     Message(System, Some("example_user"), ScoringExampleUserText),
     Message(System, Some("example_assistant"), ScoringExampleAsWritten),
     Message(Human, Nothing, ScoringHumanTurn(StrOf(company), riskAnalysis))]
  }

  /** Formatting the scoring prompt never fails and gives exactly those four turns. */
  lemma ScoringMessagesShape(company: Value, riskAnalysis: string)
    ensures ScoringMessages(company, riskAnalysis) == Ok(ScoringTurns(company, riskAnalysis))
  {
    ScoringFormat(ScoringExampleAsWritten, StrOf(company), riskAnalysis);
  }

  /** The corrected prompt formats into the same turns except the example answer, which is the
      rubric-consistent one. */
  lemma CorrectedPromptChangesOnlyExample(company: string, riskAnalysis: string)
    ensures var b := map["company" := company, "risk_analysis" := riskAnalysis];
            var sent := FormatMessages(ScoringPrompt, b);
            var corrected := FormatMessages(ScoringPromptCorrected, b);
            && sent.Ok? && corrected.Ok? && |sent.value| == |corrected.value| == 4
            && sent.value[0] == corrected.value[0] && sent.value[1] == corrected.value[1]
            && sent.value[3] == corrected.value[3]
            && sent.value[2].content == ScoringExampleAsWritten
            && corrected.value[2] == Message(System, Some("example_assistant"), ScoringExampleCorrected)
  {
    ScoringFormat(ScoringExampleAsWritten, company, riskAnalysis);
    ScoringFormat(ScoringExampleCorrected, company, riskAnalysis);
  }

  lemma ScoringFormat(answer: string, company: string, riskAnalysis: string)
    ensures FormatMessages(ScoringPromptWith(answer), map["company" := company, "risk_analysis" := riskAnalysis]) ==
            Ok([Message(System, Nothing, ScoringSystemText),
                Message(System, Some("example_user"), ScoringExampleUserText),
                Message(System, Some("example_assistant"), answer),
                Message(Human, Nothing, ScoringHumanTurn(company, riskAnalysis))])
  {
    var b := map["company" := company, "risk_analysis" := riskAnalysis];
    var contents := [ScoringSystemText, ScoringExampleUserText, answer, ScoringHumanTurn(company, riskAnalysis)];
    FillLiteral(ScoringSystemText, b);
    FillLiteral(ScoringExampleUserText, b);
    FillLiteral(answer, b);
    FillFive(ScoringHumanHead, "company", ScoringHumanMid, "risk_analysis", ScoringHumanTail, b);
    var p := ScoringPromptWith(answer);
    FormatMessagesFilled(p, b, contents);
    var made := seq(|p|, k requires 0 <= k < |p| => Message(p[k].role, p[k].name, contents[k]));
    assert made[0] == Message(System, Nothing, ScoringSystemText);
    assert made[1] == Message(System, Some("example_user"), ScoringExampleUserText);
    assert made[2] == Message(System, Some("example_assistant"), answer);
    assert made[3] == Message(Human, Nothing, ScoringHumanTurn(company, riskAnalysis));
    assert made == [Message(System, Nothing, ScoringSystemText),
                    Message(System, Some("example_user"), ScoringExampleUserText),
                    Message(System, Some("example_assistant"), answer),
                    Message(Human, Nothing, ScoringHumanTurn(company, riskAnalysis))];
  }

  // ---------------------------------------------------------------------------------------
  // The report

  const KeypointsHeader := "Keypoints:\n\n"
  const AnalysisHeader := "Analysis:\n\n"
  const SeverityHeader := "Risk Types Severity:\n\n"

  /** The combined result: the three stage outputs under their headers. A blank line follows
      the key points; nothing separates the analysis from the severity header. */
  function ComposeReport(keypoints: string, riskAnalysis: string, severity: string): (report: string)
    ensures |report| == 12 + |keypoints| + 2 + 11 + |riskAnalysis| + 22 + |severity|
  {
    KeypointsHeader + keypoints + "\n\n" + AnalysisHeader + riskAnalysis + SeverityHeader + severity
  }

  /** Where each part of the report lies, given the lengths of the first two stage outputs. */
  lemma ReportLayout(keypoints: string, riskAnalysis: string, severity: string)
    ensures var r := ComposeReport(keypoints, riskAnalysis, severity);
            var a := 12 + |keypoints| + 2 + 11;
            var s := a + |riskAnalysis| + 22;
            && r[..12] == KeypointsHeader
            && r[12..12 + |keypoints|] == keypoints
            && r[12 + |keypoints|..a] == "\n\n" + AnalysisHeader
            && r[a..a + |riskAnalysis|] == riskAnalysis
            && r[a + |riskAnalysis|..s] == SeverityHeader
            && r[s..] == severity
  {
    var r := ComposeReport(keypoints, riskAnalysis, severity);
    assert r == KeypointsHeader + keypoints + ("\n\n" + AnalysisHeader) + riskAnalysis + SeverityHeader + severity;
  }

  /** The report's sections, read back from the report and the lengths of the first two. */
  function Sections(report: string, keypointsLength: nat, analysisLength: nat): Option<(string, string, string)> {
    var a := 12 + keypointsLength + 2 + 11;
    var s := a + analysisLength + 22;
    if s <= |report| then Some((report[12..12 + keypointsLength], report[a..a + analysisLength], report[s..]))
    else Nothing
  }

  /** Reading the sections back gives the three stage outputs: the report loses nothing. */
  lemma SectionsRoundTrip(keypoints: string, riskAnalysis: string, severity: string)
    ensures Sections(ComposeReport(keypoints, riskAnalysis, severity), |keypoints|, |riskAnalysis|)
            == Some((keypoints, riskAnalysis, severity))
  {
    ReportLayout(keypoints, riskAnalysis, severity);
  }

  // ---------------------------------------------------------------------------------------
  // analysis

  /** What analysis returns or raises: each stage runs only on the previous stage's output, and
      the first stage that raises ends the call with its exception. No argument is checked.
      Formatting the key-point prompt cannot fail, so the result is decided by the chain's
      answer to the two key-point turns. */
  function Analysis(company: Value, news: Value, keypointChain: KeypointChain, planner: Planner,
                    scorer: ScoringAgent): (r: Result<string>)
    ensures r == LaterStages(company, keypointChain(KeypointTurns(news)), planner, scorer)
  {
    KeypointMessagesShape(news);
    match KeypointMessages(news)
    case Err(e) => Err(e)
    case Ok(keypointMessages) => LaterStages(company, keypointChain(keypointMessages), planner, scorer)
  }

  /** The scoring stage's outcome turned into the call's outcome: the composed report, or the
      scorer's exception. */
  function Scored(keypoints: string, riskAnalysis: string, severity: Result<string>): Result<string> {
    match severity
    case Err(e) => Err(e)
    case Ok(s) => Ok(ComposeReport(keypoints, riskAnalysis, s))
  }

  /** The stages after the key points, fed by the key-point stage's outcome. */
  function LaterStages(company: Value, keypoints: Result<string>, planner: Planner, scorer: ScoringAgent): Result<string> {
    StagesWith(ScoringPrompt, company, keypoints, planner, scorer)
  }

  /** The later stages with a given scoring prompt: a failing stage ends the call with its
      exception before the next one runs, and a report is the three outputs composed. */
  function StagesWith(prompt: seq<MessageTemplate>, company: Value, keypoints: Result<string>, planner: Planner,
                      scorer: ScoringAgent): (r: Result<string>)
    ensures keypoints.Err? ==> r == Err(keypoints.error)
    ensures keypoints.Ok? && planner(RiskIdentificationPrompt(company, keypoints.value)).Err? ==>
              r == Err(planner(RiskIdentificationPrompt(company, keypoints.value)).error)
    ensures r.Ok? ==> exists a, s :: r.value == ComposeReport(keypoints.value, a, s)
  {
    match keypoints
    case Err(e) => Err(e)
    case Ok(k) =>
      match planner(RiskIdentificationPrompt(company, k))
      case Err(e) => Err(e)
      case Ok(riskAnalysis) =>
        match FormatMessages(prompt, map["company" := StrOf(company), "risk_analysis" := riskAnalysis])
        case Err(e) => Err(e)
        case Ok(scoringMessages) => Scored(k, riskAnalysis, scorer(scoringMessages))
  }

  /** Once the key points and the analysis are in, the scorer is asked with the four scoring
      turns, and its answer or exception decides the call. */
  lemma LaterStagesScored(company: Value, k: string, planner: Planner, scorer: ScoringAgent)
    requires planner(RiskIdentificationPrompt(company, k)).Ok?
    ensures var a := planner(RiskIdentificationPrompt(company, k)).value;
            LaterStages(company, Ok(k), planner, scorer) == Scored(k, a, scorer(ScoringTurns(company, a)))
  {
    ScoringMessagesShape(company, planner(RiskIdentificationPrompt(company, k)).value);
  }

  /** The planner sees the article only through the key points, and the scorer only through the
      risk analysis: two articles with the same key points give the same report. */
  lemma NewsReachesLaterStagesOnlyThroughKeypoints(company: Value, news1: Value, news2: Value,
                                                   chain: KeypointChain, planner: Planner, scorer: ScoringAgent)
    requires chain(KeypointTurns(news1)) == chain(KeypointTurns(news2))
    ensures Analysis(company, news1, chain, planner, scorer) == Analysis(company, news2, chain, planner, scorer)
  {
    KeypointMessagesShape(news1);
    KeypointMessagesShape(news2);
  }

  /** A failing key-point stage ends the call before the planner and the scorer run: the result
      does not depend on them. */
  lemma FirstStageFailureStops(company: Value, news: Value, chain: KeypointChain,
                               p1: Planner, s1: ScoringAgent, p2: Planner, s2: ScoringAgent)
    requires chain(KeypointTurns(news)).Err?
    ensures Analysis(company, news, chain, p1, s1) == Analysis(company, news, chain, p2, s2)
    ensures Analysis(company, news, chain, p1, s1) == Err(chain(KeypointTurns(news)).error)
  {
    KeypointMessagesShape(news);
  }

  /** With every stage succeeding, the report is the three outputs in order, each fed by the
      one before. */
  lemma AnalysisComposes(company: Value, news: Value, chain: KeypointChain, planner: Planner,
                         scorer: ScoringAgent, k: string, a: string, s: string)
    requires chain(KeypointTurns(news)) == Ok(k)
    requires planner(RiskIdentificationPrompt(company, k)) == Ok(a)
    requires scorer(ScoringTurns(company, a)) == Ok(s)
    ensures Analysis(company, news, chain, planner, scorer) == Ok(ComposeReport(k, a, s))
  {
    KeypointMessagesShape(news);
    ScoringMessagesShape(company, a);
  }
}
