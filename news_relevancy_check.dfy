/** RelevancyChecker.check_relevancy: validate the company and the article text, rebuild the
    four-turn few-shot prompt (kept in the checker's fields), run the tool-using agent on it and
    read the verdict as the first `Relevancy: (True|False)` in the agent's answer. The agent is
    external: a function from the formatted messages to its final answer, or to an exception. */
module NewsRelevancyCheck {
  import opened PyValues
  import opened ChatPrompts

  /** The tool-using chat agent built in __init__ (search, thought processing, Wikipedia). */
  type Agent = seq<Message> -> Result<string>

  // ---------------------------------------------------------------------------------------
  // The prompt check_relevancy builds

  const SystemText :=
    "You are a risk analyst and your task is to evaluate the relevance of \n" +
    "            a news article to your company. You will be provided with the company name and the corresponding news article. \n" +
    "            Your final answer should include two sections: a. Relevancy: True (directly or indirectly relevant to the company) \n" +
    "            or False. b. Explanation: Provide the reasoning behind your answer."

  const FewShotCompany := "Gucci"

  const FewShotArticle :=
    "In a recent sighting that has sent fans into a frenzy, the beloved British singer and \n" +
    "            style icon, Harry Styles, was seen sporting a stunning Gucci tee while expressing his infatuation with the \n" +
    "            polka dotted franchise. The sighting took place in Los Angeles, where Styles is currently working on his \n" +
    "            highly anticipated second album."

  const FewShotAnswer :=
    MarkerTrue + ". Explanation: The news article is relevant to the company Gucci because \n" +
    "            it mentions a signature Gucci tee worn by Harry Styles and Gucci is currently active in the news with a \n" +
    "            partnership in the metaverse-oriented space."

  /** The human template as written, with its two placeholders. */
  const HumanTemplateText := "Please rate the relevancy of news: {news} for the company: {company}."

  const SystemPrompt := MessageTemplate(System, Nothing, [Lit(SystemText)])

  const HumanHead := "Please rate the relevancy of news: "
  const FewShotMid := " for the\n            company: "
  const HumanMid := " for the company: "

  const FewShotHumanPrompt := MessageTemplate(System, Some("example_user"),
    [Lit(HumanHead), Slot("few_shot_article"), Lit(FewShotMid), Slot("few_shot_company"), Lit(".")])

  const FewShotAiPrompt := MessageTemplate(System, Some("example_assistant"), [Slot("few_shot_answer")])

  const HumanPrompt := MessageTemplate(Human, Nothing,
    [Lit(HumanHead), Slot("news"), Lit(HumanMid), Slot("company"), Lit(".")])

  /** system, example user, example assistant, human */
  const CheckPrompt := [SystemPrompt, FewShotHumanPrompt, FewShotAiPrompt, HumanPrompt]

  /** The keyword arguments passed to format_messages. */
  function CheckBindings(company: string, news: string): map<string, string> {
    map["company" := company, "news" := news, "few_shot_article" := FewShotArticle,
        "few_shot_company" := FewShotCompany, "few_shot_answer" := FewShotAnswer]
  }

  /** The human turn as the agent sees it. */
  function HumanTurn(company: string, news: string): string {
    HumanHead + news + HumanMid + company + "."
  }

  /** The four turns the agent receives: system, example user, example assistant, and a human
      turn that carries the article and the company. */
  function CheckTurns(company: string, news: string): seq<Message> {
    [Message(System, Nothing, SystemText),
     Message(System, Some("example_user"), HumanHead + FewShotArticle + FewShotMid + FewShotCompany + "."),
     Message(System, Some("example_assistant"), FewShotAnswer),
     Message(Human, Nothing, HumanTurn(company, news))]
  }

  /** Formatting the prompt never fails and gives exactly those four turns. */
  lemma CheckMessagesShape(company: string, news: string)
    ensures FormatMessages(CheckPrompt, CheckBindings(company, news)) == Ok(CheckTurns(company, news))
  {
    var b := CheckBindings(company, news);
    var contents := [SystemText, HumanHead + FewShotArticle + FewShotMid + FewShotCompany + ".", FewShotAnswer,
                     HumanTurn(company, news)];
    FillLiteral(SystemText, b);
    FillFive(HumanHead, "few_shot_article", FewShotMid, "few_shot_company", ".", b);
    assert FewShotAiPrompt.template[1..] == [];
    assert FewShotAnswer + "" == FewShotAnswer;
    FillFive(HumanHead, "news", HumanMid, "company", ".", b);
    FormatMessagesFilled(CheckPrompt, b, contents);
    var p := CheckPrompt;
    var made := seq(|p|, k requires 0 <= k < |p| => Message(p[k].role, p[k].name, contents[k]));
    assert made[0] == CheckTurns(company, news)[0];
    assert made[1] == CheckTurns(company, news)[1];
    assert made[2] == CheckTurns(company, news)[2];
    assert made[3] == CheckTurns(company, news)[3];
    assert made == CheckTurns(company, news);
  }

  // ---------------------------------------------------------------------------------------
  // Reading the verdict: re.search(r"Relevancy: (True|False)", answer).group(1)

  const MarkerTrue := "Relevancy: True"
  const MarkerFalse := "Relevancy: False"

  /** The group the pattern captures when it matches at position `i` (True is tried first;
      both cannot match at one position). */
  function MarkerAt(text: string, i: nat): Option<string>
    requires i <= |text|
  {
    if MarkerTrue <= text[i..] then Some("True")
    else if MarkerFalse <= text[i..] then Some("False")
    else Nothing
  }

  /** re.search's scan from position `i`: the leftmost match at or after `i`. */
  function SearchFrom(text: string, i: nat): (r: Option<(nat, string)>)
    requires i <= |text|
    ensures r.Some? ==> i <= r.value.0 <= |text| && MarkerAt(text, r.value.0) == Some(r.value.1)
    ensures r.Some? ==> forall j :: i <= j < r.value.0 ==> MarkerAt(text, j) == Nothing
    ensures r.Nothing? ==> forall j :: i <= j <= |text| ==> MarkerAt(text, j) == Nothing
    decreases |text| - i
  {
    match MarkerAt(text, i)
    case Some(v) => Some((i, v))
    case Nothing => if i == |text| then Nothing else SearchFrom(text, i + 1)
  }

  /** The verdict string, or AttributeError ('NoneType' has no 'group') when no marker is
      present, which the `except ValueError` in check_relevancy does not catch. */
  function ParseRelevancy(text: string): (r: Result<string>)
    ensures r.Ok? ==> r.value == "True" || r.value == "False"
    ensures r.Ok? ==> exists i :: 0 <= i <= |text| && MarkerAt(text, i) == Some(r.value) &&
                                  forall j :: 0 <= j < i ==> MarkerAt(text, j) == Nothing
    ensures r.Err? ==> r.error == AttributeError && forall j :: 0 <= j <= |text| ==> MarkerAt(text, j) == Nothing
  {
    match SearchFrom(text, 0)
    case Some((i, v)) => Ok(v)
    case Nothing => Err(AttributeError)
  }

  /** Text after the captured word is ignored: "Trueish" reads as True. */
  lemma ParseIgnoresTrailingText()
    ensures ParseRelevancy("Relevancy: Trueish") == Ok("True")
  {
    var t := "Relevancy: Trueish";
    assert t[..15] == MarkerTrue;
    assert MarkerAt(t, 0) == Some("True");
  }

  /** The first marker wins. */
  lemma ParseTakesFirstMarker()
    ensures ParseRelevancy("Relevancy: False. Relevancy: True") == Ok("False")
  {
    var both := "Relevancy: False. Relevancy: True";
    assert both[11] != MarkerTrue[11];
    assert both[..16] == MarkerFalse;
    assert MarkerAt(both, 0) == Some("False");
  }

  /** Matching is case-sensitive. */
  lemma ParseIsCaseSensitive()
    ensures ParseRelevancy("relevancy: True") == Err(AttributeError)
  {
    var lower := "relevancy: True";
    forall j | 0 <= j <= |lower| ensures MarkerAt(lower, j) == Nothing {
      if j == 0 {
        assert lower[0] != MarkerTrue[0];
      }
    }
  }

  /** The space after the colon is required. */
  lemma ParseNeedsTheSpace()
    ensures ParseRelevancy("Relevancy:True") == Err(AttributeError)
  {
    var tight := "Relevancy:True";
    forall j | 0 <= j <= |tight| ensures MarkerAt(tight, j) == Nothing {
      assert |tight[j..]| < |MarkerTrue|;
    }
  }

  /** The few-shot answer itself reads as a positive verdict. */
  lemma FewShotAnswerIsRelevant()
    ensures ParseRelevancy(FewShotAnswer) == Ok("True")
  {
    assert FewShotAnswer[0..] == FewShotAnswer;
    assert MarkerAt(FewShotAnswer, 0) == Some("True");
  }

  // ---------------------------------------------------------------------------------------
  // check_relevancy

  /** `isinstance(x, str) and x` */
  predicate NonEmptyStr(v: Value) {
    v.Str? && v.s != ""
  }

  /** What check_relevancy returns or raises for these arguments and this agent. */
  function RelevancyVerdict(company: Value, news: Value, agent: Agent): (r: Result<string>)
    ensures !NonEmptyStr(company) || !NonEmptyStr(news) ==> r == Err(ValueError)
    ensures r.Ok? ==> r.value == "True" || r.value == "False"
  {
    if !NonEmptyStr(company) then Err(ValueError)
    else if !NonEmptyStr(news) then Err(ValueError)
    else
      match FormatMessages(CheckPrompt, CheckBindings(company.s, news.s))
      case Err(e) => Err(e)
      case Ok(messages) =>
        match agent(messages)
        // a ValueError is logged and re-raised as ValueError; anything else escapes as it is
        case Err(e) => Err(e)
        case Ok(answer) => ParseRelevancy(answer)
  }

  /** Bad arguments are rejected before the agent runs: the outcome does not depend on it. */
  lemma ValidationPrecedesAgent(company: Value, news: Value, agent1: Agent, agent2: Agent)
    requires !NonEmptyStr(company) || !NonEmptyStr(news)
    ensures RelevancyVerdict(company, news, agent1) == RelevancyVerdict(company, news, agent2) == Err(ValueError)
  {
  }

  /** With valid arguments, the verdict is the parse of the agent's answer to the four-turn
      prompt; an answer without the marker fails with AttributeError, not ValueError. */
  lemma VerdictFromAnswer(company: string, news: string, agent: Agent)
    requires company != "" && news != ""
    ensures var msgs := FormatMessages(CheckPrompt, CheckBindings(company, news));
            && msgs.Ok?
            && (agent(msgs.value).Ok? ==> RelevancyVerdict(Str(company), Str(news), agent) == ParseRelevancy(agent(msgs.value).value))
            && (agent(msgs.value).Err? ==> RelevancyVerdict(Str(company), Str(news), agent) == Err(agent(msgs.value).error))
  {
    CheckMessagesShape(company, news);
  }

  /** The checker object. Its prompt fields start as placeholders and check_relevancy rebuilds
      them on every call that gets past the argument checks. */
  class RelevancyChecker {
    const agent: Agent
    var systemTemplate: string
    /** absent until check_relevancy first runs */
    var template: Option<string>
    var systemMessagePrompt: MessageTemplate
    var fewShotHuman: MessageTemplate
    var fewShotAi: MessageTemplate
    var humanTemplate: string
    var humanMessagePrompt: MessageTemplate
    var chatPrompt: seq<MessageTemplate>

    /** The prompt fields check_relevancy leaves behind. */
    ghost predicate PromptRebuilt()
      reads this
    {
      && template == Some(SystemText)
      && systemMessagePrompt == SystemPrompt
      && fewShotHuman == FewShotHumanPrompt
      && fewShotAi == FewShotAiPrompt
      && humanTemplate == HumanTemplateText
      && humanMessagePrompt == HumanPrompt
      && chatPrompt == CheckPrompt
    }

    constructor (agent: Agent)
      ensures this.agent == agent
      ensures systemTemplate == "system message template" && template == Nothing
      ensures systemMessagePrompt == MessageTemplate(System, Nothing, [Lit("system message template")])
      ensures fewShotHuman == MessageTemplate(System, Some("example_user"), [Lit("human message example template")])
      ensures fewShotAi == MessageTemplate(System, Some("example_assistant"), [Lit("ai message example template")])
      ensures humanTemplate == "human message template"
      ensures humanMessagePrompt == MessageTemplate(Human, Nothing, [Lit("human message template")])
      ensures chatPrompt == [systemMessagePrompt, fewShotHuman, fewShotAi, humanMessagePrompt]
    {
      this.agent := agent;
      systemTemplate := "system message template";
      template := Nothing;
      systemMessagePrompt := MessageTemplate(System, Nothing, [Lit("system message template")]);
      fewShotHuman := MessageTemplate(System, Some("example_user"), [Lit("human message example template")]);
      fewShotAi := MessageTemplate(System, Some("example_assistant"), [Lit("ai message example template")]);
      humanTemplate := "human message template";
      humanMessagePrompt := MessageTemplate(Human, Nothing, [Lit("human message template")]);
      chatPrompt := [systemMessagePrompt, fewShotHuman, fewShotAi, humanMessagePrompt];
    }

    method CheckRelevancy(company: Value, news: Value) returns (r: Result<string>)
      modifies this
      ensures r == RelevancyVerdict(company, news, agent)
      ensures !NonEmptyStr(company) || !NonEmptyStr(news) ==> unchanged(this)
      ensures NonEmptyStr(company) && NonEmptyStr(news) ==> PromptRebuilt() && systemTemplate == old(systemTemplate)
    {
      if !NonEmptyStr(company) || !NonEmptyStr(news) {
        return Err(ValueError);
      }
      template := Some(SystemText);
      systemMessagePrompt := SystemPrompt;
      fewShotHuman := FewShotHumanPrompt;
      fewShotAi := FewShotAiPrompt;
      humanTemplate := HumanTemplateText;
      humanMessagePrompt := HumanPrompt;
      chatPrompt := [systemMessagePrompt, fewShotHuman, fewShotAi, humanMessagePrompt];
      var messages := FormatMessages(chatPrompt, CheckBindings(company.s, news.s));
      if messages.Err? {
        return Err(messages.error);
      }
      var answer := agent(messages.value);
      if answer.Err? {
        return Err(answer.error);
      }
      r := ParseRelevancy(answer.value);
    }
  }
}
