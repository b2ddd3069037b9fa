/** NewsChecklist.checklist: the article's "body" entry goes to the relevancy checker,
    together with the company, and the checker's verdict is the checklist's answer. */
module NewsChecklist {
  import opened PyValues
  import opened NewsRelevancyCheck

  /** What checklist returns or raises: news["body"] raises KeyError when the entry is
      missing; otherwise the article is judged on its body alone. */
  function ChecklistVerdict(article: Dict, company: Value, agent: Agent): (r: Result<string>)
    ensures "body" !in article ==> r == Err(KeyError)
    ensures "body" in article ==> r == RelevancyVerdict(company, article["body"], agent)
  {
    if "body" !in article then Err(KeyError)
    else RelevancyVerdict(company, article["body"], agent)
  }

  /** Two articles with the same body get the same verdict: the title, the source and every
      other entry are ignored. */
  lemma OnlyBodyMatters(a1: Dict, a2: Dict, company: Value, agent: Agent)
    requires "body" in a1 && "body" in a2 && a1["body"] == a2["body"]
    ensures ChecklistVerdict(a1, company, agent) == ChecklistVerdict(a2, company, agent)
  {
  }

  /** An article whose body is empty or not a string is rejected with ValueError before the
      agent is consulted. */
  lemma EmptyBodyValueError(article: Dict, company: Value, agent: Agent)
    requires "body" in article && !NonEmptyStr(article["body"])
    ensures ChecklistVerdict(article, company, agent) == Err(ValueError)
  {
  }

  /** A successful checklist answer is always one of the two verdict strings, never a bool,
      despite the `-> bool` annotation. */
  lemma ChecklistAnswerIsString(article: Dict, company: Value, agent: Agent)
    ensures ChecklistVerdict(article, company, agent).Ok? ==>
            ChecklistVerdict(article, company, agent).value in {"True", "False"}
  {
  }

  /** The checklist object owns one relevancy checker. */
  class NewsChecklist {
    const checker: RelevancyChecker

    constructor (agent: Agent)
      ensures fresh(checker) && checker.agent == agent && checker.template == Nothing
    {
      checker := new RelevancyChecker(agent);
    }

    method Checklist(news: Dict, company: Value) returns (r: Result<string>)
      modifies checker
      ensures r == ChecklistVerdict(news, company, checker.agent)
      ensures "body" in news && NonEmptyStr(company) && NonEmptyStr(news["body"]) ==>
                checker.PromptRebuilt() && checker.systemTemplate == old(checker.systemTemplate)
      ensures !("body" in news && NonEmptyStr(company) && NonEmptyStr(news["body"])) ==> unchanged(checker)
    {
      if "body" !in news {
        return Err(KeyError);
      }
      r := checker.CheckRelevancy(company, news["body"]);
    }
  }
}
