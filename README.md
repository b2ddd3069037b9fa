# Risk-intelligence pipeline glue, modelled in Dafny

The pipeline takes a company name, fetches news about it, is meant to keep the articles a
language-model agent judges relevant (as written it keeps none; see Findings), optionally indexes "risk type" documents in a vector store, and runs a
three-stage analysis (key points, risk identification, risk scoring) that ends in a text
report. The language models, agents, the news service, the tokenizer, the text splitter, the
embedder, the vector store and sqlite are all external. This project models the deterministic
code around them:

- `Indexer.do_indexation` (`document_indexation.dfy`): the ordered argument checks, the
  index-name pattern `^[a-z0-9][a-z0-9-]*[a-z0-9]$` with Python's `$`, the fixed chunking
  constants, and the create-or-append step against a vector store kept as a class with a map
  of indexes and a log of the calls made to it.
- `TextSummarizer.num_tokens` / `summarize_text` (`text_summarization.dfy`): the token-budget
  gate, the identity branch and the chunk size and overlap derived from the budget.
- `RelevancyChecker.check_relevancy` (`news_relevancy_check.dfy`): argument checks, the
  four-turn few-shot prompt kept in the checker's fields, and the `Relevancy: (True|False)`
  search on the agent's answer, modelled as a leftmost-match scan.
- `NewsChecklist.checklist` (`news_checklist.dfy`): delegation on the article's `body`.
- `NewsExtractor.get_news` (`news_extraction.dfy`): argument checks, the quoted OR-query of
  the first five keywords and the `news` list that a loop appends to and that persists across
  calls.
- `RiskAnalysis.analysis` (`risk_analysis.dfy`): the prompts of the three stages, their strict
  sequencing and the report concatenation.
- `get_risk_scoring_system` (`risk_scoring.dfy`): the likelihood × impact rubric as data
  (scales, worked example, band table), the score and band functions, and the tool's text
  rendered from that data.
- `risk_scoring_template` (`risk_template.dfy`): the example report's tables as records,
  checked against the rubric.
- `process_thoughts` (`process_thought.dfy`): the identity tool.
- `DatabaseConnector` (`database_connector.dfy`): the connection and cursor fields that
  `open` sets and `close` clears, the requests made of sqlite, and the CREATE TABLE statement.
- The relevancy filter of the Streamlit front end (`app_filter.dfy`), for the finding below.

Shared pieces: `py_values.dfy` models Python values as far as the code's `isinstance` checks
tell them apart (a `bool` is an `int`, a `str` is a `Sequence`), the exceptions, `str()`,
`str.strip()` blanks and `str.join`; `chat_prompts.dfy` models LangChain message templates and
`format_messages` (a missing placeholder raises `KeyError`).

Facts about the code that the model keeps as they are: `check_relevancy` returns the
strings `"True"` / `"False"`; a failing scoring stage fails the whole analysis; no external
call is retried; and `analysis` checks none of its arguments although its docstring promises
`ValueError`/`TypeError`.

## Model

| member | source | states |
|---|---|---|
| DocumentIndexation.NamePatternIff | src/logic/helper_functionality/document_indexation.py:53-56 | a name matches the pattern iff it is a well-formed name (length ≥ 2, characters in a-z, 0-9, '-', alphanumeric first and last) or such a name followed by one newline |
| DocumentIndexation.NamePatternExamples | src/logic/helper_functionality/document_indexation.py:53-56 | "index-risk", "index" and "ab\n" are accepted; "Bad_Name!", "a", "", "-ab", "ab-" and "ab\n\n" are rejected |
| DocumentIndexation.DocumentTexts | src/logic/helper_functionality/document_indexation.py:64-70 | the texts handed to the splitter are the documents' page contents, one per document, in order |
| DocumentIndexation.ValidateIndexation | src/logic/helper_functionality/document_indexation.py:47-60 | validation passes iff documents, namespace, index name (and its pattern), metric and pod type are all acceptable; every failure is ValueError or TypeError |
| DocumentIndexation.ValidationErrorKinds | src/logic/helper_functionality/document_indexation.py:47-60 | exactly which argument problems raise ValueError and which raise TypeError, the first failing check deciding |
| DocumentIndexation.DefaultNamespaceRaises | src/logic/helper_functionality/document_indexation.py:30-50 | with the default namespace None the call always raises, TypeError once the documents pass |
| DocumentIndexation.EmptyDocumentListAccepted | src/logic/helper_functionality/document_indexation.py:47-48 | an empty document list passes validation |
| DocumentIndexation.ChunkParametersFixed | src/logic/helper_functionality/document_indexation.py:62-63 | chunk size 1000, overlap 200, overlap below size |
| DocumentIndexation.WithChunks | src/logic/helper_functionality/document_indexation.py:78-81 | upserting chunks under a namespace appends them to that namespace and leaves every other namespace unchanged |
| DocumentIndexation.VectorStore.ListIndexNames | src/logic/helper_functionality/document_indexation.py:71 | returns the set of index names and only logs the call |
| DocumentIndexation.VectorStore.Create | src/logic/helper_functionality/document_indexation.py:72-77 | adds exactly one empty index with the given dimension, metric and pod type |
| DocumentIndexation.VectorStore.FromDocuments | src/logic/helper_functionality/document_indexation.py:78 | writes the chunks into the named index under the namespace |
| DocumentIndexation.VectorStore.Add | src/logic/helper_functionality/document_indexation.py:80-81 | appends the chunks to the existing index under the namespace |
| DocumentIndexation.DoIndexation | src/logic/helper_functionality/document_indexation.py:47-84 | a rejected argument raises before any store call and leaves the store unchanged; an absent name gets one index sized by the first embedding and the chunks written (IndexError when there are no chunks); a present name keeps the set of names and gets the chunks appended; on success the name is in the store |
| TextSummarization.SummarizeText | src/logic/helper_functionality/text_summarization.py:55-87 | bad text or budget raises ValueError; a success is the text itself or the chain's result on chunks of budget // 2 with overlap budget // 10; any exception other than ValueError is the chain's own |
| TextSummarization.NumTokens | src/logic/helper_functionality/text_summarization.py:43-53 | succeeds iff text and model are non-blank strings and the tokenizer accepts them, with the token count; every failure is ValueError |
| TextSummarization.ChunkParametersConsistent | src/logic/helper_functionality/text_summarization.py:77-78 | for a budget ≥ 1, 0 ≤ overlap ≤ size, and overlap < size once the budget is ≥ 2 |
| TextSummarization.WithinBudgetIsIdentity | src/logic/helper_functionality/text_summarization.py:75-87 | a text within budget is returned exactly, whatever the splitter and chain do |
| TextSummarization.OverBudgetRunsChain | src/logic/helper_functionality/text_summarization.py:75-83 | the chain's result on the split text is returned exactly when the count is strictly over budget |
| TextSummarization.BudgetMonotone | src/logic/helper_functionality/text_summarization.py:75 | a text returned unchanged for one budget is returned unchanged for every larger budget |
| TextSummarization.SummarizeArgumentErrors | src/logic/helper_functionality/text_summarization.py:70-86 | non-str or empty text, non-int or non-positive budget, and blank text all raise ValueError |
| TextSummarization.BoolBudgetIsOne | src/logic/helper_functionality/text_summarization.py:72 | a budget of True behaves as a budget of 1 |
| ChatPrompts.FormatMessages | src/logic/helper_functionality/news_check/news_relevancy_check.py:102-106 | formatting succeeds iff every placeholder is bound; one message per template, in order, with its role, name and filled text |
| NewsRelevancyCheck.CheckMessagesShape | src/logic/helper_functionality/news_check/news_relevancy_check.py:84-106 | the prompt formats into exactly four turns: system text, example user (few-shot article and company), example assistant (few-shot answer), and a human turn carrying the article and the company |
| NewsRelevancyCheck.SearchFrom | src/logic/helper_functionality/news_check/news_relevancy_check.py:108 | finds the leftmost position at or after the start where the marker matches, with its capture, or reports that no position matches |
| NewsRelevancyCheck.ParseRelevancy | src/logic/helper_functionality/news_check/news_relevancy_check.py:108-111 | the result is "True" or "False", the capture at the first matching position; with no marker anywhere the failure is AttributeError |
| NewsRelevancyCheck.ParseIgnoresTrailingText | src/logic/helper_functionality/news_check/news_relevancy_check.py:108 | "Relevancy: Trueish" reads as "True" |
| NewsRelevancyCheck.ParseTakesFirstMarker | src/logic/helper_functionality/news_check/news_relevancy_check.py:108 | with two markers the first one decides |
| NewsRelevancyCheck.ParseIsCaseSensitive | src/logic/helper_functionality/news_check/news_relevancy_check.py:108 | "relevancy: True" has no marker |
| NewsRelevancyCheck.ParseNeedsTheSpace | src/logic/helper_functionality/news_check/news_relevancy_check.py:108 | "Relevancy:True" has no marker |
| NewsRelevancyCheck.FewShotAnswerIsRelevant | src/logic/helper_functionality/news_check/news_relevancy_check.py:93-108 | the few-shot answer parses as "True" |
| NewsRelevancyCheck.RelevancyVerdict | src/logic/helper_functionality/news_check/news_relevancy_check.py:79-112 | an empty or non-str company or article raises ValueError; a result is always the string "True" or "False" |
| NewsRelevancyCheck.ValidationPrecedesAgent | src/logic/helper_functionality/news_check/news_relevancy_check.py:79-82 | bad arguments give ValueError whatever the agent would answer |
| NewsRelevancyCheck.VerdictFromAnswer | src/logic/helper_functionality/news_check/news_relevancy_check.py:102-111 | with valid arguments the verdict is the parse of the agent's answer to the four turns, or the agent's own exception |
| NewsRelevancyCheck.RelevancyChecker.constructor | src/logic/helper_functionality/news_check/news_relevancy_check.py:22-36 | the prompt fields start as the placeholder templates and the chat prompt holds them in order |
| NewsRelevancyCheck.RelevancyChecker.CheckRelevancy | src/logic/helper_functionality/news_check/news_relevancy_check.py:69-112 | returns the verdict function's result; bad arguments leave the object unchanged; otherwise the prompt fields are rebuilt |
| NewsChecklist.ChecklistVerdict | src/logic/helper_functionality/news_check/news_checklist.py:22-23 | a missing "body" raises KeyError; otherwise the result is the relevancy verdict on the body, untransformed |
| NewsChecklist.OnlyBodyMatters | src/logic/helper_functionality/news_check/news_checklist.py:22 | articles with the same body get the same verdict |
| NewsChecklist.EmptyBodyValueError | src/logic/helper_functionality/news_check/news_checklist.py:22 | an empty or non-str body gives ValueError |
| NewsChecklist.ChecklistAnswerIsString | src/logic/helper_functionality/news_check/news_checklist.py:14-23 | a successful answer is "True" or "False", not a bool |
| NewsChecklist.NewsChecklist.constructor | src/logic/helper_functionality/news_check/news_checklist.py:11-12 | the checklist owns a fresh relevancy checker |
| NewsChecklist.NewsChecklist.Checklist | src/logic/helper_functionality/news_check/news_checklist.py:14-23 | returns the checklist verdict; with a body and valid arguments the checker's prompt fields are rebuilt and its system template kept; in every other case the checker is untouched |
| NewsExtraction.Quote | src/data/sources/news_extraction.py:41 | a quoted keyword is str(keyword) between two double quotes |
| NewsExtraction.QueryKeywords | src/data/sources/news_extraction.py:41 | min(5, n) terms, the i-th being the i-th keyword quoted |
| NewsExtraction.QueryKeywordsUnquote | src/data/sources/news_extraction.py:41 | stripping the quotes gives back str() of each keyword used |
| NewsExtraction.LaterKeywordsIgnored | src/data/sources/news_extraction.py:41 | keywords after the fifth do not change the query |
| NewsExtraction.Fetched | src/data/sources/news_extraction.py:43-49 | at most max_articles articles, a prefix of the stream, all of it when shorter |
| NewsExtraction.NewsExtractor.constructor | src/data/sources/news_extraction.py:15-22 | a new extractor has an empty news list |
| NewsExtraction.NewsExtractor.GetNews | src/data/sources/news_extraction.py:24-53 | bad arguments raise ValueError and change nothing; otherwise the fetched articles are appended to news (kept even when the query then fails with ValueError) and the whole accumulated list is returned |
| RiskAnalysis.KeypointMessagesShape | src/logic/risk_analysis.py:130-143 | the key-point prompt formats into the fixed system turn and a human turn carrying str(news) |
| RiskAnalysis.RiskPromptEmbeds | src/logic/risk_analysis.py:159-161 | the planner's prompt holds the company and the key points verbatim, between the template's fixed parts |
| RiskAnalysis.ScoringMessagesShape | src/logic/risk_analysis.py:164-198 | the scoring prompt formats into four turns: system, example user, the example answer exactly as written (12 labelled High), and a human turn carrying str(company) and the risk analysis |
| RiskAnalysis.ScoringFormat | src/logic/risk_analysis.py:180-185 | the same for any example answer text |
| RiskAnalysis.ExampleAsWrittenContradictsRubric | src/logic/risk_analysis.py:172-179 | the example answer's scores are the products of its ratings, but it puts 12 in the High band where the rubric says Medium |
| RiskAnalysis.ExampleCorrectedAgreesWithRubric | src/logic/risk_analysis.py:172-179 | the corrected example's every claim agrees with the rubric |
| RiskAnalysis.CorrectedPromptChangesOnlyExample | src/logic/risk_analysis.py:172-185 | the prompt with the corrected example formats into the same turns as the prompt the program sends, except the example answer |
| RiskAnalysis.ComposeReport | src/logic/risk_analysis.py:201 | the report's length is the headers' plus the three outputs' |
| RiskAnalysis.ReportLayout | src/logic/risk_analysis.py:201 | the report is "Keypoints:\n\n", key points, "\n\nAnalysis:\n\n", analysis, then directly "Risk Types Severity:\n\n" and the severity, each at its offset |
| RiskAnalysis.SectionsRoundTrip | src/logic/risk_analysis.py:201-202 | the three stage outputs can be read back from the report |
| RiskAnalysis.Analysis | src/logic/risk_analysis.py:120-202 | formatting the key-point prompt cannot fail, so the result is the later stages run on the chain's answer to the two key-point turns |
| RiskAnalysis.StagesWith | src/logic/risk_analysis.py:159-202 | a failed key-point stage or a failed planner ends the call with that exception, and a success is a report composed from the key points |
| RiskAnalysis.LaterStagesScored | src/logic/risk_analysis.py:164-202 | once key points and analysis are in, the scorer is asked with the four scoring turns, and its answer is composed into the report or its exception raised |
| RiskAnalysis.NewsReachesLaterStagesOnlyThroughKeypoints | src/logic/risk_analysis.py:143-161 | two articles with the same key points give the same result |
| RiskAnalysis.FirstStageFailureStops | src/logic/risk_analysis.py:143 | a failing key-point stage ends the call with its error, whatever the later stages would do |
| RiskAnalysis.AnalysisComposes | src/logic/risk_analysis.py:143-202 | when the stages succeed in turn, each fed by the previous and the scorer by the turns the program sends, the result is the composed report |
| RiskScoring.ScalesCoverRatings | src/logic/langchain_tools/tool_get_risk_scoring_system.py:15-26 | each scale has one step per rating, so rating r is step r - 1; 4 is "Likely" and "Major" |
| RiskScoring.Score | src/logic/langchain_tools/tool_get_risk_scoring_system.py:27-28 | the score lies in 1..25 and is at least each rating |
| RiskScoring.ScoreSymmetric | src/logic/langchain_tools/tool_get_risk_scoring_system.py:28 | the score is symmetric in its two ratings |
| RiskScoring.ScoreMonotone | src/logic/langchain_tools/tool_get_risk_scoring_system.py:28 | raising a rating never lowers the score |
| RiskScoring.FindBand | src/logic/langchain_tools/tool_get_risk_scoring_system.py:29-33 | the band of the first table row whose range holds the score, or none iff no row does |
| RiskScoring.BandOfIff | src/logic/langchain_tools/tool_get_risk_scoring_system.py:31-33 | Low iff 1..5, Medium iff 6..15, High iff ≥ 16, none iff below 1 |
| RiskScoring.EveryScoreHasOneBand | src/logic/langchain_tools/tool_get_risk_scoring_system.py:27-33 | every score of two ratings has a band and lies in no two rows |
| RiskScoring.BandMonotone | src/logic/langchain_tools/tool_get_risk_scoring_system.py:31-33 | a higher score never gets a lower band |
| RiskScoring.WorkedExampleIsMedium | src/logic/langchain_tools/tool_get_risk_scoring_system.py:28-32 | the worked example 3 x 4 = 12 is Medium |
| RiskScoring.ScaleLines | src/logic/langchain_tools/tool_get_risk_scoring_system.py:15-26 | one line per step: indentation, rating number, name and description |
| RiskScoring.BandLines | src/logic/langchain_tools/tool_get_risk_scoring_system.py:31-33 | one line per band row, rendered from the same table the band function uses |
| RiskScoring.RubricLines | src/logic/langchain_tools/tool_get_risk_scoring_system.py:14-34 | the text's scale, example and band lines are the ones rendered from the rubric's data |
| RiskScoring.GetRiskScoringSystem | src/logic/langchain_tools/tool_get_risk_scoring_system.py:9-34 | the text opens with the rubric's introduction, a newline and the indented "Likelihood Rating:" header |
| RiskScoring.RubricIgnoresQuestion | src/logic/langchain_tools/tool_get_risk_scoring_system.py:9-14 | the same text whatever the question |
| RiskTemplate.TemplateMatchesRubric | src/logic/langchain_tools/tool_create_output.py:12-37 | the three lists name the same five risks in order; every rating lies in 1..5; every score is the product of its ratings and every band the rubric's band for it |
| RiskTemplate.NumberedFromAppend | src/logic/langchain_tools/tool_create_output.py:13-18 | numbering a concatenation of lists: the second list continues where the first stops |
| RiskTemplate.NumberedFromSnoc | src/logic/langchain_tools/tool_create_output.py:13-18 | one more risk at the end of the list gets the next number |
| RiskTemplate.RiskLinesAppend | src/logic/langchain_tools/tool_create_output.py:13-18 | however the risk list is split, the second part is numbered on from the first: the risks are numbered 1, 2, ... in order |
| RiskTemplate.LayoutSections | src/logic/langchain_tools/tool_create_output.py:12-37 | each header and each section (risk list, ratings table, scores table) sits at its offset, and the text ends with the closing indentation |
| RiskTemplate.TemplateOf | src/logic/langchain_tools/tool_create_output.py:12-37 | the template opens with the "Identified Risks:" header followed directly by the numbered risk list, and its length is the headers' and sections' |
| RiskTemplate.RiskScoringTemplate | src/logic/langchain_tools/tool_create_output.py:9-13 | the tool's text starts with a newline and the indented "Identified Risks:" header |
| RiskTemplate.TemplateIgnoresQuestion | src/logic/langchain_tools/tool_create_output.py:9-39 | the same text whatever the question |
| ProcessThought.ProcessThoughts | src/logic/langchain_tools/tool_process_thought.py:9-14 | any string, the empty one included, comes back with the same length and characters |
| ProcessThought.ProcessThoughtsIdempotent | src/logic/langchain_tools/tool_process_thought.py:14 | applying the tool twice is applying it once |
| DatabaseConnector.CloseEffects | db/database_connector.py:19-26 | nothing is asked of sqlite iff nothing is open; an open connection is committed then closed, last; a cursor is closed first |
| DatabaseConnector.CloseTwice | db/database_connector.py:19-26 | closing twice leaves both fields None and asks of sqlite only what the first close asks |
| DatabaseConnector.ColumnListAppend | db/database_connector.py:29 | columns are rendered in order: one more column adds ", name type" |
| DatabaseConnector.ColumnListSingle | db/database_connector.py:29 | one column renders as "name type" |
| DatabaseConnector.CreateTableSql | db/database_connector.py:30 | the statement is "CREATE TABLE t (" + the column list + ")" |
| DatabaseConnector.DatabaseConnector.constructor | db/database_connector.py:10-13 | stores the name; connection and cursor are None |
| DatabaseConnector.DatabaseConnector.Open | db/database_connector.py:15-17 | connection and cursor are set, on db/<dbname> |
| DatabaseConnector.DatabaseConnector.Close | db/database_connector.py:19-26 | both fields are None afterwards, whatever they held; the requests are the close effects of what was open |
| DatabaseConnector.DatabaseConnector.CreateTable | db/database_connector.py:28-30 | with a cursor the statement is executed; without one AttributeError and nothing is sent |
| AppFilter.FilterAsWritten | app.py:98-107 | every article the filter as written keeps had a verdict that compares equal to 0 under Python's == |
| AppFilter.FilterAsWrittenKeepsNothing | app.py:98-107 | with the checker's string verdicts the filter keeps no article |
| AppFilter.RelevantArticleDropped | app.py:101-106 | an article judged "True" is dropped |
| AppFilter.FilterCorrected | app.py:98-107 | every kept article was judged "True" |
| AppFilter.FilterCorrectedKeepsRelevant | app.py:98-107 | every article judged "True" is kept, and as many articles are kept as there are "True" verdicts |

## Left out

- External services are parameters, not models: the agents and chains (their answers and their exceptions), tiktoken, the text splitter's algorithm (only its parameters are modelled), the embedder (only the length of the first vector is used), the Event Registry query (a stream of articles and whether it breaks off), Pinecone (an abstract map of indexes), and sqlite (a log of requests; sqlite's own errors, such as an existing table, are not modelled).
- Logging, the Streamlit interface and its session state are not modelled, apart from the relevancy filter for the finding below.
- Keyword generation and the feedback loop are not part of this model; their modules are not among the modelled files.
- The reliability models, the secrets reader, the risk-type query tools, the original-question tool, the article-reading tool and the database creation script are not part of this model.
- `RiskAnalysis` tool lists (search, Wikipedia, risk-type lookup, scoring rubric) only configure the agents; which tools an agent calls is not modelled. The "max. 3 risks" and "no more than 5 steps" limits are prompt text and are not guarantees.
- NewsExtraction.NewsExtractor.GetNews: the service is assumed to honour `maxItems` and date order; the model truncates the stream to max_articles itself.
- NewsExtraction.NewsExtractor.GetNews: the method returns the accumulated list as a value; in the source it returns `self.news` itself, so a caller's list keeps growing on later calls and changes the caller makes to the article dicts (app.py writes summaries into them) are shared with the extractor. That aliasing is not modelled.
- DocumentIndexation.DoIndexation: listing the indexes and creating one are two separate calls; an index that another writer creates between them is not modelled (`VectorStore.Create` requires the name to be new).
- DocumentIndexation.DoIndexation: errors raised by the splitter, the embedder or Pinecone are not modelled; only the IndexError of an empty chunk list on the create path is.
- PyValues.ReprOf: `repr()` of strings does not model quote choice or escaping.
- PyValues.StrOf: `str()` of a Document writes the page content between single quotes without `repr()` escaping, so content holding quotes or backslashes renders differently from Python.
- DatabaseConnector.DatabaseConnector.Open: a failure of `sqlite3.connect` is not modelled.

## Findings

| source | as written | input that shows it | evidently intended | confidence | as-written member | corrected member |
|---|---|---|---|---|---|---|
| app.py:101-106 | the verdict is compared with 1 and 0 (and with True on the rerun path, line 189), but `checklist` returns the string "True" or "False", which never equals an int | one article whose verdict is "True" | keep the articles judged relevant | not executed | AppFilter.FilterAsWrittenKeepsNothing | AppFilter.FilterCorrectedKeepsRelevant |
| src/logic/risk_analysis.py:177-178 | the scoring example labels Likely × Moderate = 4 x 3 = 12 as "High Risk" | the example answer's second claim, score 12 | Medium, as the rubric's 6-15 range gives | not executed | RiskAnalysis.ExampleAsWrittenContradictsRubric | RiskAnalysis.ExampleCorrectedAgreesWithRubric |
