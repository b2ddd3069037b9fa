/** TextSummarizer.num_tokens and TextSummarizer.summarize_text: a token-budget gate in front
    of a map-reduce summarise chain. The tokenizer, the text splitter and the chain are
    external and appear as function parameters. */
module TextSummarization {
  import opened PyValues

  /** The tiktoken encoding used when the caller names none. */
  const DefaultEncoding := "cl100k_base"

  /** tiktoken.get_encoding(model).encode(text); Nothing when tiktoken raises ValueError
      (an unknown encoding name, or a disallowed special token in the text). */
  type Tokenizer = (string, string) -> Option<seq<int>>

  /** RecursiveCharacterTextSplitter(chunk_size, chunk_overlap).split_documents on one text. */
  type Splitter = (string, int, int) -> seq<string>

  /** The map-reduce summarise chain run on the chunks; it may raise. */
  type SummarizeChain = seq<string> -> Result<string>

  /** num_tokens: the number of tokens of a non-blank text under a non-blank encoding name;
      every failure is a ValueError. */
  function NumTokens(text: Value, model: Value, tokenize: Tokenizer): (r: Result<nat>)
    ensures r.Err? ==> r.error == ValueError
    ensures r.Ok? <==>
            && text.Str? && !IsBlank(text.s) && model.Str? && !IsBlank(model.s)
            && tokenize(model.s, text.s).Some?
    ensures r.Ok? ==> r.value == |tokenize(model.s, text.s).value|
  {
    if !text.Str? || IsBlank(text.s) then Err(ValueError)
    else if !model.Str? || IsBlank(model.s) then Err(ValueError)
    else match tokenize(model.s, text.s)
      case Nothing => Err(ValueError)
      case Some(tokens) => Ok(|tokens|)
  }

  /** chunk_size = max_tokens // 2 (Python floor division; max_tokens >= 1 here). */
  function ChunkSize(maxTokens: int): int {
    maxTokens / 2
  }

  /** chunk_overlap = max_tokens // 10 */
  function ChunkOverlap(maxTokens: int): int {
    maxTokens / 10
  }

  /** The splitter refuses an overlap larger than the chunk size; the derived parameters
      never trip that, and the overlap is strictly smaller once the budget is at least 2. */
  lemma ChunkParametersConsistent(maxTokens: int)
    requires maxTokens >= 1
    ensures 0 <= ChunkOverlap(maxTokens) <= ChunkSize(maxTokens)
    ensures maxTokens >= 2 ==> ChunkOverlap(maxTokens) < ChunkSize(maxTokens)
  {
  }

  /** summarize_text (the encoding name defaults to DefaultEncoding): the text itself when it
      fits the budget, otherwise the chain's summary of the text split into chunks of
      max_tokens // 2 with overlap max_tokens // 10. A ValueError from the counting or from
      the chain is raised again as ValueError; other exceptions of the chain pass through. */
  function SummarizeText(rawText: Value, maxTokens: Value, model: Value, tokenize: Tokenizer, split: Splitter, chain: SummarizeChain): (r: Result<string>)
    ensures !rawText.Str? || rawText.s == "" || !IsInt(maxTokens) || IntOf(maxTokens) < 1 ==> r == Err(ValueError)
    ensures r.Ok? ==>
              && rawText.Str? && IsInt(maxTokens)
              && (r.value == rawText.s || r == chain(split(rawText.s, IntOf(maxTokens) / 2, IntOf(maxTokens) / 10)))
    ensures r.Err? && r.error != ValueError ==>
              && rawText.Str? && IsInt(maxTokens)
              && r == chain(split(rawText.s, IntOf(maxTokens) / 2, IntOf(maxTokens) / 10))
  {
    if !rawText.Str? || rawText.s == "" then Err(ValueError)
    else if !IsInt(maxTokens) || IntOf(maxTokens) < 1 then Err(ValueError)
    else match NumTokens(rawText, model, tokenize)
      case Err(e) => Err(ValueError)
      case Ok(n) =>
        if n > IntOf(maxTokens) then
          chain(split(rawText.s, ChunkSize(IntOf(maxTokens)), ChunkOverlap(IntOf(maxTokens))))
        else Ok(rawText.s)
  }

  /** The text is within budget `budget` under the tokenizer. */
  predicate WithinBudget(text: string, model: Value, budget: int, tokenize: Tokenizer) {
    NumTokens(Str(text), model, tokenize).Ok? && NumTokens(Str(text), model, tokenize).value <= budget
  }

  /** Within budget the text comes back exactly, whatever the splitter and the chain do
      (so the chain is not run). */
  lemma WithinBudgetIsIdentity(text: string, budget: int, model: Value, tokenize: Tokenizer,
                               split: Splitter, chain: SummarizeChain)
    requires text != "" && budget >= 1
    requires WithinBudget(text, model, budget, tokenize)
    ensures SummarizeText(Str(text), Int(budget), model, tokenize, split, chain) == Ok(text)
  {
  }

  /** The chain's answer is the result exactly when the count is strictly over the budget. */
  lemma OverBudgetRunsChain(text: string, budget: int, model: Value, tokenize: Tokenizer,
                            split: Splitter, chain: SummarizeChain)
    requires text != "" && budget >= 1
    requires NumTokens(Str(text), model, tokenize).Ok?
    ensures NumTokens(Str(text), model, tokenize).value > budget ==>
            SummarizeText(Str(text), Int(budget), model, tokenize, split, chain)
              == chain(split(text, budget / 2, budget / 10))
    ensures NumTokens(Str(text), model, tokenize).value <= budget ==>
            SummarizeText(Str(text), Int(budget), model, tokenize, split, chain) == Ok(text)
  {
  }

  /** A text returned unchanged for one budget is returned unchanged for every larger one. */
  lemma BudgetMonotone(text: string, budget: int, larger: int, model: Value, tokenize: Tokenizer,
                       split: Splitter, chain: SummarizeChain)
    requires text != "" && 1 <= budget <= larger
    requires WithinBudget(text, model, budget, tokenize)
    ensures SummarizeText(Str(text), Int(larger), model, tokenize, split, chain) == Ok(text)
  {
  }

  /** Argument errors: empty or non-str text, non-int or non-positive budget, and blank
      text (which passes the first check but not num_tokens) all raise ValueError. */
  lemma SummarizeArgumentErrors(rawText: Value, maxTokens: Value, model: Value, tokenize: Tokenizer,
                                split: Splitter, chain: SummarizeChain)
    ensures !rawText.Str? || rawText.s == "" ==>
            SummarizeText(rawText, maxTokens, model, tokenize, split, chain) == Err(ValueError)
    ensures !IsInt(maxTokens) || IntOf(maxTokens) < 1 ==>
            SummarizeText(rawText, maxTokens, model, tokenize, split, chain) == Err(ValueError)
    ensures rawText.Str? && IsBlank(rawText.s) ==>
            SummarizeText(rawText, maxTokens, model, tokenize, split, chain) == Err(ValueError)
  {
  }

  /** bool is an int in Python: a budget of True behaves as a budget of 1. */
  lemma BoolBudgetIsOne(rawText: Value, model: Value, tokenize: Tokenizer, split: Splitter, chain: SummarizeChain)
    ensures SummarizeText(rawText, Bool(true), model, tokenize, split, chain)
            == SummarizeText(rawText, Int(1), model, tokenize, split, chain)
  {
  }
}
