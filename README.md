# aisaac screening and checkpoint refinement, modelled in Dafny

aisaac screens scientific papers against a set of *checkpoints*. A checkpoint is a named
inclusion or exclusion criterion, written as text. For every paper title with a vector store,
the screener searches the paper's chunks once per checkpoint. It builds a prompt, asks a
language model until the answer parses into the fields `title`, `checkpoints` and `reasoning`,
and hands the parse to the result store. The evaluator compares the verdicts with a gold
standard. It produces the confusion-matrix counts, a smoothed Matthews correlation coefficient
and the F-score. The criteria optimizer then rewrites the checkpoints whose feature importance
crosses a threshold, in one of four ways:

- **automated:** one rewrite by the model;
- **expert:** the user reviews propositions, may add annotations, and picks one;
- **context-aware:** rewrites grounded in each paper's search hits, then averaged;
- **advanced:** grounded rewrites grouped and averaged, then picked by the user.

The model has one Dafny module per component:

- `ContextManager`: the class-wide configuration dictionary.
- `DataManager`:
  - page cleaning: a line that occurs more than `len(pages) // 2` times in total, over all pages together, is taken for a header or footer and removed;
  - the runnable-title filter.
- `Evaluator`: the counts, the MCC and the F-score.
- `SimilaritySearcher`:
  - the store query with its fallback scores;
  - the optional reranking;
  - the strict relevance-threshold filter.
- `ResultSaver`: the results CSV as an in-memory table of rows.
- `Gateways`: the collaborators as oracles:
  - the language model answers from a finite stream of responses and logs the prompts it was sent;
  - the console answers from a finite stream of typed lines and logs the messages it showed;
  - the structured-output parser is a pair of functions.
- `Screener`: the screening run.
- `Refinement`: the optimizer's decisions, as functions of the collaborators' state (a `World`).
- `CriteriaOptimizer`: the optimizer's methods, each proved equal to its function in `Refinement`.

Outcomes are `Ok(value)`, `Raised(error)` for a Python exception, or `Stalled`. `Stalled` is
what the model reports when one of the code's unbounded loops (`while True`, or
retry-until-parsed) runs out of supplied answers.

The Python code has three quirks, and the model keeps all three as written:

1. `context_aware_feature_improvement` calls `__generate_improved_checkpoints` without its
   `annotations` argument. This is a TypeError as soon as there is a title.
2. `advanced_feature_improvement` reuses `i` as the variable of its inner loop. It therefore
   writes the key at position `NUMBER_EXPERT_CHOICES - 1`, not the key being refined.
3. `IMPORTANCE_GREATER_THAN_THRESHOLD` is compared as it was read. A string `'True'` never equals a bool.

In the screener, `create_context_text` unpacks each list of search results as a pair. It
therefore fails as soon as the checkpoint mapping is non-empty. `do_screening` catches that
failure and logs it.

## Model

| member | source | states |
|---|---|---|
| ContextManager.Lookup | aisaac/utils/context_manager.py:30-32 | `get_config` of a missing key is None; of a present key, the stored value |
| ContextManager.Defaults | aisaac/utils/context_manager.py:2-28 | `CHROMA_PATH` is "chroma"; `RESET_RESULTS` is the bool True, so it is not the string 'True' the result saver compares with (that `RERANKING` and `RELEVANCE_THRESHOLD` are absent is `SimilaritySearcher.DefaultsDisableBothFlags`) |
| ContextManager.LookupAfterStore | aisaac/utils/context_manager.py:34-36 | after `set_config(key, value)` the key reads back `value`, every other key reads as before, and setting twice is setting once |
| ContextManager.ContextManager.GetConfig | aisaac/utils/context_manager.py:30-32 | reads the class-wide dictionary: the stored value, or None |
| ContextManager.ContextManager.SetConfig | aisaac/utils/context_manager.py:34-36 | the class-wide dictionary changes at `key` only, and a later read of `key` yields `value` |
| ContextManager.ConfigStore.constructor | aisaac/utils/context_manager.py:2-28 | the dictionary starts as the class's default entries |
| ContextManager.SharedAcrossInstances | tests/test_context_manager.py:10-21 | the three test cases: the default `CHROMA_PATH`, None for a missing key, and, read through a second instance, the value set through the first |
| PyValues.BoolEquals | aisaac/core/criteria_optimizer.py:22 | against a bool value, `b == v` holds exactly when the two bools agree; a string never equals a bool |
| PyValues.BoolEqualsOneSide | aisaac/core/criteria_optimizer.py:22 | a value equals exactly one bool when it is a bool or the number 0/1, and neither otherwise |
| PyValues.NonNumbersEqualNoBool | aisaac/core/criteria_optimizer.py:22 | a string, None, list or dict is never equal to a bool |
| PyStrings.Split | aisaac/utils/data_manager.py:146 | `str.split(sep)` gives at least one part, and no part contains the separator |
| PyStrings.JoinSplit | aisaac/utils/data_manager.py:146 | joining the parts of a split with the separator gives back the string |
| PyStrings.SplitJoin | aisaac/utils/data_manager.py:159-163 | splitting the join of separator-free parts gives back the parts |
| PyStrings.Join | aisaac/utils/data_manager.py:159-163 | the first part begins the joined text, and the text is at least as long as its `n - 1` separators |
| PyStrings.Take | aisaac/core/criteria_optimizer.py:263-264 | a slice `xs[:n]` is a prefix of `xs`, of length `min(n, len)` for `n >= 0` and of `len + n` (at least 0) for negative `n` |
| PyStrings.StripLeftSuffix | aisaac/core/criteria_optimizer.py:96 | the white space `int()` ignores is removed from the front: the result is a suffix that does not start with white space |
| PyStrings.StripRightPrefix | aisaac/core/criteria_optimizer.py:96 | likewise at the end: a prefix that does not end with white space |
| PyStrings.Strip | aisaac/core/criteria_optimizer.py:96 | the white space `int()` skips is gone from both ends, the text is no longer than before, and a text without it at either end is unchanged |
| PyStrings.ParseInt | aisaac/core/criteria_optimizer.py:96 | an accepted text contains a digit; a non-empty text of ASCII digits alone is read as its decimal value |
| PyStrings.NatToString | aisaac/core/criteria_optimizer.py:94 | `str(n)` of a natural number is a non-empty string of digits |
| PyStrings.ParseIntOfNatToString | aisaac/core/criteria_optimizer.py:94-96 | `int(str(n)) == n`: typing the number shown in the choice string selects that number |
| PyStrings.LastIndexOf | aisaac/utils/data_manager.py:110 | the position of the last occurrence of a character, or -1 when it does not occur |
| PyStrings.SplitextRoot | aisaac/utils/data_manager.py:110 | `os.path.splitext(path)[0]` is a prefix that drops at most one final extension, and is the whole path when the path has no dot |
| PyStrings.SplitextOfNameAndExtension | aisaac/utils/data_manager.py:110 | the root of `name.ext` is `name` |
| DataManager.Metadata.Pop | aisaac/utils/data_manager.py:168 | `pop('page', None)` removes the key and returns its value, or None when it was absent |
| DataManager.Contents | aisaac/utils/data_manager.py:146 | the page contents, one per document, in order |
| DataManager.LinesAcrossPages | aisaac/utils/data_manager.py:146 | each page's content split at newlines |
| DataManager.Flatten | aisaac/utils/data_manager.py:149 | every line of every page is among all the lines |
| DataManager.RepeatedLines | aisaac/utils/data_manager.py:150-154 | a line is repeated exactly when it occurs more than `len(documents) // 2` times across all pages |
| DataManager.KeepLines | aisaac/utils/data_manager.py:159 | no more lines than the page has, none of them a dropped line, and none at all when every line of the page is dropped |
| DataManager.KeptMember | aisaac/utils/data_manager.py:159 | a line survives filtering exactly when it is on the page and not repeated |
| DataManager.CleanPages | aisaac/utils/data_manager.py:157-160 | one cleaned page per page, in order |
| DataManager.CleanedContent | aisaac/utils/data_manager.py:146-163 | with a single page the threshold `1 // 2` is 0, so every line counts as repeated and the content is empty |
| DataManager.CleanAndJoinDocumentPages | aisaac/utils/data_manager.py:140-170 | 0 or 1 document: returned unchanged; otherwise one document holding the cleaned pages joined by newlines, carrying the first document's metadata with `page` removed in place |
| DataManager.LineKeptIff | aisaac/utils/data_manager.py:153-159 | a line of page `i` stays exactly when it occurs on that page and at most `len // 2` times overall |
| DataManager.KeepAll | aisaac/utils/data_manager.py:159 | a page with no repeated line is kept as it is |
| DataManager.KeepConcat | aisaac/utils/data_manager.py:159 | filtering distributes over concatenation of lines |
| DataManager.FlattenMultiset | aisaac/utils/data_manager.py:149-150 | a line's count across all pages is at least its count on any one page |
| DataManager.NothingRepeated | aisaac/utils/data_manager.py:153-163 | when no line crosses the threshold, the combined content is the pages joined by newlines |
| DataManager.OccurrencesCount | aisaac/utils/data_manager.py:150 | the `Counter` count of a line equals its number of occurrences |
| DataManager.HeaderAndFooterRemoved | aisaac/utils/data_manager.py:140-170 | two pages sharing a header and a footer come out as the two bodies joined by a newline |
| DataManager.VaryingHeaderKept | aisaac/utils/data_manager.py:140-170 | a header on only one of two pages, and so on at most half of them, is kept |
| DataManager.RepeatsWithinOnePageCount | aisaac/utils/data_manager.py:149-154 | the count is over all lines: a line twice on one page of two is removed, which leaves an empty first page |
| DataManager.RunnableMember | aisaac/utils/data_manager.py:106-117 | a title is runnable exactly when it is listed and its store `CHROMA_PATH/<root>` exists |
| DataManager.Runnable | aisaac/utils/data_manager.py:106-117 | no more titles than listed, each of them listed and with an existing store directory |
| DataManager.RemoveFirst | aisaac/utils/data_manager.py:114 | `list.remove` takes away exactly one occurrence (as multisets), and a list without the value is unchanged |
| DataManager.DocumentManager.RunnableTitles | aisaac/utils/data_manager.py:106-117 | the manager's runnable titles: at most its listing, each listed and with an existing store directory |
| DataManager.RemoveFirstAt | aisaac/utils/data_manager.py:114 | `list.remove(x)` removes the first occurrence of `x` |
| DataManager.RemoveStep | aisaac/utils/data_manager.py:108-116 | one iteration over the copy keeps the list equal to the filtered prefix followed by the unvisited rest |
| DataManager.DocumentManager.GetRunnableTitles | aisaac/utils/data_manager.py:106-117 | the listed titles whose document store exists, in their listing order, and no others |
| Evaluator.Classify | aisaac/core/evaluator.py:28-43 | an empty or missing prediction, or a title unknown to the gold standard, is skipped; otherwise the prediction is positive exactly when it is 'True', and the gold label is positive exactly when it is 'True' |
| Evaluator.IsPositive | aisaac/core/evaluator.py:32-34 | only the exact text 'True' is positive: None, '', 'true', 'TRUE' and '1' are not |
| Evaluator.Scored | aisaac/core/evaluator.py:28-33 | the scored predictions are among the data, each non-empty and for a title the gold standard has |
| Evaluator.InCell | aisaac/core/evaluator.py:33-43 | every prediction in a cell is classified into it, and no cell holds more than are scored |
| Evaluator.GetTpTnFpFn | aisaac/core/evaluator.py:21-44 | each count is the number of predictions in its confusion cell, and the four add up to the number of scored predictions |
| Evaluator.SmoothedMcc | aisaac/core/evaluator.py:46-52 | after adding one to each count, the denominator under the root is at least 16 and the squared numerator is at most that denominator, so the MCC lies in [-1, 1] and nothing divides by zero |
| Evaluator.MccBounded | aisaac/core/evaluator.py:52 | for counts of at least 1: the product of the four sums is at least 16, and bounds the squared numerator |
| Evaluator.MccOfNothing | aisaac/core/evaluator.py:46-52 | with every count 0 the smoothed coefficient is 0 |
| Evaluator.MccSymmetry | aisaac/core/evaluator.py:46-52 | exchanging positive and negative leaves the coefficient unchanged; exchanging true and false negates it |
| Evaluator.FScore | aisaac/core/evaluator.py:54-55 | a ZeroDivisionError exactly when all three counts are 0; otherwise the score equals 2tp/(2tp+fp+fn) and lies in [0, 1], is 1 exactly when there are no errors, and is 0 exactly when tp is 0 |
| SimilaritySearcher.DefaultsDisableBothFlags | aisaac/utils/similarity_searcher.py:17-18 | the keys `RERANKING` and `RELEVANCE_THRESHOLD` are not among the defaults, so both flags are off by default |
| SimilaritySearcher.BoolTrueIsNotEnabled | aisaac/utils/similarity_searcher.py:17-18 | a bool True under a flag's key does not switch the flag on (only the string 'True' does) |
| SimilaritySearcher.FlagEnabled | aisaac/utils/similarity_searcher.py:17-18 | an enabled flag is a string, which never equals True; a bool or None never enables a flag |
| SimilaritySearcher.ApplyRelevanceThreshold | aisaac/utils/similarity_searcher.py:32-33 | the filter never lengthens the results |
| SimilaritySearcher.ThresholdKeepsExactly | aisaac/utils/similarity_searcher.py:32-33 | a hit survives exactly when it was among the results and is scored strictly above the threshold |
| SimilaritySearcher.ThresholdScoresAbove | aisaac/utils/similarity_searcher.py:32-33 | every surviving hit is scored above the threshold |
| SimilaritySearcher.ThresholdIsSubsequence | aisaac/utils/similarity_searcher.py:32-33 | the survivors keep their relative order |
| SimilaritySearcher.ThresholdIdempotent | aisaac/utils/similarity_searcher.py:32-33 | filtering twice is filtering once |
| SimilaritySearcher.StoredHits | aisaac/utils/similarity_searcher.py:45-55 | scored results are taken as they are; without a working score function every document is scored with the threshold itself |
| SimilaritySearcher.AtThresholdDropped | aisaac/utils/similarity_searcher.py:33 | hits scored exactly at the threshold are all dropped |
| SimilaritySearcher.FallbackFilteredOut | aisaac/utils/similarity_searcher.py:53-55 | the fallback results, each scored at the threshold, never pass the strict threshold filter |
| SimilaritySearcher.Contents | aisaac/utils/similarity_searcher.py:24 | the page contents sent to the reranker, one per hit, in order |
| SimilaritySearcher.SimilaritySearcher.constructor | aisaac/utils/similarity_searcher.py:15-18 | the two flags are on exactly when their configuration values are the string 'True' |
| SimilaritySearcher.SimilaritySearcher.Results | aisaac/utils/similarity_searcher.py:45-71 | with both flags off, the store's hits; with the threshold flag on, every hit scores above the threshold; with only that flag on, a store without a score function yields no hit |
| SimilaritySearcher.SimilaritySearcher.SimilaritySearch | aisaac/utils/similarity_searcher.py:35-71 | one search is logged; the result is the store's hits, then reranked if that flag is on, then filtered if the threshold flag is on (reranking first), for each of the four flag settings |
| ResultSaver.Normalised | aisaac/utils/result_saver.py:17-27 | a row written and read back has exactly the header fields, its own values where present and '' elsewhere |
| ResultSaver.FirstForeignRow | aisaac/utils/result_saver.py:17-21 | the first row with a field outside the header, or none |
| ResultSaver.Written | aisaac/utils/result_saver.py:17-21 | the file holds at most the given rows, all of them exactly when none is refused, and every row written carries exactly the header fields |
| ResultSaver.Matches | aisaac/utils/result_saver.py:34 | a matching update has a title, and a row without a title matches nothing |
| ResultSaver.MergeAll | aisaac/utils/result_saver.py:32-35 | updates only add or change fields: the existing fields stay, and so does the title |
| ResultSaver.NormalisedComplete | aisaac/utils/result_saver.py:17-27 | a row with exactly the header fields round-trips unchanged |
| ResultSaver.MergeNoMatch | aisaac/utils/result_saver.py:32-35 | a row without an update of the same title is unchanged |
| ResultSaver.MergeUntouched | aisaac/utils/result_saver.py:32-35 | a field no matching update names keeps its value |
| ResultSaver.MergeLastWins | aisaac/utils/result_saver.py:32-35 | of several matching updates naming a field, the last one's value is kept |
| ResultSaver.MergeKeys | aisaac/utils/result_saver.py:32-35 | the merged row has its own fields plus those of the matching updates, and keeps its title |
| ResultSaver.MergedRows | aisaac/utils/result_saver.py:32-35 | every existing row is merged with all the updates, and the number and order of rows are kept |
| ResultSaver.DefaultEntry | aisaac/utils/result_saver.py:43-53 | a new entry is converted, not embedded, has no verdict, and has empty checkpoints and reasoning |
| ResultSaver.LastMatch | aisaac/utils/result_saver.py:59-64 | the last row with the given title, or none |
| ResultSaver.ResultSaver.constructor | aisaac/utils/result_saver.py:6-15 | the table is emptied only when `RESET_RESULTS` is the string 'True' |
| ResultSaver.ResultSaver.WriteCsv | aisaac/utils/result_saver.py:17-21 | the table is replaced by the normalised rows up to the first foreign row; a ValueError exactly when there is one |
| ResultSaver.ResultSaver.ReadCsvToDictList | aisaac/utils/result_saver.py:23-27 | returns the table's rows |
| ResultSaver.ResultSaver.UpdateCsv | aisaac/utils/result_saver.py:29-36 | a KeyError, with the table unchanged, when there are rows and some update lacks a title; otherwise the table is rewritten with the merged rows |
| ResultSaver.ResultSaver.MergeRow | aisaac/utils/result_saver.py:33-35 | KeyError exactly when some update has no title; otherwise the row merged with every matching update, in order |
| ResultSaver.ResultSaver.AddDataCsv | aisaac/utils/result_saver.py:38-41 | the table is rewritten with the old rows followed by the new ones |
| ResultSaver.ResultSaver.CreateNewResultEntry | aisaac/utils/result_saver.py:55-57 | one default entry for the title is appended |
| ResultSaver.ResultSaver.GetResultList | aisaac/utils/result_saver.py:59-73 | a one-row list holding the last row with that title; a KeyError exactly when there is none |
| ResultSaver.ResultSaver.ResetResults | aisaac/utils/result_saver.py:75-77 | the table is empty |
| ResultSaver.UpdateWritesMerged | aisaac/utils/result_saver.py:29-36 | merging updates whose fields are header fields yields no foreign row, so the rewrite keeps every merged row |
| ResultSaver.AppendWritten | aisaac/utils/result_saver.py:38-41 | appending rows without foreign fields rewrites the old rows unchanged, followed by the new ones normalised |
| ResultSaver.ForeignRowOnlyInNew | aisaac/utils/result_saver.py:38-41 | appended to a complete table, the combined rows are refused exactly when one of the new rows is |
| Gateways.FieldNames | aisaac/core/screener.py:65-73 | the names of the response schemas, in order |
| Gateways.FirstWellFormed | aisaac/core/screener.py:75-80 | the position of the first response that parses; none exactly when no response parses |
| Gateways.Ask | aisaac/core/screener.py:51-55 | asking consumes a prefix of the response stream |
| Gateways.AskTakesNextRecord | aisaac/core/screener.py:51-55 | asking succeeds or stalls; it stalls exactly when no response parses, and otherwise yields the first parse and leaves the later parses to come |
| Gateways.LanguageModel.Predict | aisaac/core/screener.py:51 | `predict` returns the next response and logs the prompt; None when no response is left |
| Gateways.AskUntilWellFormed | aisaac/core/screener.py:50-55 | the retry loop yields the first parsing response and sends the same prompt once for each response it used |
| Gateways.FirstValue | aisaac/core/criteria_optimizer.py:176-178 | the value under the first field; a StopIteration exactly when the parse is empty |
| Gateways.Console.Input | aisaac/core/criteria_optimizer.py:96-97 | `input` returns the next typed line and logs the message; None when no line is left |
| Screener.ScreeningParser | aisaac/core/screener.py:65-73 | the parser expects the fields `title`, `checkpoints` and `reasoning`, in that order |
| Screener.SearchesFor | aisaac/core/screener.py:58-61 | one search per checkpoint text, for the same title, in mapping order |
| Screener.SearchesForAllLength | aisaac/core/screener.py:35-43 | a run issues titles × checkpoints searches |
| Screener.UnpackError | aisaac/core/screener.py:62 | unpacking a result list of two hits as a pair succeeds, and reading `page_content` from the tuple then raises AttributeError; any other length is a ValueError |
| Screener.Accepted | aisaac/core/screener.py:39-40 | at most the given records, each of them accepted by the store |
| Screener.AcceptedExactly | aisaac/core/screener.py:39-40 | a response is stored exactly when it was produced and the store accepts it |
| Screener.ResponseSink.SaveResponse | aisaac/core/screener.py:40 | an accepted response is appended; otherwise an exception and nothing stored |
| Screener.Screener.CreateContextText | aisaac/core/screener.py:58-63 | every checkpoint is searched; with no checkpoints the context is empty, otherwise the join fails with the unpacking error of the first result list |
| Screener.Screener.CreatePrompt | aisaac/core/screener.py:82-86 | the prompt carries the context, the fixed question, the checkpoints and the format instructions |
| Screener.Screener.CraftScreeningResponseFor | aisaac/core/screener.py:45-56 | with checkpoints it fails before the model is asked; without checkpoints it is the first parsing response, with one prompt sent per response used |
| Screener.Screener.ScreenTitle | aisaac/core/screener.py:38-43 | errors are caught: with checkpoints it succeeds and stores nothing; otherwise the parse is stored if the store accepts it |
| Screener.Screener.DoScreening | aisaac/core/screener.py:30-43 | every runnable title is searched once per checkpoint; with checkpoints nothing is asked or stored; without, the stored responses are the accepted parses of the first responses that parse, one per title, in order, and the run stalls exactly when fewer responses parse than there are titles |
| Screener.Screener.ScreenTitles | aisaac/core/screener.py:35-43 | the loop over the titles, with the same result as `DoScreening` for any list of titles |
| Screener.Screener.ScreenNext | aisaac/core/screener.py:35-43 | one pass for one title: its searches are added, and the run has either advanced by that title or stalled with its final result |
| Refinement.ImprovementParser | aisaac/core/criteria_optimizer.py:256-260 | one field, `improved checkpoint` |
| Refinement.Selected | aisaac/core/criteria_optimizer.py:22 | with a bool flag a position is selected exactly when `importance > threshold` agrees with it; with a string or None flag never |
| Refinement.SelectedWithBoolFlag | aisaac/core/criteria_optimizer.py:22 | with a bool flag a position is selected exactly when `importance > threshold` agrees with the flag; with the flag True an importance equal to the threshold is not selected |
| Refinement.StringFlagSelectsNothing | aisaac/core/criteria_optimizer.py:14-22 | a string flag (such as 'True' from a file) selects no position |
| Refinement.AskValue | aisaac/core/criteria_optimizer.py:170-181 | one prompt leaves the console and the searches untouched |
| Refinement.Generation | aisaac/core/criteria_optimizer.py:135-143 | `n` rewrites yield `n` answers and touch neither the console nor the searches |
| Refinement.GenerationFailureEnds | aisaac/core/criteria_optimizer.py:139-142 | the first failed rewrite ends the generation |
| Refinement.GenerationTakesRecords | aisaac/core/criteria_optimizer.py:135-143 | `n` rewrites succeed exactly when the first `n` parsing responses are non-empty; they then yield those responses' first fields in order and leave the later parses to come |
| Refinement.GenerationPrompts | aisaac/core/criteria_optimizer.py:135-143 | generation sends nothing but the one rewrite prompt |
| Refinement.FirstField | aisaac/core/criteria_optimizer.py:176-178 | a stall passes through; a parse yields the value of its first field, and StopIteration exactly when it is empty; any other error is the parse's own |
| Refinement.Numerals | aisaac/core/criteria_optimizer.py:94 | the numerals `1` to `n` |
| Refinement.ChoiceString | aisaac/core/criteria_optimizer.py:94 | the choice string is bracketed (its numerals: `Refinement.ChoiceStringParts`) |
| Refinement.ChoiceStringParts | aisaac/core/criteria_optimizer.py:94 | the choice string is `[1/2/…/n]`, and each numeral in it parses back to its option's number |
| Refinement.ChoiceOf | aisaac/core/criteria_optimizer.py:96-98 | an accepted choice is a number from 1 to the number of options |
| Refinement.ChoiceRun | aisaac/core/criteria_optimizer.py:91-106 | asking for a choice leaves the model and the searches untouched |
| Refinement.ChoiceLoop | aisaac/core/criteria_optimizer.py:92-104 | the `while True` loop never raises and returns one of the options after reading at least one line; lines are only consumed, and the model and the searches are untouched |
| Refinement.ChoicePicksFirstValid | aisaac/core/criteria_optimizer.py:91-106 | the first typed line that names an option decides: that option is returned, and the message was shown once per line read |
| Refinement.ChoiceStallsWithoutValid | aisaac/core/criteria_optimizer.py:91-104 | when no line names an option, every line is read and the loop never ends |
| Refinement.NoOptionsNeverChosen | aisaac/core/criteria_optimizer.py:98 | with no options no line is accepted |
| Refinement.NumeralNamesOption | aisaac/core/criteria_optimizer.py:94-98 | typing the numeral of an option selects that option |
| Refinement.CheckSkipsToVerdict | aisaac/core/criteria_optimizer.py:108-128 | lines other than 'y'/'n' are asked again; 'n' keeps the propositions; 'y' followed by a line regenerates with that line as the notes |
| Refinement.CheckStallsWithoutVerdict | aisaac/core/criteria_optimizer.py:108-128 | without a 'y' or 'n' the loop never ends |
| Refinement.CheckRun | aisaac/core/criteria_optimizer.py:108-128 | typed lines are only consumed, and a result comes only after at least one line was read |
| Refinement.ExpertRun | aisaac/core/criteria_optimizer.py:130-133 | the same of the regenerate-then-review round, which reads at least the verdict line before it yields |
| Refinement.CheckRunResult | aisaac/core/criteria_optimizer.py:108-133 | the accepted propositions are the ones shown or a fresh set of `NUMBER_EXPERT_CHOICES`, and no search is run |
| Refinement.ExpertRunResult | aisaac/core/criteria_optimizer.py:130-133 | the expert loop yields `NUMBER_EXPERT_CHOICES` propositions and runs no search |
| Refinement.Candidates | aisaac/core/criteria_optimizer.py:74-80 | the candidate loop reads no console input |
| Refinement.CandidatesPerTitle | aisaac/core/criteria_optimizer.py:74-80 | one candidate per title, and one search per title for the current checkpoint, in title order |
| Refinement.CandidatesFailureEnds | aisaac/core/criteria_optimizer.py:74-80 | the first failed candidate ends the loop |
| Refinement.Averages | aisaac/core/criteria_optimizer.py:86-87 | `n` averages succeed only with at least `n` groups and yield `n` answers |
| Refinement.AveragesFailureEnds | aisaac/core/criteria_optimizer.py:86-87 | the first failed average ends the loop |
| Refinement.GroupsConcat | aisaac/core/criteria_optimizer.py:83-84 | the groups concatenate back to the candidates |
| Refinement.Groups | aisaac/core/criteria_optimizer.py:83-84 | no group exactly when there is no candidate, and never more groups than candidates |
| Refinement.GroupsSizes | aisaac/core/criteria_optimizer.py:83-84 | every group is non-empty and at most the step long, and all but the last are exactly the step long |
| Refinement.GroupsAtLeast | aisaac/core/criteria_optimizer.py:83-84 | there are at least `m` groups exactly when there are more than `(m-1)·size` candidates |
| Refinement.EnoughGroups | aisaac/core/criteria_optimizer.py:83-87 | the averaging loop finds its `NUMBER_EXPERT_CHOICES` groups exactly when there are more than `(c-1)·c` candidates |
| Refinement.AutomatedStep | aisaac/core/criteria_optimizer.py:23-27 | one automated step changes at most the refined checkpoint |
| Refinement.AutomatedStepTakesNextRecord | aisaac/core/criteria_optimizer.py:23-27 | an automated step stalls when no response parses, raises StopIteration on an empty parse, and otherwise replaces the checkpoint with the first field of the next parse |
| Refinement.ExpertStep | aisaac/core/criteria_optimizer.py:36-38 | one expert step changes at most the refined checkpoint |
| Refinement.ContextAwareStep | aisaac/core/criteria_optimizer.py:47-55 | one context-aware step changes at most the refined checkpoint |
| Refinement.AdvancedStep | aisaac/core/criteria_optimizer.py:71-88 | one advanced step changes at most the key at the written position |
| Refinement.AdvancedChoice | aisaac/core/criteria_optimizer.py:81-88 | the grouping, averaging and choice change at most the key at the written position |
| Refinement.AdvancedStepSucceeds | aisaac/core/criteria_optimizer.py:71-88 | an advanced step succeeds only when `NUMBER_EXPERT_CHOICES` is positive, is at most the number of keys, and there are more than `(c - 1) * c` titles within `MAX_FEATURE_IMPROVEMENT_DOCUMENTS` (for `c` = `NUMBER_EXPERT_CHOICES`), so that `c` groups exist; it then writes the key at position `NUMBER_EXPERT_CHOICES - 1` and nothing else |
| Refinement.AdvancedChoiceSucceeds | aisaac/core/criteria_optimizer.py:81-88 | likewise once the candidates are drawn: enough candidates for every group, and only the key at `NUMBER_EXPERT_CHOICES - 1` written |
| Refinement.Step | aisaac/core/criteria_optimizer.py:21-88 | a step changes at most the key at its written position, and keeps the key set |
| Refinement.WrittenPosition | aisaac/core/criteria_optimizer.py:86-88 | outside the advanced refinement the refined position itself; within it the refined position or one below `NUMBER_EXPERT_CHOICES`, since the inner loop rebinds `i` |
| Refinement.Refine | aisaac/core/criteria_optimizer.py:21-28 | a refinement keeps the dictionary's key set |
| Refinement.RefineNext | aisaac/core/criteria_optimizer.py:21-23 | an unselected position changes nothing; a selected position past the keys is an IndexError; a selected position within them is one step |
| Refinement.RefineFailureEnds | aisaac/core/criteria_optimizer.py:21-28 | the first failure ends the refinement |
| Refinement.RefineOnlyWritten | aisaac/core/criteria_optimizer.py:21-88 | a checkpoint that no selected position writes keeps its value |
| Refinement.RefineNeedsKeys | aisaac/core/criteria_optimizer.py:21-23 | a refinement that succeeds selected only positions that have a key |
| Refinement.RefineWithStringFlag | aisaac/core/criteria_optimizer.py:14-22 | with a string flag a refinement succeeds and changes nothing: no model, console or search call is made |
| Refinement.ContextAwareChangesNothing | aisaac/core/criteria_optimizer.py:43-56 | with at least one runnable title within `MAX_FEATURE_IMPROVEMENT_DOCUMENTS` the context-aware refinement never changes a checkpoint; it succeeds exactly when nothing is selected, and otherwise raises a TypeError (or an IndexError) |
| CriteriaOptimizer.CheckpointDictionary.Set | aisaac/core/criteria_optimizer.py:27 | assigning a value keeps the key order and appends a new key at the end |
| CriteriaOptimizer.CriteriaOptimizer.constructor | aisaac/core/criteria_optimizer.py:6-15 | the flag is kept as the raw configuration value |
| CriteriaOptimizer.CriteriaOptimizer.AskForFirstField | aisaac/core/criteria_optimizer.py:170-181 | one prompt, asked until it parses, answered by the first field |
| CriteriaOptimizer.CriteriaOptimizer.GenerateImprovedCheckpointWithoutContext | aisaac/core/criteria_optimizer.py:183-216 | the rewrite prompt carries the checkpoint and the annotations |
| CriteriaOptimizer.CriteriaOptimizer.GenerateImprovedCheckpoints | aisaac/core/criteria_optimizer.py:145-181 | the grounded prompt carries the hits, the checkpoint, the annotations and the fixed question |
| CriteriaOptimizer.CriteriaOptimizer.AverageCheckpoints | aisaac/core/criteria_optimizer.py:218-247 | the averaging prompt carries the candidates |
| CriteriaOptimizer.CriteriaOptimizer.GenerateNewCheckpoints | aisaac/core/criteria_optimizer.py:135-143 | `k` rewrites, with `NUMBER_EXPERT_CHOICES` when `k` is None and `range` semantics for negative counts (see `Refinement.GenerationTakesRecords`) |
| CriteriaOptimizer.CriteriaOptimizer.AskForExpertChoice | aisaac/core/criteria_optimizer.py:91-106 | the choice loop (see `Refinement.ChoicePicksFirstValid`) |
| CriteriaOptimizer.CriteriaOptimizer.CheckPropositions | aisaac/core/criteria_optimizer.py:108-128 | the propositions loop (see `Refinement.CheckSkipsToVerdict`) |
| CriteriaOptimizer.CriteriaOptimizer.ExpertImprovement | aisaac/core/criteria_optimizer.py:130-133 | regenerate, then review (see `Refinement.ExpertRunResult`) |
| CriteriaOptimizer.CriteriaOptimizer.DrawCandidates | aisaac/core/criteria_optimizer.py:74-80 | per title, a search and then a grounded rewrite (see `Refinement.CandidatesPerTitle`) |
| CriteriaOptimizer.CriteriaOptimizer.AverageGroups | aisaac/core/criteria_optimizer.py:86-87 | `NUMBER_EXPERT_CHOICES` averages, with an IndexError past the last group (see `Refinement.EnoughGroups`) |
| CriteriaOptimizer.CriteriaOptimizer.AutomatedAt | aisaac/core/criteria_optimizer.py:23-27 | the dictionary is updated in place as the automated step says, and its keys are kept |
| CriteriaOptimizer.CriteriaOptimizer.ExpertAt | aisaac/core/criteria_optimizer.py:36-38 | the dictionary is updated in place as the expert step says |
| CriteriaOptimizer.CriteriaOptimizer.ContextAwareAt | aisaac/core/criteria_optimizer.py:47-55 | the first title's search runs, then the call missing `annotations` raises TypeError; with no title the average of no candidates is written |
| CriteriaOptimizer.CriteriaOptimizer.ChooseAmongGroups | aisaac/core/criteria_optimizer.py:81-88 | ValueError for a zero step; then the averages and the choice, written to the key at the rebound `i` |
| CriteriaOptimizer.CriteriaOptimizer.AdvancedAt | aisaac/core/criteria_optimizer.py:71-88 | the dictionary is updated in place as the advanced step says |
| CriteriaOptimizer.CriteriaOptimizer.ImproveAt | aisaac/core/criteria_optimizer.py:21-88 | one step of the chosen refinement |
| CriteriaOptimizer.CriteriaOptimizer.Improve | aisaac/core/criteria_optimizer.py:21-88 | the loop over the importances, leaving the dictionary, the console, the model and the searches as `Refinement.Refine` says |
| CriteriaOptimizer.CriteriaOptimizer.AutomatedFeatureImprovement | aisaac/core/criteria_optimizer.py:19-28 | the automated refinement, in place |
| CriteriaOptimizer.CriteriaOptimizer.ExpertFeatureImprovement | aisaac/core/criteria_optimizer.py:32-39 | the expert refinement, in place |
| CriteriaOptimizer.CriteriaOptimizer.ContextAwareFeatureImprovement | aisaac/core/criteria_optimizer.py:43-56 | the context-aware refinement, in place (see `Refinement.ContextAwareChangesNothing`) |
| CriteriaOptimizer.CriteriaOptimizer.AdvancedFeatureImprovement | aisaac/core/criteria_optimizer.py:60-89 | the advanced refinement, in place (see `Refinement.AdvancedStepSucceeds`) |
| CriteriaOptimizer.CriteriaOptimizer.RunnableTitlesWithLimit | aisaac/core/criteria_optimizer.py:263-264 | the runnable titles cut at `MAX_FEATURE_IMPROVEMENT_DOCUMENTS` with Python slice semantics |

## Left out

- I/O:
  - Reading and writing files (the CSV file, the pickle of the global data, `os.listdir`, path checks) is not modelled. The directory listing and the store-exists test are parameters of `DocumentManager`. The results file is the in-memory `rows` of `ResultSaver`.
- Collaborators:
  - The language model is a stream of response texts. The console is a stream of typed lines.
  - The vector store, the Cohere reranker and the structured-output library are functions supplied at construction.
  - Prompt templates are not rendered. A prompt is recorded as the values filled into it.
- `print` and logging: both are left out. Printed messages and the options text shown with the choice prompt are not recorded. The console log records which prompt was shown, with its options.
- Stalls:
  - An input or response stream that runs out makes an unbounded loop end as `Stalled`.
  - In Python, the program would wait for the user or the model for ever. It would also raise EOFError when standard input is closed.
- The exceptions the code catches in `__ask_for_expert_choice` and `check_propositions` are not modelled separately:
  - `__ask_for_expert_choice` catches `ValueError`; this is modelled as an unparsable line that is asked again.
  - In `check_propositions`, a `ValueError` can only come from code that is not part of this model.
- Configuration conversions: `float()` and `int()` of the optimizer's and searcher's settings happen in the caller. Their results are constructor parameters (`threshold`, `maxDocuments`, `choices`, `k`, `relevanceThreshold`).
- Evaluator.SmoothedMcc: the square root and the final float division are not modelled. The function returns the numerator and the squared denominator, and their bound is what is proved.
- Evaluator:
  - `get_results_dataframe`, `extract_values`, `get_feature_importance` (random forest), `draw_feature_importance` (plot) and `get_full_evaluation` are left out. They are pandas, scikit-learn and matplotlib work, outside the screening and refinement core.
  - The importances are an input of the refinements.
  - `read_csv_to_dict_relevant_only` is not part of this model. `GetTpTnFpFn` takes its two tables as parameters.
- DataManager: the loading, sampling, global-data and vector-store methods (`__load_data`, `update_global_data`, `get_data`, `get_converted_titles`, `get_runnable_data`, `VectorDataManager`) are left out. They are I/O around the two modelled operations.
- ResultSaver:
  - `set_up_new_results_file` calls a `create_result_list` that the class does not define, so it is left out.
  - Values are written to the CSV as Python values; the conversion to text and back is not modelled, so a `True` written is read back as `True`, not as `'True'`.
- Screener:
  - `save_response` is not defined by the result saver. It is a foreign call that accepts a response or raises (`ResponseSink`).
  - The progress counter is left out.
  - Parsed response fields are strings.
- CriteriaOptimizer: the checkpoint dictionary is a class whose fields hold the key order and the mapping. A refinement returns an `Outcome<()>`, since the dictionary it returns is the one it was given, updated in place.
- Loop bodies: some of them are methods of their own (`ScreenNext`, `ImproveAt`, `AverageGroups`, `DrawCandidates`) so that each proof stays small. The order of calls is the original one.
- PyStrings.ParseInt: only ASCII digits are read. Python's `int()` also accepts any other Unicode decimal digit (a full-width '１', an Arabic-Indic '٣') and Unicode white space around the literal; the model reads such a text as invalid.
- Refinement.ChoiceOf: for the same reason, a user who types a non-ASCII numeral such as '１' is asked again, where Python would choose that option.
- Concurrency and floating-point rounding in the F-score are not modelled.
