/** `Screener`: for every runnable title, build a context from one similarity search per
    checkpoint, ask the language model until its answer parses, and hand the parse to the
    result store. */
module Screener {
  import opened Wrappers
  import opened SimilaritySearcher
  import opened Gateways
  import opened DataManager

  /** The ordered mapping of checkpoint names to checkpoint texts. */
  type Checkpoints = seq<(string, string)>

  const Question: string := "Which of the checkpoints are true for this document and why?"

  /** `get_output_parser`: the three fields a screening answer must have, in this order. */
  function ScreeningParser(lib: ParserLib): (parser: OutputParser)
    ensures parser.lib == lib
    ensures FieldNames(parser.schemas) == ["title", "checkpoints", "reasoning"]
  {
    OutputParser(lib, [
      ResponseSchema("title", "Title of the document", "string"),
      ResponseSchema("checkpoints", "For each Checkpoint, whether it is true or false", "string"),
      ResponseSchema("reasoning", "Reasoning for each checkpoint", "string")])
  }

  /** The searches `create_context_text` issues for one title: one per checkpoint text, in
      mapping order. */
  function SearchesFor(title: string, checkpoints: Checkpoints): (qs: seq<(string, string)>)
    ensures |qs| == |checkpoints|
    ensures forall i :: 0 <= i < |checkpoints| ==> qs[i] == (title, checkpoints[i].1)
  {
    seq(|checkpoints|, i requires 0 <= i < |checkpoints| => (title, checkpoints[i].1))
  }

  /** The searches of a whole screening run, title after title. */
  function SearchesForAll(titles: seq<string>, checkpoints: Checkpoints): seq<(string, string)>
    decreases |titles|
  {
    if |titles| == 0 then []
    else SearchesForAll(titles[..|titles| - 1], checkpoints) + SearchesFor(titles[|titles| - 1], checkpoints)
  }

  /** Every title issues the same number of searches. */
  lemma {:induction false} SearchesForAllLength(titles: seq<string>, checkpoints: Checkpoints)
    ensures |SearchesForAll(titles, checkpoints)| == |titles| * |checkpoints|
    decreases |titles|
  {
    if |titles| > 0 {
      SearchesForAllLength(titles[..|titles| - 1], checkpoints);
    }
  }

  /** Without checkpoints no title issues a search. */
  lemma NoSearchesWithoutCheckpoints(titles: seq<string>, n: int, checkpoints: Checkpoints)
    requires 0 <= n <= |titles| && |checkpoints| == 0
    ensures SearchesForAll(titles[..n], checkpoints) == SearchesForAll(titles, checkpoints) == []
  {
    SearchesForAllLength(titles, checkpoints);
    SearchesForAllLength(titles[..n], checkpoints);
  }

  /** A screening run over one more title issues that title's searches after the others. */
  lemma SearchesForAllStep(titles: seq<string>, i: int, checkpoints: Checkpoints)
    requires 0 <= i < |titles|
    ensures SearchesForAll(titles[..i + 1], checkpoints) == SearchesForAll(titles[..i], checkpoints) + SearchesFor(titles[i], checkpoints)
  {
    assert titles[..i + 1][..i] == titles[..i];
  }

  /** Unpacking a per-checkpoint result list as a `(doc, score)` pair: a list of two hits
      unpacks, but its first element is a pair with no `page_content` (AttributeError); a list
      of any other length does not unpack (ValueError). */
  function UnpackError(firstResults: seq<Hit>): (e: Error)
    ensures e == AttributeError <==> |firstResults| == 2
    ensures e == ValueError <==> |firstResults| != 2
  {
    if |firstResults| == 2 then AttributeError else ValueError
  }

  /** The parses, among `records`, that the result store accepts, in order. */
  function Accepted(accepts: Record -> bool, records: seq<Record>): (saved: seq<Record>)
    ensures |saved| <= |records|
    ensures forall i :: 0 <= i < |saved| ==> accepts(saved[i])
    decreases |records|
  {
    if |records| == 0 then []
    else
      var init := Accepted(accepts, records[..|records| - 1]);
      if accepts(records[|records| - 1]) then init + [records[|records| - 1]] else init
  }

  /** A record is kept exactly when it is among the records and the store accepts it. */
  lemma {:induction false} AcceptedExactly(accepts: Record -> bool, records: seq<Record>, x: Record)
    ensures x in Accepted(accepts, records) <==> x in records && accepts(x)
    decreases |records|
  {
    if |records| > 0 {
      var init := records[..|records| - 1];
      AcceptedExactly(accepts, init, x);
      assert records == init + [records[|records| - 1]];
    }
  }

  /** `result_saver.save_response`, a method the result store does not define: a foreign call
      that stores the response or raises. */
  class ResponseSink {
    const accepts: Record -> bool
    var saved: seq<Record>

    constructor (accepts: Record -> bool)
      ensures this.accepts == accepts && saved == []
    {
      this.accepts := accepts;
      saved := [];
    }

    method SaveResponse(response: Record) returns (r: Outcome<()>)
      modifies this
      ensures accepts(response) ==> r == Ok(()) && saved == old(saved) + [response]
      ensures !accepts(response) ==> r == Raised(ForeignError) && saved == old(saved)
    {
      if accepts(response) {
        saved := saved + [response];
        return Ok(());
      }
      r := Raised(ForeignError);
    }
  }

  class Screener {
    const dm: DocumentManager
    const searcher: SimilaritySearcher
    const model: LanguageModel
    const sink: ResponseSink
    const lib: ParserLib
    /** The parser `get_output_parser` builds; it depends only on the library. */
    const outputParser: OutputParser

    constructor (dm: DocumentManager, searcher: SimilaritySearcher, model: LanguageModel,
                 sink: ResponseSink, lib: ParserLib)
      ensures this.dm == dm && this.searcher == searcher && this.model == model
      ensures this.sink == sink && this.lib == lib
      ensures outputParser == ScreeningParser(lib)
    {
      this.dm := dm;
      this.searcher := searcher;
      this.model := model;
      this.sink := sink;
      this.lib := lib;
      this.outputParser := ScreeningParser(lib);
    }

    /** The prompt for a checkpoint mapping whose context text is empty. */
    function EmptyContextPrompt(checkpoints: Checkpoints): Prompt
    {
      ScreeningPrompt("", Question, checkpoints, outputParser.FormatInstructions())
    }

    /** `create_context_text`: one search per checkpoint text, then the join of the results,
        which fails as soon as there is a result list to unpack. */
    method CreateContextText(title: string, checkpoints: Checkpoints) returns (r: Outcome<string>)
      modifies searcher
      ensures searcher.queries == old(searcher.queries) + SearchesFor(title, checkpoints)
      ensures |checkpoints| == 0 ==> r == Ok("")
      ensures |checkpoints| > 0 ==> r == Raised(UnpackError(searcher.Results(title, checkpoints[0].1)))
    {
      var similaritySearchResults: seq<seq<Hit>> := [];
      for i := 0 to |checkpoints|
        invariant searcher.queries == old(searcher.queries) + SearchesFor(title, checkpoints[..i])
        invariant |similaritySearchResults| == i
        invariant forall j :: 0 <= j < i ==> similaritySearchResults[j] == searcher.Results(title, checkpoints[j].1)
      {
        var results := searcher.SimilaritySearch(title, checkpoints[i].1);
        similaritySearchResults := similaritySearchResults + [results];
        assert SearchesFor(title, checkpoints[..i + 1]) == SearchesFor(title, checkpoints[..i]) + [(title, checkpoints[i].1)];
      }
      assert checkpoints[..|checkpoints|] == checkpoints;
      if |similaritySearchResults| == 0 {
        return Ok("");
      }
      r := Raised(UnpackError(similaritySearchResults[0]));
    }

    /** `create_prompt`. */
    function CreatePrompt(contextText: string, checkpoints: Checkpoints, formatInstructions: string): (p: Prompt)
      ensures p.ScreeningPrompt? && p.context == contextText && p.question == Question
      ensures p.checkpoints == checkpoints && p.formatInstructions == formatInstructions
    {
      ScreeningPrompt(contextText, Question, checkpoints, formatInstructions)
    }

    /** `craft_screening_response_for`: with checkpoints the context step fails before the model
        is asked; without, the model is asked until its answer parses. */
    method CraftScreeningResponseFor(title: string, checkpoints: Checkpoints) returns (r: Outcome<Record>)
      modifies searcher, model
      ensures searcher.queries == old(searcher.queries) + SearchesFor(title, checkpoints)
      ensures |checkpoints| > 0 ==>
        r == Raised(UnpackError(searcher.Results(title, checkpoints[0].1)))
        && model.pending == old(model.pending) && model.prompts == old(model.prompts)
      ensures |checkpoints| == 0 ==>
        r == Ask(old(model.pending), outputParser).result
        && model.pending == Ask(old(model.pending), outputParser).rest
        && model.prompts == old(model.prompts) + Repeat(EmptyContextPrompt(checkpoints), |old(model.pending)| - |model.pending|)
    {
      var contextText := CreateContextText(title, checkpoints);
      if !contextText.Ok? {
        return Raised(contextText.error);
      }
      var outputParser := this.outputParser;
      var formatInstructions := outputParser.FormatInstructions();
      var prompt := CreatePrompt(contextText.value, checkpoints, formatInstructions);
      r := AskUntilWellFormed(model, prompt, outputParser);
    }

    /** The body of the `try` in `do_screening` for one title: craft the response and save
        it; an exception is caught (and logged), a stall is not. */
    method ScreenTitle(title: string, checkpoints: Checkpoints) returns (r: Outcome<()>)
      modifies searcher, model, sink
      ensures searcher.queries == old(searcher.queries) + SearchesFor(title, checkpoints)
      ensures |checkpoints| > 0 ==> r == Ok(())
      ensures |checkpoints| > 0 ==> model.pending == old(model.pending) && model.prompts == old(model.prompts)
      ensures |checkpoints| > 0 ==> sink.saved == old(sink.saved)
      ensures |checkpoints| == 0 ==>
        var answer := Ask(old(model.pending), outputParser);
        && model.pending == answer.rest
        && model.prompts == old(model.prompts) + Repeat(EmptyContextPrompt(checkpoints), |old(model.pending)| - |model.pending|)
        && (answer.result.Stalled? ==> r == Stalled && sink.saved == old(sink.saved))
        && (answer.result.Ok? ==>
              r == Ok(()) && sink.saved == old(sink.saved) + Accepted(sink.accepts, [answer.result.value]))
    {
      var response := CraftScreeningResponseFor(title, checkpoints);
      if response.Stalled? {
        return Stalled;
      }
      if response.Ok? {
        var _ := sink.SaveResponse(response.value);
        assert Accepted(sink.accepts, [response.value]) == if sink.accepts(response.value) then [response.value] else [];
      }
      r := Ok(());
    }

    /** `do_screening`: every runnable title in order, an error of one title logged and skipped. */
    method DoScreening(checkpoints: Checkpoints) returns (r: Outcome<()>)
      modifies searcher, model, sink
      ensures searcher.queries == old(searcher.queries) + SearchesForAll(dm.RunnableTitles(), checkpoints)
      ensures |checkpoints| > 0 ==> r == Ok(())
      ensures |checkpoints| > 0 ==> model.pending == old(model.pending) && model.prompts == old(model.prompts)
      ensures |checkpoints| > 0 ==> sink.saved == old(sink.saved)
      ensures |checkpoints| == 0 ==>
        var answered := WellFormedRecords(old(model.pending), outputParser);
        var titles := dm.RunnableTitles();
        && (|answered| >= |titles| ==> r == Ok(()) && sink.saved == old(sink.saved) + Accepted(sink.accepts, answered[..|titles|]))
        && (|answered| < |titles| ==> r == Stalled && sink.saved == old(sink.saved) + Accepted(sink.accepts, answered))
        && |model.pending| <= |old(model.pending)|
        && model.prompts == old(model.prompts) + Repeat(EmptyContextPrompt(checkpoints), |old(model.pending)| - |model.pending|)
    {
      var titles := dm.GetRunnableTitles();
      r := ScreenTitles(titles, checkpoints);
    }

    /** The loop of `do_screening` over the titles it found. */
    method ScreenTitles(titles: seq<string>, checkpoints: Checkpoints) returns (r: Outcome<()>)
      modifies searcher, model, sink
      ensures searcher.queries == old(searcher.queries) + SearchesForAll(titles, checkpoints)
      ensures RunResult(checkpoints, old(model.pending), outputParser, EmptyContextPrompt(checkpoints), sink.accepts, |titles|,
                        old(model.prompts), old(sink.saved), model.pending, model.prompts, sink.saved, r)
    {
      ghost var stream := model.pending;
      ghost var answered := WellFormedRecords(model.pending, outputParser);
      for i := 0 to |titles|
        invariant searcher.queries == old(searcher.queries) + SearchesForAll(titles[..i], checkpoints)
        invariant RunState(checkpoints, stream, answered, outputParser, EmptyContextPrompt(checkpoints), sink.accepts, i,
                           old(model.prompts), old(sink.saved), model.pending, model.prompts, sink.saved)
      {
        var outcome := ScreenNext(titles, i, checkpoints, old(searcher.queries), stream, answered, old(model.prompts), old(sink.saved));
        if outcome.Stalled? {
          return Stalled;
        }
      }
      assert titles[..|titles|] == titles;
      RunEnd(checkpoints, stream, answered, outputParser, EmptyContextPrompt(checkpoints), sink.accepts, |titles|,
             old(model.prompts), old(sink.saved), model.pending, model.prompts, sink.saved);
      r := Ok(());
    }

    /** One pass of `do_screening`'s loop, with what the run has done so far. */
    method ScreenNext(titles: seq<string>, i: int, checkpoints: Checkpoints, ghost queries0: seq<(string, string)>,
                      ghost stream: seq<string>, ghost answered: seq<Record>, ghost prompts0: seq<Prompt>,
                      ghost saved0: seq<Record>) returns (outcome: Outcome<()>)
      requires 0 <= i < |titles|
      requires searcher.queries == queries0 + SearchesForAll(titles[..i], checkpoints)
      requires RunState(checkpoints, stream, answered, outputParser, EmptyContextPrompt(checkpoints), sink.accepts, i,
                        prompts0, saved0, model.pending, model.prompts, sink.saved)
      modifies searcher, model, sink
      ensures outcome.Stalled? ==>
        && searcher.queries == queries0 + SearchesForAll(titles, checkpoints)
        && RunResult(checkpoints, stream, outputParser, EmptyContextPrompt(checkpoints), sink.accepts, |titles|,
                     prompts0, saved0, model.pending, model.prompts, sink.saved, Stalled)
      ensures !outcome.Stalled? ==>
        && searcher.queries == queries0 + SearchesForAll(titles[..i + 1], checkpoints)
        && RunState(checkpoints, stream, answered, outputParser, EmptyContextPrompt(checkpoints), sink.accepts, i + 1,
                    prompts0, saved0, model.pending, model.prompts, sink.saved)
    {
      ghost var pendingBefore := model.pending;
      ghost var promptsBefore := model.prompts;
      ghost var savedBefore := sink.saved;
      outcome := ScreenTitle(titles[i], checkpoints);
      SearchesForAllStep(titles, i, checkpoints);
      RunStep(checkpoints, stream, answered, outputParser, EmptyContextPrompt(checkpoints), sink.accepts, i, prompts0, saved0,
              pendingBefore, promptsBefore, savedBefore, model.pending, model.prompts, sink.saved, outcome);
      if outcome.Stalled? {
        NoSearchesWithoutCheckpoints(titles, i + 1, checkpoints);
      }
    }
  }

  /** What a screening run over `n` titles has done when it ends: with checkpoints nothing;
      without, the first `n` parsing responses are answered and the accepted ones saved, or,
      when fewer than `n` responses parse, every one of them and the run stalls. */
  ghost predicate RunResult(checkpoints: Checkpoints, stream: seq<string>, parser: OutputParser, prompt: Prompt,
                            accepts: Record -> bool, n: nat, prompts0: seq<Prompt>, saved0: seq<Record>,
                            pending: seq<string>, prompts: seq<Prompt>, saved: seq<Record>, r: Outcome<()>)
  {
    if |checkpoints| > 0 then r == Ok(()) && pending == stream && prompts == prompts0 && saved == saved0
    else
      var answered := WellFormedRecords(stream, parser);
      && (|answered| >= n ==> r == Ok(()) && saved == saved0 + Accepted(accepts, answered[..n]))
      && (|answered| < n ==> r == Stalled && saved == saved0 + Accepted(accepts, answered))
      && |pending| <= |stream|
      && prompts == prompts0 + Repeat(prompt, |stream| - |pending|)
  }

  /** A run that got through all `n` titles has its result. */
  lemma RunEnd(checkpoints: Checkpoints, stream: seq<string>, answered: seq<Record>, parser: OutputParser,
               prompt: Prompt, accepts: Record -> bool, n: nat, prompts0: seq<Prompt>, saved0: seq<Record>,
               pending: seq<string>, prompts: seq<Prompt>, saved: seq<Record>)
    requires RunState(checkpoints, stream, answered, parser, prompt, accepts, n, prompts0, saved0, pending, prompts, saved)
    ensures RunResult(checkpoints, stream, parser, prompt, accepts, n, prompts0, saved0, pending, prompts, saved, Ok(()))
  {
  }

  /** The state of a screening run after `i` titles without a stall. With checkpoints every
      title fails before the model is asked, so nothing changes; without, the model has answered
      `i` prompts and the accepted answers among them have been saved. */
  ghost predicate RunState(checkpoints: Checkpoints, stream: seq<string>, answered: seq<Record>, parser: OutputParser,
                           prompt: Prompt, accepts: Record -> bool, i: int, prompts0: seq<Prompt>, saved0: seq<Record>,
                           pending: seq<string>, prompts: seq<Prompt>, saved: seq<Record>)
  {
    if |checkpoints| > 0 then pending == stream && prompts == prompts0 && saved == saved0
    else
      && ScreeningProgress(stream, pending, answered, i, parser)
      && saved == saved0 + Accepted(accepts, answered[..i])
      && prompts == prompts0 + Repeat(prompt, |stream| - |pending|)
  }

  /** One title of a screening run: from the outcome of screening it, the run either stalls
      with every parsing response used up, or moves on to the next title. */
  lemma RunStep(checkpoints: Checkpoints, stream: seq<string>, answered: seq<Record>, parser: OutputParser,
                prompt: Prompt, accepts: Record -> bool, i: int, prompts0: seq<Prompt>, saved0: seq<Record>,
                pending: seq<string>, prompts: seq<Prompt>, saved: seq<Record>,
                pending': seq<string>, prompts': seq<Prompt>, saved': seq<Record>, outcome: Outcome<()>)
    requires RunState(checkpoints, stream, answered, parser, prompt, accepts, i, prompts0, saved0, pending, prompts, saved)
    requires |checkpoints| > 0 ==> outcome == Ok(()) && pending' == pending && prompts' == prompts && saved' == saved
    requires |checkpoints| == 0 ==>
      var answer := Ask(pending, parser);
      && pending' == answer.rest
      && prompts' == prompts + Repeat(prompt, |pending| - |pending'|)
      && (answer.result.Stalled? ==> outcome == Stalled && saved' == saved)
      && (answer.result.Ok? ==> outcome == Ok(()) && saved' == saved + Accepted(accepts, [answer.result.value]))
    ensures outcome.Stalled? ==>
      && |checkpoints| == 0 && i == |answered|
      && saved' == saved0 + Accepted(accepts, answered)
      && |pending'| <= |stream|
      && prompts' == prompts0 + Repeat(prompt, |stream| - |pending'|)
      && (forall n: nat :: i < n ==> RunResult(checkpoints, stream, parser, prompt, accepts, n, prompts0, saved0, pending', prompts', saved', outcome))
    ensures !outcome.Stalled? ==>
      RunState(checkpoints, stream, answered, parser, prompt, accepts, i + 1, prompts0, saved0, pending', prompts', saved')
  {
    if |checkpoints| == 0 {
      if Ask(pending, parser).result.Stalled? {
        StallStep(stream, answered, parser, prompt, accepts, i, prompts0, saved0, pending, prompts, saved,
                  pending', prompts');
      } else {
        AnswerStep(stream, answered, parser, prompt, accepts, i, prompts0, saved0, pending, prompts, saved,
                   pending', prompts', saved');
      }
    }
  }

  /** A title whose prompt gets no parsing response: every parsing response has been used. */
  lemma StallStep(stream: seq<string>, answered: seq<Record>, parser: OutputParser,
                  prompt: Prompt, accepts: Record -> bool, i: int, prompts0: seq<Prompt>, saved0: seq<Record>,
                  pending: seq<string>, prompts: seq<Prompt>, saved: seq<Record>,
                  pending': seq<string>, prompts': seq<Prompt>)
    requires ScreeningProgress(stream, pending, answered, i, parser)
    requires saved == saved0 + Accepted(accepts, answered[..i])
    requires prompts == prompts0 + Repeat(prompt, |stream| - |pending|)
    requires Ask(pending, parser).result.Stalled? && pending' == Ask(pending, parser).rest
    requires prompts' == prompts + Repeat(prompt, |pending| - |pending'|)
    ensures i == |answered| && saved == saved0 + Accepted(accepts, answered)
    ensures |pending'| <= |stream| && prompts' == prompts0 + Repeat(prompt, |stream| - |pending'|)
  {
    ProgressStep(stream, pending, pending', answered, i, parser);
    RepeatAppend(prompts0, prompt, |stream| - |pending|, |pending| - |pending'|);
    assert answered[..i] == answered;
  }

  /** A title whose prompt gets a parsing response: it is the next of the parsing responses,
      and it is saved when the store accepts it. */
  lemma AnswerStep(stream: seq<string>, answered: seq<Record>, parser: OutputParser,
                   prompt: Prompt, accepts: Record -> bool, i: int, prompts0: seq<Prompt>, saved0: seq<Record>,
                   pending: seq<string>, prompts: seq<Prompt>, saved: seq<Record>,
                   pending': seq<string>, prompts': seq<Prompt>, saved': seq<Record>)
    requires ScreeningProgress(stream, pending, answered, i, parser)
    requires saved == saved0 + Accepted(accepts, answered[..i])
    requires prompts == prompts0 + Repeat(prompt, |stream| - |pending|)
    requires Ask(pending, parser).result.Ok? && pending' == Ask(pending, parser).rest
    requires prompts' == prompts + Repeat(prompt, |pending| - |pending'|)
    requires saved' == saved + Accepted(accepts, [Ask(pending, parser).result.value])
    ensures ScreeningProgress(stream, pending', answered, i + 1, parser)
    ensures saved' == saved0 + Accepted(accepts, answered[..i + 1])
    ensures prompts' == prompts0 + Repeat(prompt, |stream| - |pending'|)
  {
    ProgressStep(stream, pending, pending', answered, i, parser);
    RepeatAppend(prompts0, prompt, |stream| - |pending|, |pending| - |pending'|);
    AcceptedStep(accepts, answered, i);
  }

  /** After `i` titles without a stall: the model has used a prefix of the stream, and the
      parsing responses still to come are those of the stream after the `i` used ones. */
  ghost predicate ScreeningProgress(stream: seq<string>, pending: seq<string>, answered: seq<Record>, i: int,
                                    parser: OutputParser)
  {
    && answered == WellFormedRecords(stream, parser)
    && 0 <= i <= |answered|
    && |pending| <= |stream| && pending == stream[|stream| - |pending|..]
    && WellFormedRecords(pending, parser) == answered[i..]
  }

  /** One title of a screening run without checkpoints uses the next parsing response. */
  lemma ProgressStep(stream: seq<string>, before: seq<string>, after: seq<string>, answered: seq<Record>,
                     i: int, parser: OutputParser)
    requires ScreeningProgress(stream, before, answered, i, parser)
    requires after == Ask(before, parser).rest
    ensures |after| <= |stream| && after == stream[|stream| - |after|..]
    ensures Ask(before, parser).result.Stalled? <==> i == |answered|
    ensures Ask(before, parser).result.Ok? ==>
      ScreeningProgress(stream, after, answered, i + 1, parser) && Ask(before, parser).result.value == answered[i]
  {
    AskTakesNextRecord(before, parser);
    match FirstWellFormed(before, parser) {
      case None =>
      case Some(k) =>
        assert after == before[k + 1..];
        assert answered[i..][1..] == answered[i + 1..];
    }
  }

  /** Saving the next accepted record extends the accepted prefix by one record. */
  lemma AcceptedStep(accepts: Record -> bool, answered: seq<Record>, i: int)
    requires 0 <= i < |answered|
    ensures Accepted(accepts, answered[..i + 1]) == Accepted(accepts, answered[..i]) + Accepted(accepts, [answered[i]])
  {
    assert answered[..i + 1][..i] == answered[..i];
  }

  /** A suffix of a suffix of `s` is a suffix of `s`. */
  lemma SuffixOfSuffix(s: seq<string>, t: seq<string>, u: seq<string>)
    requires |t| <= |s| && t == s[|s| - |t|..]
    requires |u| <= |t| && u == t[|t| - |u|..]
    ensures u == s[|s| - |u|..]
  {
  }
}
