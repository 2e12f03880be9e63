/** The decisions of the criteria optimizer, as functions of the state its collaborators are in:
    which positions of the importance vector are refined, what refining one checkpoint asks the
    language model and the user, and what is written back. The optimizer's methods are proved
    against these functions; the lemmas state what they promise. */
module Refinement {
  import opened Wrappers
  import opened PyValues
  import opened PyStrings
  import opened SimilaritySearcher
  import opened Gateways
  import opened DataManager

  /** The settings the optimizer reads when it is built: `FEATURE_IMPORTANCE_THRESHOLD`, the raw
      `IMPORTANCE_GREATER_THAN_THRESHOLD` value, `MAX_FEATURE_IMPROVEMENT_DOCUMENTS`,
      `NUMBER_EXPERT_CHOICES`, and the output parser of its prompts. */
  datatype Config = Config(threshold: real, flag: PyValue, maxDocuments: int, choices: int, parser: OutputParser)
  {
    function Instructions(): string
    {
      parser.FormatInstructions()
    }
  }

  /** `__get_output_parser`: one field, the improved checkpoint. */
  function ImprovementParser(lib: ParserLib): (parser: OutputParser)
    ensures parser.lib == lib
    ensures FieldNames(parser.schemas) == ["improved checkpoint"]
  {
    OutputParser(lib, [ResponseSchema("improved checkpoint", "The description of the checkpoint", "string")])
  }

  /** The question of the prompt that improves a checkpoint from a document's context. */
  const BetterCheckpointQuestion: string := "What is a better checkpoint?"

  // ---------------------------------------------------------------- selection

  /** `(importance > threshold) == flag`: the flag is compared as whatever value it is. */
  predicate Selected(cfg: Config, importance: real)
    ensures cfg.flag.PyBool? ==> (Selected(cfg, importance) <==> (importance > cfg.threshold) == cfg.flag.b)
    ensures cfg.flag.PyStr? || cfg.flag.PyNone? ==> !Selected(cfg, importance)
  {
    BoolEquals(importance > cfg.threshold, cfg.flag)
  }

  /** With the flag `True` a position is selected exactly when its importance is strictly above
      the threshold, and with `False` exactly when it is not; an importance equal to the
      threshold counts as not above. */
  lemma SelectedWithBoolFlag(cfg: Config, importance: real)
    requires cfg.flag.PyBool?
    ensures Selected(cfg, importance) <==> (importance > cfg.threshold) == cfg.flag.b
    ensures cfg.flag.b && importance == cfg.threshold ==> !Selected(cfg, importance)
  {
  }

  /** A string flag, such as the text 'True' read from a configuration file, never equals a
      bool: no position is selected. */
  lemma StringFlagSelectsNothing(cfg: Config, importance: real)
    requires cfg.flag.PyStr?
    ensures !Selected(cfg, importance)
  {
  }

  /** The number of iterations of `range(n)`. */
  function RangeLength(n: int): nat
  {
    if n > 0 then n else 0
  }

  // ---------------------------------------------------------------- the collaborators' state

  /** What the optimizer's collaborators hold: the lines the user has yet to type and the
      prompts shown to them, the model's remaining responses and the prompts sent to it, and the
      searches run so far. */
  datatype World = World(inputs: seq<string>, shown: seq<Message>, pending: seq<string>, prompts: seq<Prompt>,
                         queries: seq<(string, string)>)

  /** The outcome of one part of a refinement, and the state it leaves. */
  datatype Turn<T> = Turn(result: Outcome<T>, world: World)

  /** A failure passed on to a caller that expects another kind of result. */
  function Propagate<T, U>(o: Outcome<U>): Outcome<T>
    requires !o.Ok?
  {
    if o.Raised? then Raised(o.error) else Stalled
  }

  /** `data[next(iter(data))]` on a parsed response. */
  function FirstField(o: Outcome<Record>): (v: Outcome<string>)
    ensures v.Stalled? <==> o.Stalled?
    ensures o.Ok? ==> (v.Raised? <==> o.value == []) && (v.Ok? ==> v.value == o.value[0].1)
    ensures v.Raised? ==> (o.Raised? && v.error == o.error) || v.error == StopIteration
  {
    match o
    case Ok(record) => FirstValue(record)
    case Raised(e) => Raised(e)
    case Stalled => Stalled
  }

  /** One prompt to the model, asked until a response parses, answered by the first field of
      the parse. */
  function AskValue(w: World, parser: OutputParser, prompt: Prompt): (t: Turn<string>)
    ensures t.world.inputs == w.inputs && t.world.shown == w.shown && t.world.queries == w.queries
  {
    var a := Ask(w.pending, parser);
    Turn(FirstField(a.result), w.(pending := a.rest, prompts := w.prompts + Repeat(prompt, |w.pending| - |a.rest|)))
  }

  /** `__generate_new_checkpoints`: the same prompt answered `n` times, the answers in order. */
  function Generation(w: World, parser: OutputParser, prompt: Prompt, n: nat): (t: Turn<seq<string>>)
    ensures t.result.Ok? ==> |t.result.value| == n
    ensures t.world.inputs == w.inputs && t.world.shown == w.shown && t.world.queries == w.queries
    decreases n
  {
    if n == 0 then Turn(Ok([]), w)
    else
      var before := Generation(w, parser, prompt, n - 1);
      if !before.result.Ok? then before
      else
        var next := AskValue(before.world, parser, prompt);
        if next.result.Ok? then Turn(Ok(before.result.value + [next.result.value]), next.world)
        else Turn(Propagate(next.result), next.world)
  }

  /** One more rewrite after `n` successful ones. */
  lemma GenerationNext(w: World, parser: OutputParser, prompt: Prompt, n: nat, before: Turn<seq<string>>, next: Turn<string>)
    requires before == Generation(w, parser, prompt, n) && before.result.Ok?
    requires next == AskValue(before.world, parser, prompt)
    ensures next.result.Ok? ==> Generation(w, parser, prompt, n + 1) == Turn(Ok(before.result.value + [next.result.value]), next.world)
    ensures !next.result.Ok? ==> Generation(w, parser, prompt, n + 1) == Turn(Propagate(next.result), next.world)
  {
  }

  /** The first failed rewrite ends the rewrites. */
  lemma {:induction false} GenerationFailureEnds(w: World, parser: OutputParser, prompt: Prompt, n: nat, m: nat)
    requires n <= m && !Generation(w, parser, prompt, n).result.Ok?
    ensures Generation(w, parser, prompt, m) == Generation(w, parser, prompt, n)
    decreases m
  {
    if m > n {
      GenerationFailureEnds(w, parser, prompt, n, m - 1);
    }
  }

  // ---------------------------------------------------------------- the expert's choice

  /** The numerals `str(1)` to `str(n)`. */
  function Numerals(n: nat): (ns: seq<string>)
    ensures |ns| == n && forall i :: 0 <= i < n ==> ns[i] == NatToString(i + 1)
  {
    seq(n, i requires 0 <= i < n => NatToString(i + 1))
  }

  /** `"[" + "/".join(map(str, range(1, n + 1))) + "]"`. */
  function ChoiceString(n: nat): (s: string)
    ensures |s| >= 2 && s[0] == '[' && s[|s| - 1] == ']'
  {
    "[" + Join(Numerals(n), "/") + "]"
  }

  /** `int(line)` accepted as one of `n` options: a number from 1 to `n`. */
  function ChoiceOf(line: string, n: int): (c: Option<int>)
    ensures c.Some? ==> 1 <= c.value <= n
  {
    var c := ParseInt(line);
    if c.Some? && 1 <= c.value <= n then c else None
  }

  /** `__ask_for_expert_choice`: the choice string is built once, then the user is asked until
      a line names one of the options, by its number; the named option is returned. */
  function ChoiceRun(w: World, options: seq<string>): (t: Turn<string>)
    ensures t.world.pending == w.pending && t.world.prompts == w.prompts && t.world.queries == w.queries
  {
    ChoiceLoop(w, options, ChoicePrompt(ChoiceString(|options|), options))
  }

  /** The `while True` loop of `__ask_for_expert_choice`, showing the message `m` each time. */
  function ChoiceLoop(w: World, options: seq<string>, m: Message): (t: Turn<string>)
    ensures t.world.pending == w.pending && t.world.prompts == w.prompts && t.world.queries == w.queries
    ensures !t.result.Raised?
    ensures t.result.Ok? ==> t.result.value in options && |t.world.inputs| < |w.inputs|
    ensures |t.world.inputs| <= |w.inputs|
    decreases |w.inputs|
  {
    if |w.inputs| == 0 then Turn(Stalled, w)
    else
      var asked := w.(inputs := w.inputs[1..], shown := w.shown + [m]);
      var c := ChoiceOf(w.inputs[0], |options|);
      if c.Some? then Turn(Ok(options[c.value - 1]), asked) else ChoiceLoop(asked, options, m)
  }

  /** One question of the choice loop: the next line is read and the message shown. */
  lemma ChoiceLoopStep(w: World, options: seq<string>, m: Message, c: Option<int>)
    requires |w.inputs| > 0 && c == ChoiceOf(w.inputs[0], |options|)
    ensures c.Some? ==> (1 <= c.value <= |options|
      && ChoiceLoop(w, options, m) == Turn(Ok(options[c.value - 1]), w.(inputs := w.inputs[1..], shown := w.shown + [m])))
    ensures c.None? ==> ChoiceLoop(w, options, m) == ChoiceLoop(w.(inputs := w.inputs[1..], shown := w.shown + [m]), options, m)
  {
  }

  // ---------------------------------------------------------------- propositions

  /** `check_propositions`: the user answers 'n' to keep the propositions, or 'y' followed by
      annotations to have new ones generated from them; any other answer is asked again. */
  function CheckRun(cfg: Config, w: World, current: string, options: seq<string>): (t: Turn<seq<string>>)
    ensures |t.world.inputs| <= |w.inputs|
    ensures t.result.Ok? ==> |t.world.inputs| < |w.inputs|
    decreases |w.inputs|, 0
  {
    if |w.inputs| == 0 then Turn(Stalled, w)
    else
      var asked := w.(inputs := w.inputs[1..], shown := w.shown + [PropositionsPrompt(current, options)]);
      if w.inputs[0] == "y" then
        if |asked.inputs| == 0 then Turn(Stalled, asked)
        else
          var annotated := asked.(inputs := asked.inputs[1..], shown := asked.shown + [AnnotationsPrompt]);
          ExpertRun(cfg, annotated, current, Some(asked.inputs[0]))
      else if w.inputs[0] == "n" then Turn(Ok(options), asked)
      else CheckRun(cfg, asked, current, options)
  }

  /** `__expert_feature_improvement`: `NUMBER_EXPERT_CHOICES` rewrites of the checkpoint with
      the notes, then the user's verdict on them. */
  function ExpertRun(cfg: Config, w: World, current: string, notes: Option<string>): (t: Turn<seq<string>>)
    ensures |t.world.inputs| <= |w.inputs|
    ensures t.result.Ok? ==> |t.world.inputs| < |w.inputs|
    decreases |w.inputs|, 1
  {
    var generated := Generation(w, cfg.parser, RewritePrompt(current, notes, cfg.Instructions()), RangeLength(cfg.choices));
    if generated.result.Ok? then CheckRun(cfg, generated.world, current, generated.result.value) else generated
  }

  // ---------------------------------------------------------------- grounded candidates

  /** The loop over the titles of the advanced refinement: per title one search for the
      checkpoint, then a rewrite of the checkpoint grounded in the search's hits. */
  function Candidates(cfg: Config, searcher: SimilaritySearcher, w: World, titles: seq<string>, current: string,
                      notes: Option<string>): (t: Turn<seq<string>>)
    ensures t.world.inputs == w.inputs && t.world.shown == w.shown
    decreases |titles|
  {
    if |titles| == 0 then Turn(Ok([]), w)
    else
      var before := Candidates(cfg, searcher, w, titles[..|titles| - 1], current, notes);
      if !before.result.Ok? then before
      else
        var title := titles[|titles| - 1];
        var searched := before.world.(queries := before.world.queries + [(title, current)]);
        var hits := searcher.Results(title, current);
        var next := AskValue(searched, cfg.parser,
                             GroundedPrompt(hits, current, notes, BetterCheckpointQuestion, cfg.Instructions()));
        if next.result.Ok? then Turn(Ok(before.result.value + [next.result.value]), next.world)
        else Turn(Propagate(next.result), next.world)
  }

  /** `[xs[i:i + size] for i in range(0, len(xs), size)]`. */
  function Groups(xs: seq<string>, size: nat): (groups: seq<seq<string>>)
    requires size > 0
    ensures |groups| == 0 <==> |xs| == 0
    ensures |groups| <= |xs|
    decreases |xs|
  {
    if |xs| == 0 then []
    else if |xs| <= size then [xs]
    else [xs[..size]] + Groups(xs[size..], size)
  }

  /** `for i in range(n): averaged.append(__average_checkpoints(groups[i]))`. */
  function Averages(cfg: Config, w: World, groups: seq<seq<string>>, n: nat): (t: Turn<seq<string>>)
    ensures t.result.Ok? ==> n <= |groups| && |t.result.value| == n
    ensures t.world.inputs == w.inputs && t.world.shown == w.shown && t.world.queries == w.queries
    decreases n
  {
    if n == 0 then Turn(Ok([]), w)
    else
      var before := Averages(cfg, w, groups, n - 1);
      if !before.result.Ok? then before
      else if n - 1 >= |groups| then Turn(Raised(IndexError), before.world)
      else
        var next := AskValue(before.world, cfg.parser, AveragingPrompt(groups[n - 1], cfg.Instructions()));
        if next.result.Ok? then Turn(Ok(before.result.value + [next.result.value]), next.world)
        else Turn(Propagate(next.result), next.world)
  }

  /** One more candidate after the candidates of the first `n` titles. */
  lemma CandidatesNext(cfg: Config, searcher: SimilaritySearcher, w: World, titles: seq<string>, current: string,
                       notes: Option<string>, n: nat, before: Turn<seq<string>>, next: Turn<string>)
    requires n < |titles| && before == Candidates(cfg, searcher, w, titles[..n], current, notes) && before.result.Ok?
    requires next == AskValue(before.world.(queries := before.world.queries + [(titles[n], current)]), cfg.parser,
                              GroundedPrompt(searcher.Results(titles[n], current), current, notes, BetterCheckpointQuestion,
                                             cfg.Instructions()))
    ensures next.result.Ok? ==>
      Candidates(cfg, searcher, w, titles[..n + 1], current, notes) == Turn(Ok(before.result.value + [next.result.value]), next.world)
    ensures !next.result.Ok? ==>
      Candidates(cfg, searcher, w, titles[..n + 1], current, notes) == Turn(Propagate(next.result), next.world)
  {
    assert titles[..n + 1][..n] == titles[..n];
  }

  /** The first failed candidate ends the loop over the titles. */
  lemma {:induction false} CandidatesFailureEnds(cfg: Config, searcher: SimilaritySearcher, w: World, titles: seq<string>,
                                                 current: string, notes: Option<string>, n: nat, m: nat)
    requires n <= m <= |titles| && !Candidates(cfg, searcher, w, titles[..n], current, notes).result.Ok?
    ensures Candidates(cfg, searcher, w, titles[..m], current, notes) == Candidates(cfg, searcher, w, titles[..n], current, notes)
    decreases m
  {
    if m > n {
      CandidatesFailureEnds(cfg, searcher, w, titles, current, notes, n, m - 1);
      assert titles[..m][..m - 1] == titles[..m - 1];
    }
  }

  /** One more average after the first `n`. */
  lemma AveragesNext(cfg: Config, w: World, groups: seq<seq<string>>, n: nat, before: Turn<seq<string>>, next: Turn<string>)
    requires n < |groups| && before == Averages(cfg, w, groups, n) && before.result.Ok?
    requires next == AskValue(before.world, cfg.parser, AveragingPrompt(groups[n], cfg.Instructions()))
    ensures next.result.Ok? ==> Averages(cfg, w, groups, n + 1) == Turn(Ok(before.result.value + [next.result.value]), next.world)
    ensures !next.result.Ok? ==> Averages(cfg, w, groups, n + 1) == Turn(Propagate(next.result), next.world)
  {
  }

  /** The first failed average ends the averaging. */
  lemma {:induction false} AveragesFailureEnds(cfg: Config, w: World, groups: seq<seq<string>>, n: nat, m: nat)
    requires n <= m && !Averages(cfg, w, groups, n).result.Ok?
    ensures Averages(cfg, w, groups, m) == Averages(cfg, w, groups, n)
    decreases m
  {
    if m > n {
      AveragesFailureEnds(cfg, w, groups, n, m - 1);
      AveragesStopAfterFailure(cfg, w, groups, m);
    }
  }

  /** A failed average is repeated by the next one. */
  lemma AveragesStopAfterFailure(cfg: Config, w: World, groups: seq<seq<string>>, m: nat)
    requires m > 0 && !Averages(cfg, w, groups, m - 1).result.Ok?
    ensures Averages(cfg, w, groups, m) == Averages(cfg, w, groups, m - 1)
  {
  }

  // ---------------------------------------------------------------- one refinement step

  /** The outcome of refining, the checkpoint values it leaves, and the collaborators' state. */
  datatype Pass = Pass(result: Outcome<()>, values: map<string, string>, world: World)

  /** The four refinements. */
  datatype Strategy =
    | Automated
    | Expert(annotations: Option<string>)
    | ContextAware
    | Advanced(annotations: Option<string>)

  predicate KeysPresent(keys: seq<string>, values: map<string, string>)
  {
    forall j :: 0 <= j < |keys| ==> keys[j] in values
  }

  /** A selected checkpoint of `automated_feature_improvement`: one rewrite, which replaces it. */
  function AutomatedStep(cfg: Config, key: string, values: map<string, string>, w: World): (s: Pass)
    requires key in values
    ensures s.values.Keys == values.Keys
    ensures forall k :: k in values && k != key ==> s.values[k] == values[k]
  {
    var generated := Generation(w, cfg.parser, RewritePrompt(values[key], None, cfg.Instructions()), 1);
    if generated.result.Ok? then Pass(Ok(()), values[key := generated.result.value[0]], generated.world)
    else Pass(Propagate(generated.result), values, generated.world)
  }

  /** A selected checkpoint of `expert_feature_improvement`: propositions the user accepts,
      then the one the user chooses. */
  function ExpertStep(cfg: Config, notes: Option<string>, key: string, values: map<string, string>, w: World): (s: Pass)
    requires key in values
    ensures s.values.Keys == values.Keys
    ensures forall k :: k in values && k != key ==> s.values[k] == values[k]
  {
    var proposed := ExpertRun(cfg, w, values[key], notes);
    if !proposed.result.Ok? then Pass(Propagate(proposed.result), values, proposed.world)
    else
      var choice := ChoiceRun(proposed.world, proposed.result.value);
      if choice.result.Ok? then Pass(Ok(()), values[key := choice.result.value], choice.world)
      else Pass(Propagate(choice.result), values, choice.world)
  }

  /** A selected checkpoint of `context_aware_feature_improvement`. The rewrite of each title's
      context is called without its `annotations` argument, a TypeError once the first title's
      search has run; with no title, the average of no candidates replaces the checkpoint. */
  function ContextAwareStep(cfg: Config, dm: DocumentManager, key: string, values: map<string, string>, w: World): (s: Pass)
    requires key in values
    ensures s.values.Keys == values.Keys
    ensures forall k :: k in values && k != key ==> s.values[k] == values[k]
  {
    var titles := Take(dm.RunnableTitles(), cfg.maxDocuments);
    if |titles| > 0 then Pass(Raised(TypeError), values, w.(queries := w.queries + [(titles[0], values[key])]))
    else
      var averaged := AskValue(w, cfg.parser, AveragingPrompt([], cfg.Instructions()));
      if averaged.result.Ok? then Pass(Ok(()), values[key := averaged.result.value], averaged.world)
      else Pass(Propagate(averaged.result), values, averaged.world)
  }

  /** The position whose key a step at position `p` writes: the advanced refinement's inner
      `for i in range(NUMBER_EXPERT_CHOICES)` rebinds `i`, so it writes the key at
      `NUMBER_EXPERT_CHOICES - 1` whenever that loop runs. */
  function WrittenPosition(cfg: Config, strategy: Strategy, p: nat): (q: nat)
    ensures !strategy.Advanced? ==> q == p
    ensures q == p || q < cfg.choices
  {
    if strategy.Advanced? && cfg.choices > 0 then cfg.choices - 1 else p
  }

  /** `k` is the key at position `q`. */
  predicate KeyAt(keys: seq<string>, q: int, k: string)
  {
    0 <= q < |keys| && keys[q] == k
  }

  /** A selected checkpoint of `advanced_feature_improvement`: grounded candidates, their
      groups averaged, the user's choice among the averages. */
  function AdvancedStep(cfg: Config, dm: DocumentManager, searcher: SimilaritySearcher, notes: Option<string>,
                        keys: seq<string>, p: nat, values: map<string, string>, w: World): (s: Pass)
    requires p < |keys| && KeysPresent(keys, values)
    ensures s.values.Keys == values.Keys
    ensures forall k :: k in values && !KeyAt(keys, WrittenPosition(cfg, Advanced(notes), p), k) ==> s.values[k] == values[k]
  {
    var titles := Take(dm.RunnableTitles(), cfg.maxDocuments);
    var candidates := Candidates(cfg, searcher, w, titles, values[keys[p]], notes);
    if !candidates.result.Ok? then Pass(Propagate(candidates.result), values, candidates.world)
    else AdvancedChoice(cfg, notes, keys, p, values, candidates.result.value, candidates.world)
  }

  /** The rest of an advanced step once the candidates are drawn: `range(0, len(candidates),
      NUMBER_EXPERT_CHOICES)` (a ValueError for a zero step), the averages of the first
      `NUMBER_EXPERT_CHOICES` groups, and the user's choice among them. */
  function AdvancedChoice(cfg: Config, notes: Option<string>, keys: seq<string>, p: nat, values: map<string, string>,
                          candidates: seq<string>, w: World): (s: Pass)
    requires KeysPresent(keys, values)
    ensures s.values.Keys == values.Keys
    ensures forall k :: k in values && !KeyAt(keys, WrittenPosition(cfg, Advanced(notes), p), k) ==> s.values[k] == values[k]
  {
    if cfg.choices == 0 then Pass(Raised(ValueError), values, w)
    else
      var groups := if cfg.choices > 0 then Groups(candidates, cfg.choices) else [];
      var averaged := Averages(cfg, w, groups, RangeLength(cfg.choices));
      if !averaged.result.Ok? then Pass(Propagate(averaged.result), values, averaged.world)
      else
        var choice := ChoiceRun(averaged.world, averaged.result.value);
        var q := WrittenPosition(cfg, Advanced(notes), p);
        if !choice.result.Ok? then Pass(Propagate(choice.result), values, choice.world)
        else if q >= |keys| then Pass(Raised(IndexError), values, choice.world)
        else Pass(Ok(()), values[keys[q] := choice.result.value], choice.world)
  }

  function Step(cfg: Config, dm: DocumentManager, searcher: SimilaritySearcher, strategy: Strategy,
                keys: seq<string>, p: nat, values: map<string, string>, w: World): (s: Pass)
    requires p < |keys| && KeysPresent(keys, values)
    ensures s.values.Keys == values.Keys
    ensures forall k :: k in values && !KeyAt(keys, WrittenPosition(cfg, strategy, p), k) ==> s.values[k] == values[k]
  {
    match strategy
    case Automated => AutomatedStep(cfg, keys[p], values, w)
    case Expert(notes) => ExpertStep(cfg, notes, keys[p], values, w)
    case ContextAware => ContextAwareStep(cfg, dm, keys[p], values, w)
    case Advanced(notes) => AdvancedStep(cfg, dm, searcher, notes, keys, p, values, w)
  }

  /** The loop of a refinement over the first `n` importances: each selected position is
      refined in turn, a selected position past the keys is an IndexError, and the first
      failure ends the loop. */
  function Refine(cfg: Config, dm: DocumentManager, searcher: SimilaritySearcher, strategy: Strategy,
                  keys: seq<string>, importances: seq<real>, values: map<string, string>, w: World, n: nat): (r: Pass)
    requires n <= |importances| && KeysPresent(keys, values)
    ensures r.values.Keys == values.Keys
    decreases n
  {
    if n == 0 then Pass(Ok(()), values, w)
    else
      var before := Refine(cfg, dm, searcher, strategy, keys, importances, values, w, n - 1);
      if !before.result.Ok? || !Selected(cfg, importances[n - 1]) then before
      else if n - 1 >= |keys| then Pass(Raised(IndexError), before.values, before.world)
      else Step(cfg, dm, searcher, strategy, keys, n - 1, before.values, before.world)
  }

  // ---------------------------------------------------------------- what one prompt yields

  /** The first fields of some parsed responses. */
  function FirstFields(records: seq<Record>, n: nat): (fields: seq<string>)
    requires NonEmptyPrefix(records, n)
    ensures |fields| == n && forall j :: 0 <= j < n ==> fields[j] == records[j][0].1
  {
    seq(n, j requires 0 <= j < n => records[j][0].1)
  }

  /** A prompt takes the next parsing response: it stalls when none is left, raises
      StopIteration when that response parses to an empty object, and otherwise answers with its
      first field; the parsing responses after it are still to come. */
  lemma AskValueTakesNextRecord(w: World, parser: OutputParser, prompt: Prompt)
    ensures AskValue(w, parser, prompt).result.Stalled? <==> WellFormedRecords(w.pending, parser) == []
    ensures WellFormedRecords(w.pending, parser) != [] ==>
      && AskValue(w, parser, prompt).result == FirstValue(WellFormedRecords(w.pending, parser)[0])
      && WellFormedRecords(AskValue(w, parser, prompt).world.pending, parser) == WellFormedRecords(w.pending, parser)[1..]
  {
    AskTakesNextRecord(w.pending, parser);
  }

  /** There are at least `n` records and none of the first `n` is empty. */
  predicate NonEmptyPrefix(records: seq<Record>, n: nat)
  {
    n <= |records| && forall j :: 0 <= j < n ==> records[j] != []
  }

  /** A prefix of a prefix without empty records has none either. */
  lemma NonEmptyPrefixShorter(records: seq<Record>, n: nat)
    requires n > 0
    ensures NonEmptyPrefix(records, n) ==> NonEmptyPrefix(records, n - 1)
  {
  }

  /** `n` rewrites succeed exactly when there are `n` parsing responses left, none of them
      empty; they then take the first fields of those responses, and the parsing responses
      after them are still to come. */
  lemma {:induction false} GenerationTakesRecords(w: World, parser: OutputParser, prompt: Prompt, n: nat)
    ensures Generation(w, parser, prompt, n).result.Ok? <==> NonEmptyPrefix(WellFormedRecords(w.pending, parser), n)
    ensures NonEmptyPrefix(WellFormedRecords(w.pending, parser), n) ==>
      && Generation(w, parser, prompt, n).result == Ok(FirstFields(WellFormedRecords(w.pending, parser), n))
      && WellFormedRecords(Generation(w, parser, prompt, n).world.pending, parser) == WellFormedRecords(w.pending, parser)[n..]
  {
    TakesRecordsUpTo(w, parser, prompt, n);
  }

  /** What the previous lemma states of `n` rewrites. */
  ghost predicate TakesRecords(w: World, parser: OutputParser, prompt: Prompt, n: nat)
  {
    && (Generation(w, parser, prompt, n).result.Ok? <==> NonEmptyPrefix(WellFormedRecords(w.pending, parser), n))
    && (NonEmptyPrefix(WellFormedRecords(w.pending, parser), n) ==>
      && Generation(w, parser, prompt, n).result == Ok(FirstFields(WellFormedRecords(w.pending, parser), n))
      && WellFormedRecords(Generation(w, parser, prompt, n).world.pending, parser) == WellFormedRecords(w.pending, parser)[n..])
  }

  /** The induction behind the previous lemma, one rewrite at a time. */
  lemma {:induction false} TakesRecordsUpTo(w: World, parser: OutputParser, prompt: Prompt, n: nat)
    ensures TakesRecords(w, parser, prompt, n)
    decreases n
  {
    if n == 0 {
      GenerationTakesNone(w, parser, prompt);
    } else {
      TakesRecordsUpTo(w, parser, prompt, n - 1);
      GenerationTakesOneMore(w, parser, prompt, n);
    }
  }

  /** No rewrite takes no record. */
  lemma GenerationTakesNone(w: World, parser: OutputParser, prompt: Prompt)
    ensures Generation(w, parser, prompt, 0) == Turn(Ok([]), w)
    ensures NonEmptyPrefix(WellFormedRecords(w.pending, parser), 0)
    ensures FirstFields(WellFormedRecords(w.pending, parser), 0) == []
  {
  }

  /** The inductive step of the previous lemma: what holds after `n - 1` rewrites holds after `n`. */
  lemma GenerationTakesOneMore(w: World, parser: OutputParser, prompt: Prompt, n: nat)
    requires n > 0
    requires Generation(w, parser, prompt, n - 1).result.Ok? <==> NonEmptyPrefix(WellFormedRecords(w.pending, parser), n - 1)
    requires NonEmptyPrefix(WellFormedRecords(w.pending, parser), n - 1) ==>
      && Generation(w, parser, prompt, n - 1).result == Ok(FirstFields(WellFormedRecords(w.pending, parser), n - 1))
      && WellFormedRecords(Generation(w, parser, prompt, n - 1).world.pending, parser) == WellFormedRecords(w.pending, parser)[n - 1..]
    ensures Generation(w, parser, prompt, n).result.Ok? <==> NonEmptyPrefix(WellFormedRecords(w.pending, parser), n)
    ensures NonEmptyPrefix(WellFormedRecords(w.pending, parser), n) ==>
      && Generation(w, parser, prompt, n).result == Ok(FirstFields(WellFormedRecords(w.pending, parser), n))
      && WellFormedRecords(Generation(w, parser, prompt, n).world.pending, parser) == WellFormedRecords(w.pending, parser)[n..]
  {
    var records := WellFormedRecords(w.pending, parser);
    var before := Generation(w, parser, prompt, n - 1);
    if before.result.Ok? {
      AskValueTakesRecord(records, before, parser, prompt, n);
    } else {
      NonEmptyPrefixShorter(records, n);
    }
  }

  /** The `n`-th rewrite takes the `n`-th parsing response, and succeeds exactly when there is
      one and it is not empty. */
  lemma AskValueTakesRecord(records: seq<Record>, before: Turn<seq<string>>, parser: OutputParser, prompt: Prompt, n: nat)
    requires 0 < n && NonEmptyPrefix(records, n - 1)
    requires before.result == Ok(FirstFields(records, n - 1))
    requires WellFormedRecords(before.world.pending, parser) == records[n - 1..]
    ensures var next := AskValue(before.world, parser, prompt);
      && (next.result.Ok? <==> NonEmptyPrefix(records, n))
      && (NonEmptyPrefix(records, n) ==>
            && next.result == Ok(records[n - 1][0].1)
            && WellFormedRecords(next.world.pending, parser) == records[n..]
            && before.result.value + [next.result.value] == FirstFields(records, n))
  {
    AskValueTakesNextRecord(before.world, parser, prompt);
    if n <= |records| {
      var rest := records[n - 1..];
      assert rest[0] == records[n - 1] && rest[1..] == records[n..];
      if records[n - 1] != [] {
        assert before.result.value + [records[n - 1][0].1] == FirstFields(records, n);
      }
    }
  }

  /** From `w` to `w'` the model used some of its next responses and was sent `prompt` once
      for each. */
  ghost predicate AskedOnly(w: World, w': World, prompt: Prompt)
  {
    && |w'.pending| <= |w.pending| && w'.pending == w.pending[|w.pending| - |w'.pending|..]
    && w'.prompts == w.prompts + Repeat(prompt, |w.pending| - |w'.pending|)
  }

  lemma AskedOnlyTrans(w1: World, w2: World, w3: World, prompt: Prompt)
    requires AskedOnly(w1, w2, prompt) && AskedOnly(w2, w3, prompt)
    ensures AskedOnly(w1, w3, prompt)
  {
    var a := |w1.pending| - |w2.pending|;
    var b := |w2.pending| - |w3.pending|;
    assert w3.pending == w1.pending[|w1.pending| - |w3.pending|..] by {
      assert w2.pending[|w2.pending| - |w3.pending|..] == w1.pending[a + b..];
    }
    RepeatAppend(w1.prompts, prompt, a, b);
  }

  /** A prompt uses a suffix of the responses and is sent once per response used. */
  lemma AskValuePrompts(w: World, parser: OutputParser, prompt: Prompt)
    ensures AskedOnly(w, AskValue(w, parser, prompt).world, prompt)
  {
  }

  /** The rewrites use a suffix of the responses and send the one prompt once per response used. */
  lemma {:induction false} GenerationPrompts(w: World, parser: OutputParser, prompt: Prompt, n: nat)
    ensures AskedOnly(w, Generation(w, parser, prompt, n).world, prompt)
    decreases n
  {
    if n == 0 {
      assert w.pending[0..] == w.pending;
      assert w.prompts + Repeat(prompt, 0) == w.prompts;
    } else {
      GenerationPrompts(w, parser, prompt, n - 1);
      var before := Generation(w, parser, prompt, n - 1);
      if before.result.Ok? {
        AskValuePrompts(before.world, parser, prompt);
        AskedOnlyTrans(w, before.world, AskValue(before.world, parser, prompt).world, prompt);
      }
    }
  }

  // ---------------------------------------------------------------- what the user's choice yields

  /** The first line that names an option settles the choice: every line up to it is used and
      each was answered by the same message. */
  lemma {:induction false} ChoicePicksFirstValid(w: World, options: seq<string>, m: Message, j: nat, c: int)
    requires j < |w.inputs| && ChoiceOf(w.inputs[j], |options|) == Some(c)
    requires forall i :: 0 <= i < j ==> ChoiceOf(w.inputs[i], |options|).None?
    ensures 1 <= c <= |options|
    ensures ChoiceLoop(w, options, m) == Turn(Ok(options[c - 1]), w.(inputs := w.inputs[j + 1..], shown := w.shown + Repeat(m, j + 1)))
    decreases j
  {
    var asked := w.(inputs := w.inputs[1..], shown := w.shown + [m]);
    ChoiceLoopStep(w, options, m, ChoiceOf(w.inputs[0], |options|));
    if j > 0 {
      NoChoiceInTail(w.inputs, |options|, j);
      ChoicePicksFirstValid(asked, options, m, j - 1, c);
      assert asked.inputs[j..] == w.inputs[j + 1..];
      RepeatPrepend(w.shown, m, j);
      assert asked.(inputs := asked.inputs[j..], shown := asked.shown + Repeat(m, j))
          == w.(inputs := w.inputs[j + 1..], shown := w.shown + Repeat(m, j + 1));
    } else {
      assert Repeat(m, 1) == [m];
    }
  }

  /** The lines before the first valid one, after the first line is read. */
  lemma NoChoiceInTail(lines: seq<string>, n: int, j: nat)
    requires 0 < j < |lines|
    requires forall i :: 0 <= i < j ==> ChoiceOf(lines[i], n).None?
    ensures forall i :: 0 <= i < j - 1 ==> ChoiceOf(lines[1..][i], n).None?
    ensures lines[1..][j - 1] == lines[j]
  {
    forall i | 0 <= i < j - 1
      ensures ChoiceOf(lines[1..][i], n).None?
    {
      assert lines[1..][i] == lines[i + 1];
    }
  }

  /** When no line names an option, the user is asked until the lines run out. */
  lemma {:induction false} ChoiceStallsWithoutValid(w: World, options: seq<string>, m: Message)
    requires forall i :: 0 <= i < |w.inputs| ==> ChoiceOf(w.inputs[i], |options|).None?
    ensures ChoiceLoop(w, options, m).result == Stalled
    ensures ChoiceLoop(w, options, m).world.inputs == []
    ensures ChoiceLoop(w, options, m).world.shown == w.shown + Repeat(m, |w.inputs|)
    decreases |w.inputs|
  {
    if |w.inputs| > 0 {
      var asked := w.(inputs := w.inputs[1..], shown := w.shown + [m]);
      ChoiceLoopStep(w, options, m, ChoiceOf(w.inputs[0], |options|));
      forall i | 0 <= i < |asked.inputs|
        ensures ChoiceOf(asked.inputs[i], |options|).None?
      {
        assert asked.inputs[i] == w.inputs[i + 1];
      }
      ChoiceStallsWithoutValid(asked, options, m);
      RepeatPrepend(w.shown, m, |asked.inputs|);
    } else {
      assert w.shown + Repeat(m, 0) == w.shown;
    }
  }

  /** With no options no line is a valid choice: the choice never ends. */
  lemma NoOptionsNeverChosen(w: World)
    ensures ChoiceRun(w, []).result == Stalled && ChoiceRun(w, []).world.inputs == []
  {
    ChoiceStallsWithoutValid(w, [], ChoicePrompt(ChoiceString(0), []));
  }

  /** Typing the number `c` of an option chooses it. */
  lemma NumeralNamesOption(options: seq<string>, c: nat)
    requires 1 <= c <= |options|
    ensures ChoiceOf(NatToString(c), |options|) == Some(c)
  {
    ParseIntOfNatToString(c);
  }

  /** The choice string is the numbers 1 to `n` between brackets, separated by '/': its inside
      splits at '/' into the numerals of 1 to `n`, each of which reads back as its number. */
  lemma ChoiceStringParts(n: nat)
    requires n >= 1
    ensures var s := ChoiceString(n);
      && s[0] == '[' && s[|s| - 1] == ']'
      && Split(s[1..|s| - 1], '/') == Numerals(n)
      && forall i :: 0 <= i < n ==> ParseInt(Numerals(n)[i]) == Some(i + 1)
  {
    var s := ChoiceString(n);
    var numerals := Numerals(n);
    forall i | 0 <= i < n
      ensures '/' !in numerals[i]
    {
      assert forall k :: 0 <= k < |numerals[i]| ==> IsDigit(numerals[i][k]);
    }
    SplitJoin(numerals, '/');
    assert s[1..|s| - 1] == Join(numerals, "/");
    forall i | 0 <= i < n
      ensures ParseInt(numerals[i]) == Some(i + 1)
    {
      ParseIntOfNatToString(i + 1);
    }
  }

  // ---------------------------------------------------------------- what the propositions yield

  /** 'y' and 'n' are the two answers `check_propositions` acts on. */
  predicate IsVerdict(line: string)
  {
    line == "y" || line == "n"
  }

  /** The first 'y' or 'n' settles the propositions: 'n' keeps them; 'y' followed by a line
      generates new ones from that line as annotations; every answer before it was asked again. */
  lemma {:induction false} CheckSkipsToVerdict(cfg: Config, w: World, current: string, options: seq<string>, j: nat)
    requires j < |w.inputs| && IsVerdict(w.inputs[j])
    requires forall i :: 0 <= i < j ==> !IsVerdict(w.inputs[i])
    ensures var shown := w.shown + Repeat(PropositionsPrompt(current, options), j + 1);
      && (w.inputs[j] == "n" ==>
            CheckRun(cfg, w, current, options) == Turn(Ok(options), w.(inputs := w.inputs[j + 1..], shown := shown)))
      && (w.inputs[j] == "y" && j + 1 < |w.inputs| ==>
            CheckRun(cfg, w, current, options)
            == ExpertRun(cfg, w.(inputs := w.inputs[j + 2..], shown := shown + [AnnotationsPrompt]), current, Some(w.inputs[j + 1])))
      && (w.inputs[j] == "y" && j + 1 == |w.inputs| ==> CheckRun(cfg, w, current, options).result == Stalled)
    decreases j
  {
    var m := PropositionsPrompt(current, options);
    var asked := w.(inputs := w.inputs[1..], shown := w.shown + [m]);
    if j > 0 {
      assert !IsVerdict(w.inputs[0]);
      assert forall i :: 0 <= i < j - 1 ==> asked.inputs[i] == w.inputs[i + 1];
      CheckSkipsToVerdict(cfg, asked, current, options, j - 1);
      assert asked.inputs[j..] == w.inputs[j + 1..];
      assert j + 1 < |w.inputs| ==> asked.inputs[j + 1..] == w.inputs[j + 2..];
      RepeatPrepend(w.shown, m, j);
    } else {
      RepeatPrepend(w.shown, m, 0);
      assert w.shown + [m] + Repeat(m, 0) == w.shown + [m];
      if 1 < |w.inputs| {
        assert asked.inputs[1..] == w.inputs[2..];
      }
    }
  }

  /** Without a 'y' or 'n' the propositions are shown until the lines run out. */
  lemma {:induction false} CheckStallsWithoutVerdict(cfg: Config, w: World, current: string, options: seq<string>)
    requires forall i :: 0 <= i < |w.inputs| ==> !IsVerdict(w.inputs[i])
    ensures CheckRun(cfg, w, current, options).result == Stalled
    decreases |w.inputs|
  {
    if |w.inputs| > 0 {
      var asked := w.(inputs := w.inputs[1..], shown := w.shown + [PropositionsPrompt(current, options)]);
      assert !IsVerdict(w.inputs[0]);
      assert forall i :: 0 <= i < |asked.inputs| ==> asked.inputs[i] == w.inputs[i + 1];
      CheckStallsWithoutVerdict(cfg, asked, current, options);
    }
  }

  /** The propositions that come back are the ones shown, or a freshly generated list of
      `NUMBER_EXPERT_CHOICES` rewrites; no search is run. */
  lemma {:induction false} CheckRunResult(cfg: Config, w: World, current: string, options: seq<string>)
    ensures var t := CheckRun(cfg, w, current, options);
      && (t.result.Ok? ==> t.result.value == options || |t.result.value| == RangeLength(cfg.choices))
      && t.world.queries == w.queries
    decreases |w.inputs|, 0
  {
    if |w.inputs| > 0 {
      var asked := w.(inputs := w.inputs[1..], shown := w.shown + [PropositionsPrompt(current, options)]);
      if w.inputs[0] == "y" {
        if |asked.inputs| > 0 {
          var annotated := asked.(inputs := asked.inputs[1..], shown := asked.shown + [AnnotationsPrompt]);
          ExpertRunResult(cfg, annotated, current, Some(asked.inputs[0]));
        }
      } else if w.inputs[0] != "n" {
        CheckRunResult(cfg, asked, current, options);
      }
    }
  }

  /** A rewrite round yields `NUMBER_EXPERT_CHOICES` propositions; no search is run. */
  lemma {:induction false} ExpertRunResult(cfg: Config, w: World, current: string, notes: Option<string>)
    ensures var t := ExpertRun(cfg, w, current, notes);
      && (t.result.Ok? ==> |t.result.value| == RangeLength(cfg.choices))
      && t.world.queries == w.queries
    decreases |w.inputs|, 1
  {
    var generated := Generation(w, cfg.parser, RewritePrompt(current, notes, cfg.Instructions()), RangeLength(cfg.choices));
    if generated.result.Ok? {
      CheckRunResult(cfg, generated.world, current, generated.result.value);
    }
  }

  // ---------------------------------------------------------------- candidates and their groups

  /** The searches `(title, query)` for each title in order. */
  function SearchesOf(titles: seq<string>, query: string): (qs: seq<(string, string)>)
    ensures |qs| == |titles| && forall j :: 0 <= j < |titles| ==> qs[j] == (titles[j], query)
  {
    seq(|titles|, j requires 0 <= j < |titles| => (titles[j], query))
  }

  /** When every title yields a candidate, there is one candidate per title and one search per
      title, for the checkpoint, in title order. */
  lemma {:induction false} CandidatesPerTitle(cfg: Config, searcher: SimilaritySearcher, w: World, titles: seq<string>,
                                              current: string, notes: Option<string>)
    ensures var t := Candidates(cfg, searcher, w, titles, current, notes);
      t.result.Ok? ==> |t.result.value| == |titles| && t.world.queries == w.queries + SearchesOf(titles, current)
    decreases |titles|
  {
    if |titles| > 0 {
      var init := titles[..|titles| - 1];
      var title := titles[|titles| - 1];
      CandidatesPerTitle(cfg, searcher, w, init, current, notes);
      var before := Candidates(cfg, searcher, w, init, current, notes);
      var t := Candidates(cfg, searcher, w, titles, current, notes);
      if t.result.Ok? {
        assert before.result.Ok?;
        var searched := before.world.(queries := before.world.queries + [(title, current)]);
        var next := AskValue(searched, cfg.parser,
                             GroundedPrompt(searcher.Results(title, current), current, notes, BetterCheckpointQuestion, cfg.Instructions()));
        assert t == Turn(Ok(before.result.value + [next.result.value]), next.world);
        SearchesOfSnoc(w.queries, titles, current);
      }
    }
  }

  lemma SearchesOfSnoc(queries: seq<(string, string)>, titles: seq<string>, query: string)
    requires |titles| > 0
    ensures queries + SearchesOf(titles[..|titles| - 1], query) + [(titles[|titles| - 1], query)]
         == queries + SearchesOf(titles, query)
  {
    assert SearchesOf(titles, query) == SearchesOf(titles[..|titles| - 1], query) + [(titles[|titles| - 1], query)];
  }

  /** The groups put back together are the candidates. */
  lemma {:induction false} GroupsConcat(xs: seq<string>, size: nat)
    requires size > 0
    ensures Flatten(Groups(xs, size)) == xs
    decreases |xs|
  {
    if |xs| > size {
      GroupsConcat(xs[size..], size);
      assert [xs[..size]] + Groups(xs[size..], size) == Groups(xs, size);
      assert Groups(xs, size)[1..] == Groups(xs[size..], size);
      assert xs[..size] + xs[size..] == xs;
    } else if |xs| > 0 {
      assert Groups(xs, size)[1..] == [];
      assert xs + [] == xs;
    }
  }

  /** Every group is non-empty and holds at most `size` candidates, and every group but the
      last holds exactly `size`. */
  lemma {:induction false} GroupsSizes(xs: seq<string>, size: nat)
    requires size > 0
    ensures forall i :: 0 <= i < |Groups(xs, size)| ==> 0 < |Groups(xs, size)[i]| <= size
    ensures forall i :: 0 <= i < |Groups(xs, size)| - 1 ==> |Groups(xs, size)[i]| == size
    decreases |xs|
  {
    if |xs| > size {
      GroupsSizes(xs[size..], size);
      var g := Groups(xs, size);
      assert g[1..] == Groups(xs[size..], size);
      assert forall i :: 1 <= i < |g| ==> g[i] == g[1..][i - 1];
    }
  }

  /** There are at least `m` groups exactly when there are more than `low == (m - 1) * size`
      candidates: the groups are as many as `len(xs) / size` rounded up. */
  lemma {:induction false} GroupsAtLeast(xs: seq<string>, size: nat, m: nat, low: nat)
    requires size > 0 && m >= 1 && low == (m - 1) * size
    ensures |Groups(xs, size)| >= m <==> |xs| > low
    decreases m
  {
    if m > 1 {
      OneGroupLess(size, m, low);
      if |xs| > size {
        GroupsAtLeast(xs[size..], size, m - 1, low - size);
      }
    }
  }

  /** `(m - 1) * size` is `size` more than `(m - 2) * size`. */
  lemma OneGroupLess(size: nat, m: nat, low: nat)
    requires m > 1 && low == (m - 1) * size
    ensures low >= size && low - size == (m - 2) * size
  {
    assert (m - 1) * size == (m - 2) * size + size;
  }

  /** `size` groups exist exactly when there are more than `(size - 1) * size` candidates. */
  lemma EnoughGroups(xs: seq<string>, size: nat)
    requires size > 0
    ensures |Groups(xs, size)| >= size <==> |xs| > (size - 1) * size
  {
    GroupsAtLeast(xs, size, size, (size - 1) * size);
  }

  // ---------------------------------------------------------------- one step

  /** The automated step writes the first field of the next parsing response; it stalls without
      one and raises StopIteration when that response parses to an empty object. */
  lemma AutomatedStepTakesNextRecord(cfg: Config, key: string, values: map<string, string>, w: World)
    requires key in values
    ensures var s := AutomatedStep(cfg, key, values, w); var records := WellFormedRecords(w.pending, cfg.parser);
      && (records == [] ==> s.result == Stalled && s.values == values)
      && (records != [] && records[0] == [] ==> s.result == Raised(StopIteration) && s.values == values)
      && (records != [] && records[0] != [] ==>
            s.result == Ok(()) && s.values == values[key := records[0][0].1]
            && WellFormedRecords(s.world.pending, cfg.parser) == records[1..])
  {
    var prompt := RewritePrompt(values[key], None, cfg.Instructions());
    AskValueTakesNextRecord(w, cfg.parser, prompt);
  }

  /** An advanced step succeeds only with a positive `NUMBER_EXPERT_CHOICES` (`k`), more than
      `(k - 1) * k` titles to draw candidates from, and a key at position `k - 1`, which is the
      one it writes: the checkpoint at the selected position itself is not replaced unless it
      is that one. */
  lemma AdvancedStepSucceeds(cfg: Config, dm: DocumentManager, searcher: SimilaritySearcher, notes: Option<string>,
                             keys: seq<string>, p: nat, values: map<string, string>, w: World)
    requires p < |keys| && KeysPresent(keys, values)
    ensures var s := AdvancedStep(cfg, dm, searcher, notes, keys, p, values, w);
      s.result.Ok? ==>
        && cfg.choices > 0 && cfg.choices - 1 < |keys|
        && |Take(dm.RunnableTitles(), cfg.maxDocuments)| > (cfg.choices - 1) * cfg.choices
        && s.values == values[keys[cfg.choices - 1] := s.values[keys[cfg.choices - 1]]]
  {
    var titles := Take(dm.RunnableTitles(), cfg.maxDocuments);
    var candidates := Candidates(cfg, searcher, w, titles, values[keys[p]], notes);
    CandidatesPerTitle(cfg, searcher, w, titles, values[keys[p]], notes);
    if candidates.result.Ok? {
      AdvancedChoiceSucceeds(cfg, notes, keys, p, values, candidates.result.value, candidates.world);
    }
  }

  /** Averaging and choosing succeed only with a positive `NUMBER_EXPERT_CHOICES` (`k`), more
      than `(k - 1) * k` candidates and a key at position `k - 1`, and write only that key. */
  lemma AdvancedChoiceSucceeds(cfg: Config, notes: Option<string>, keys: seq<string>, p: nat, values: map<string, string>,
                               candidates: seq<string>, w: World)
    requires KeysPresent(keys, values)
    ensures var s := AdvancedChoice(cfg, notes, keys, p, values, candidates, w);
      s.result.Ok? ==>
        && cfg.choices > 0 && cfg.choices - 1 < |keys| && |candidates| > (cfg.choices - 1) * cfg.choices
        && s.values == values[keys[cfg.choices - 1] := s.values[keys[cfg.choices - 1]]]
  {
    var s := AdvancedChoice(cfg, notes, keys, p, values, candidates, w);
    if cfg.choices < 0 {
      var averaged := Averages(cfg, w, [], 0);
      assert averaged == Turn(Ok([]), w);
      NoOptionsNeverChosen(w);
      assert s == Pass(Propagate(ChoiceRun(w, []).result), values, ChoiceRun(w, []).world);
    } else if cfg.choices > 0 {
      var groups := Groups(candidates, cfg.choices);
      var averaged := Averages(cfg, w, groups, cfg.choices);
      EnoughGroups(candidates, cfg.choices);
      if s.result.Ok? {
        assert averaged.result.Ok?;
        var choice := ChoiceRun(averaged.world, averaged.result.value);
        assert choice.result.Ok? && cfg.choices - 1 < |keys|;
        assert s.values == values[keys[cfg.choices - 1] := choice.result.value];
      }
    }
  }

  // ---------------------------------------------------------------- the whole loop

  /** The first failure ends the loop: every later position leaves the outcome, the values and
      the collaborators as that failure left them. */
  lemma {:induction false} RefineFailureEnds(cfg: Config, dm: DocumentManager, searcher: SimilaritySearcher, strategy: Strategy,
                                             keys: seq<string>, importances: seq<real>, values: map<string, string>,
                                             w: World, n: nat, m: nat)
    requires n <= m <= |importances| && KeysPresent(keys, values)
    requires !Refine(cfg, dm, searcher, strategy, keys, importances, values, w, n).result.Ok?
    ensures Refine(cfg, dm, searcher, strategy, keys, importances, values, w, m)
         == Refine(cfg, dm, searcher, strategy, keys, importances, values, w, n)
    decreases m
  {
    if m > n {
      RefineFailureEnds(cfg, dm, searcher, strategy, keys, importances, values, w, n, m - 1);
    }
  }

  /** One more position after the first `n`, when those succeeded. */
  lemma RefineNext(cfg: Config, dm: DocumentManager, searcher: SimilaritySearcher, strategy: Strategy,
                   keys: seq<string>, importances: seq<real>, values: map<string, string>, w: World, n: nat, before: Pass)
    requires n < |importances| && KeysPresent(keys, values)
    requires before == Refine(cfg, dm, searcher, strategy, keys, importances, values, w, n) && before.result.Ok?
    ensures KeysPresent(keys, before.values)
    ensures !Selected(cfg, importances[n]) ==> Refine(cfg, dm, searcher, strategy, keys, importances, values, w, n + 1) == before
    ensures Selected(cfg, importances[n]) && n >= |keys| ==>
      Refine(cfg, dm, searcher, strategy, keys, importances, values, w, n + 1) == Pass(Raised(IndexError), before.values, before.world)
    ensures Selected(cfg, importances[n]) && n < |keys| ==>
      Refine(cfg, dm, searcher, strategy, keys, importances, values, w, n + 1)
      == Step(cfg, dm, searcher, strategy, keys, n, before.values, before.world)
  {
  }

  /** A key is replaced only by a selected position that writes it: the checkpoints of
      unselected positions, and of keys past the importance vector, keep their values. */
  lemma {:induction false} RefineOnlyWritten(cfg: Config, dm: DocumentManager, searcher: SimilaritySearcher, strategy: Strategy,
                                             keys: seq<string>, importances: seq<real>, values: map<string, string>,
                                             w: World, n: nat, k: string)
    requires n <= |importances| && KeysPresent(keys, values) && k in values
    requires forall j :: 0 <= j < n && Selected(cfg, importances[j]) ==> !KeyAt(keys, WrittenPosition(cfg, strategy, j), k)
    ensures Refine(cfg, dm, searcher, strategy, keys, importances, values, w, n).values[k] == values[k]
    decreases n
  {
    if n > 0 {
      RefineOnlyWritten(cfg, dm, searcher, strategy, keys, importances, values, w, n - 1, k);
      RefineStepKeeps(cfg, dm, searcher, strategy, keys, importances, values, w, n, k);
    }
  }

  /** Position `n - 1` leaves a key it does not write as it was. */
  lemma RefineStepKeeps(cfg: Config, dm: DocumentManager, searcher: SimilaritySearcher, strategy: Strategy,
                        keys: seq<string>, importances: seq<real>, values: map<string, string>,
                        w: World, n: nat, k: string)
    requires 0 < n <= |importances| && KeysPresent(keys, values) && k in values
    requires Selected(cfg, importances[n - 1]) ==> !KeyAt(keys, WrittenPosition(cfg, strategy, n - 1), k)
    ensures Refine(cfg, dm, searcher, strategy, keys, importances, values, w, n).values[k]
         == Refine(cfg, dm, searcher, strategy, keys, importances, values, w, n - 1).values[k]
  {
    var before := Refine(cfg, dm, searcher, strategy, keys, importances, values, w, n - 1);
    if before.result.Ok? && Selected(cfg, importances[n - 1]) && n - 1 < |keys| {
      assert KeysPresent(keys, before.values);
    }
  }

  /** A refinement that succeeds had a key for every selected position. */
  lemma {:induction false} RefineNeedsKeys(cfg: Config, dm: DocumentManager, searcher: SimilaritySearcher, strategy: Strategy,
                                           keys: seq<string>, importances: seq<real>, values: map<string, string>,
                                           w: World, n: nat)
    requires n <= |importances| && KeysPresent(keys, values)
    ensures Refine(cfg, dm, searcher, strategy, keys, importances, values, w, n).result.Ok? ==>
      forall j :: 0 <= j < n && Selected(cfg, importances[j]) ==> j < |keys|
    decreases n
  {
    if n > 0 {
      RefineNeedsKeys(cfg, dm, searcher, strategy, keys, importances, values, w, n - 1);
    }
  }

  /** With a string flag nothing happens: no checkpoint changes and no collaborator is used. */
  lemma {:induction false} RefineWithStringFlag(cfg: Config, dm: DocumentManager, searcher: SimilaritySearcher,
                                                strategy: Strategy, keys: seq<string>, importances: seq<real>,
                                                values: map<string, string>, w: World, n: nat)
    requires n <= |importances| && KeysPresent(keys, values) && cfg.flag.PyStr?
    ensures Refine(cfg, dm, searcher, strategy, keys, importances, values, w, n) == Pass(Ok(()), values, w)
    decreases n
  {
    if n > 0 {
      RefineWithStringFlag(cfg, dm, searcher, strategy, keys, importances, values, w, n - 1);
    }
  }

  /** With at least one title, the context-aware refinement changes no checkpoint, and it
      succeeds only when no position is selected: the first selected position fails, with a
      TypeError when it has a key. */
  lemma {:induction false} ContextAwareChangesNothing(cfg: Config, dm: DocumentManager, searcher: SimilaritySearcher,
                                                      keys: seq<string>, importances: seq<real>,
                                                      values: map<string, string>, w: World, n: nat)
    requires n <= |importances| && KeysPresent(keys, values)
    requires |Take(dm.RunnableTitles(), cfg.maxDocuments)| > 0
    ensures var r := Refine(cfg, dm, searcher, ContextAware, keys, importances, values, w, n);
      && r.values == values
      && (r.result.Ok? <==> forall j :: 0 <= j < n ==> !Selected(cfg, importances[j]))
      && (r.result == Raised(TypeError) || r.result == Raised(IndexError) || r.result.Ok?)
    decreases n
  {
    if n > 0 {
      ContextAwareChangesNothing(cfg, dm, searcher, keys, importances, values, w, n - 1);
      var before := Refine(cfg, dm, searcher, ContextAware, keys, importances, values, w, n - 1);
      if before.result.Ok? && Selected(cfg, importances[n - 1]) && n - 1 < |keys| {
        var s := ContextAwareStep(cfg, dm, keys[n - 1], before.values, before.world);
        assert Refine(cfg, dm, searcher, ContextAware, keys, importances, values, w, n) == s;
        assert s.result == Raised(TypeError) && s.values == before.values;
      }
    }
  }
}
