/** `CriteriaOptimizer`: the four ways of refining the checkpoints whose importance is on the
    selected side of the threshold. Each method is proved against the functions of `Refinement`,
    which say what the refinement asks the model and the user and what it writes back. */
module CriteriaOptimizer {
  import opened Wrappers
  import opened PyValues
  import opened PyStrings
  import opened ContextManager
  import opened SimilaritySearcher
  import opened Gateways
  import opened DataManager
  import opened Refinement

  /** The checkpoint dictionary: its keys in insertion order and the value under each. */
  class CheckpointDictionary {
    var keys: seq<string>
    var values: map<string, string>

    /** A dict: every key once, and the keys are exactly those with a value. */
    ghost predicate Valid()
      reads this
    {
      && (forall i, j :: 0 <= i < j < |keys| ==> keys[i] != keys[j])
      && KeysPresent(keys, values)
      && (forall k :: k in values ==> k in keys)
    }

    constructor ()
      ensures Valid() && keys == [] && values == map[]
    {
      keys := [];
      values := map[];
    }

    /** `d[k] = v`: a new key goes to the end, an existing key keeps its place. */
    method Set(k: string, v: string)
      requires Valid()
      modifies this
      ensures Valid()
      ensures values == old(values)[k := v]
      ensures keys == if k in old(values) then old(keys) else old(keys) + [k]
    {
      if k !in values {
        keys := keys + [k];
      }
      values := values[k := v];
    }
  }

  class CriteriaOptimizer {
    const dm: DocumentManager
    const searcher: SimilaritySearcher
    const model: LanguageModel
    const console: Console
    /** The threshold, the raw flag, the document limit, the number of expert choices and the
        output parser. */
    const cfg: Config

    /** The settings are read from the configuration when the optimizer is built; the flag is
        kept as whatever value the configuration holds. */
    constructor (cm: ContextManager, dm: DocumentManager, searcher: SimilaritySearcher, model: LanguageModel,
                 console: Console, lib: ParserLib, threshold: real, maxDocuments: int, choices: int)
      ensures this.dm == dm && this.searcher == searcher && this.model == model && this.console == console
      ensures cfg == Config(threshold, Lookup(cm.cls.config, "IMPORTANCE_GREATER_THAN_THRESHOLD"), maxDocuments, choices,
                            ImprovementParser(lib))
    {
      this.dm := dm;
      this.searcher := searcher;
      this.model := model;
      this.console := console;
      var flag := cm.GetConfig("IMPORTANCE_GREATER_THAN_THRESHOLD");
      this.cfg := Config(threshold, flag, maxDocuments, choices, ImprovementParser(lib));
    }

    /** The collaborators' state. */
    ghost function Now(): World
      reads console, model, searcher
    {
      World(console.inputs, console.shown, model.pending, model.prompts, searcher.queries)
    }

    // ---------------------------------------------------------------- one prompt

    /** Ask the model `prompt` until an answer parses and take its first field. */
    method AskForFirstField(prompt: Prompt) returns (r: Outcome<string>)
      modifies model
      ensures Turn(r, Now()) == AskValue(old(Now()), cfg.parser, prompt)
    {
      var outputParser := cfg.parser;
      var data := AskUntilWellFormed(model, prompt, outputParser);
      r := FirstField(data);
    }

    /** `__generate_improved_checkpoint_without_context`. */
    method GenerateImprovedCheckpointWithoutContext(currentCheckpoint: string, annotations: Option<string>)
      returns (r: Outcome<string>)
      modifies model
      ensures Turn(r, Now()) == AskValue(old(Now()), cfg.parser, RewritePrompt(currentCheckpoint, annotations, cfg.Instructions()))
    {
      var formatInstructions := cfg.parser.FormatInstructions();
      r := AskForFirstField(RewritePrompt(currentCheckpoint, annotations, formatInstructions));
    }

    /** `__generate_improved_checkpoints`. */
    method GenerateImprovedCheckpoints(currentCheckpoint: string, contextText: seq<Hit>, annotations: Option<string>)
      returns (r: Outcome<string>)
      modifies model
      ensures Turn(r, Now()) == AskValue(old(Now()), cfg.parser,
                                         GroundedPrompt(contextText, currentCheckpoint, annotations, BetterCheckpointQuestion,
                                                        cfg.Instructions()))
    {
      var formatInstructions := cfg.parser.FormatInstructions();
      r := AskForFirstField(GroundedPrompt(contextText, currentCheckpoint, annotations, BetterCheckpointQuestion,
                                           formatInstructions));
    }

    /** `__average_checkpoints`. */
    method AverageCheckpoints(checkpoints: seq<string>) returns (r: Outcome<string>)
      modifies model
      ensures Turn(r, Now()) == AskValue(old(Now()), cfg.parser, AveragingPrompt(checkpoints, cfg.Instructions()))
    {
      var formatInstructions := cfg.parser.FormatInstructions();
      r := AskForFirstField(AveragingPrompt(checkpoints, formatInstructions));
    }

    // ---------------------------------------------------------------- several rewrites

    /** `__generate_new_checkpoints`: `k` rewrites, `NUMBER_EXPERT_CHOICES` when `k` is not given. */
    method GenerateNewCheckpoints(currentCheckpoint: string, k: Option<int>, notes: Option<string>)
      returns (r: Outcome<seq<string>>)
      modifies model
      ensures var n := RangeLength(if k.None? then cfg.choices else k.value);
        Turn(r, Now()) == Generation(old(Now()), cfg.parser, RewritePrompt(currentCheckpoint, notes, cfg.Instructions()), n)
    {
      var count := if k.None? then cfg.choices else k.value;
      ghost var prompt := RewritePrompt(currentCheckpoint, notes, cfg.Instructions());
      ghost var start := Now();
      var newCheckpoints: seq<string> := [];
      for i := 0 to RangeLength(count)
        invariant Turn(Ok(newCheckpoints), Now()) == Generation(start, cfg.parser, prompt, i)
      {
        ghost var before := Turn(Ok(newCheckpoints), Now());
        var candidate := GenerateImprovedCheckpointWithoutContext(currentCheckpoint, notes);
        GenerationNext(start, cfg.parser, prompt, i, before, Turn(candidate, Now()));
        if !candidate.Ok? {
          GenerationFailureEnds(start, cfg.parser, prompt, i + 1, RangeLength(count));
          return Propagate(candidate);
        }
        newCheckpoints := newCheckpoints + [candidate.value];
      }
      r := Ok(newCheckpoints);
    }

    // ---------------------------------------------------------------- the user

    /** `__ask_for_expert_choice`: asks until the user types the number of an option. */
    method AskForExpertChoice(newCheckpoints: seq<string>) returns (r: Outcome<string>)
      modifies console
      ensures Turn(r, Now()) == ChoiceRun(old(Now()), newCheckpoints)
    {
      var message := ChoicePrompt(ChoiceString(|newCheckpoints|), newCheckpoints);
      ghost var goal := ChoiceLoop(Now(), newCheckpoints, message);
      while true
        invariant ChoiceLoop(Now(), newCheckpoints, message) == goal
        decreases |console.inputs|
      {
        ghost var before := Now();
        var line := console.Input(message);
        if line.None? {
          return Stalled;
        }
        var choice := ParseInt(line.value);
        ChoiceLoopStep(before, newCheckpoints, message, if choice.Some? && 1 <= choice.value <= |newCheckpoints| then choice else None);
        if choice.Some? && 1 <= choice.value <= |newCheckpoints| {
          return Ok(newCheckpoints[choice.value - 1]);
        }
      }
    }

    /** `check_propositions`: 'n' keeps the propositions, 'y' and a line of annotations has new
        ones generated, anything else is asked again. */
    method CheckPropositions(currentCheckpoint: string, newCheckpoints: seq<string>) returns (r: Outcome<seq<string>>)
      modifies console, model
      ensures Turn(r, Now()) == CheckRun(cfg, old(Now()), currentCheckpoint, newCheckpoints)
      decreases |console.inputs|, 0
    {
      var message := PropositionsPrompt(currentCheckpoint, newCheckpoints);
      while true
        invariant |console.inputs| <= |old(console.inputs)|
        invariant CheckRun(cfg, Now(), currentCheckpoint, newCheckpoints) == CheckRun(cfg, old(Now()), currentCheckpoint, newCheckpoints)
        decreases |console.inputs|
      {
        var choice := console.Input(message);
        if choice.None? {
          return Stalled;
        }
        if choice.value == "y" {
          var userAnnotations := console.Input(AnnotationsPrompt);
          if userAnnotations.None? {
            return Stalled;
          }
          r := ExpertImprovement(currentCheckpoint, userAnnotations);
          return;
        }
        if choice.value == "n" {
          return Ok(newCheckpoints);
        }
      }
    }

    /** `__expert_feature_improvement`: `NUMBER_EXPERT_CHOICES` rewrites, then the user's verdict. */
    method ExpertImprovement(currentCheckpoint: string, notes: Option<string>) returns (r: Outcome<seq<string>>)
      modifies console, model
      ensures Turn(r, Now()) == ExpertRun(cfg, old(Now()), currentCheckpoint, notes)
      decreases |console.inputs|, 1
    {
      var newCheckpoints := GenerateNewCheckpoints(currentCheckpoint, None, notes);
      if !newCheckpoints.Ok? {
        return Propagate(newCheckpoints);
      }
      r := CheckPropositions(currentCheckpoint, newCheckpoints.value);
    }

    // ---------------------------------------------------------------- grounded candidates

    /** The loop over the titles of `advanced_feature_improvement`: a search per title, then a
        rewrite grounded in its hits. */
    method DrawCandidates(titlesWithLimit: seq<string>, currentCheckpoint: string, annotations: Option<string>)
      returns (r: Outcome<seq<string>>)
      modifies searcher, model
      ensures Turn(r, Now()) == Candidates(cfg, searcher, old(Now()), titlesWithLimit, currentCheckpoint, annotations)
    {
      ghost var start := Now();
      var potentialCheckpoints: seq<string> := [];
      for j := 0 to |titlesWithLimit|
        invariant Turn(Ok(potentialCheckpoints), Now())
               == Candidates(cfg, searcher, start, titlesWithLimit[..j], currentCheckpoint, annotations)
      {
        ghost var before := Turn(Ok(potentialCheckpoints), Now());
        var contextText := searcher.SimilaritySearch(titlesWithLimit[j], currentCheckpoint);
        var candidate := GenerateImprovedCheckpoints(currentCheckpoint, contextText, annotations);
        CandidatesNext(cfg, searcher, start, titlesWithLimit, currentCheckpoint, annotations, j, before, Turn(candidate, Now()));
        if !candidate.Ok? {
          CandidatesFailureEnds(cfg, searcher, start, titlesWithLimit, currentCheckpoint, annotations, j + 1, |titlesWithLimit|);
          assert titlesWithLimit[..|titlesWithLimit|] == titlesWithLimit;
          return Propagate(candidate);
        }
        potentialCheckpoints := potentialCheckpoints + [candidate.value];
      }
      assert titlesWithLimit[..|titlesWithLimit|] == titlesWithLimit;
      r := Ok(potentialCheckpoints);
    }

    /** `for i in range(NUMBER_EXPERT_CHOICES)`: the average of each group in turn. */
    method AverageGroups(groups: seq<seq<string>>) returns (r: Outcome<seq<string>>)
      modifies model
      ensures Turn(r, Now()) == Averages(cfg, old(Now()), groups, RangeLength(cfg.choices))
    {
      ghost var start := Now();
      var expertPresentableCheckpoints: seq<string> := [];
      for i := 0 to RangeLength(cfg.choices)
        invariant Turn(Ok(expertPresentableCheckpoints), Now()) == Averages(cfg, start, groups, i)
      {
        ghost var before := Turn(Ok(expertPresentableCheckpoints), Now());
        if i >= |groups| {
          assert Averages(cfg, start, groups, i + 1) == Turn(Raised(IndexError), before.world);
          AveragesFailureEnds(cfg, start, groups, i + 1, RangeLength(cfg.choices));
          return Raised(IndexError);
        }
        var averaged := AverageCheckpoints(groups[i]);
        AveragesNext(cfg, start, groups, i, before, Turn(averaged, Now()));
        if !averaged.Ok? {
          AveragesFailureEnds(cfg, start, groups, i + 1, RangeLength(cfg.choices));
          return Propagate(averaged);
        }
        expertPresentableCheckpoints := expertPresentableCheckpoints + [averaged.value];
      }
      r := Ok(expertPresentableCheckpoints);
    }

    // ---------------------------------------------------------------- one selected checkpoint

    /** The body of `automated_feature_improvement`'s loop for a selected key. */
    method AutomatedAt(dict: CheckpointDictionary, key: string) returns (r: Outcome<()>)
      requires dict.Valid() && key in dict.values
      modifies dict, model
      ensures dict.Valid() && dict.keys == old(dict.keys)
      ensures Pass(r, dict.values, Now()) == AutomatedStep(cfg, key, old(dict.values), old(Now()))
      ensures r.Ok? ==> r == Ok(())
    {
      var currentCheckpoint := dict.values[key];
      var newCheckpoints := GenerateNewCheckpoints(currentCheckpoint, Some(1), None);
      if !newCheckpoints.Ok? {
        return Propagate(newCheckpoints);
      }
      dict.Set(key, newCheckpoints.value[0]);
      r := Ok(());
    }

    /** The body of `expert_feature_improvement`'s loop for a selected key. */
    method ExpertAt(dict: CheckpointDictionary, key: string, annotations: Option<string>) returns (r: Outcome<()>)
      requires dict.Valid() && key in dict.values
      modifies dict, console, model
      ensures dict.Valid() && dict.keys == old(dict.keys)
      ensures Pass(r, dict.values, Now()) == ExpertStep(cfg, annotations, key, old(dict.values), old(Now()))
      ensures r.Ok? ==> r == Ok(())
    {
      var newCheckpoints := ExpertImprovement(dict.values[key], annotations);
      if !newCheckpoints.Ok? {
        return Propagate(newCheckpoints);
      }
      var choice := AskForExpertChoice(newCheckpoints.value);
      if !choice.Ok? {
        return Propagate(choice);
      }
      dict.Set(key, choice.value);
      r := Ok(());
    }

    /** The body of `context_aware_feature_improvement`'s loop for a selected key. */
    method ContextAwareAt(dict: CheckpointDictionary, key: string) returns (r: Outcome<()>)
      requires dict.Valid() && key in dict.values
      modifies dict, searcher, model
      ensures dict.Valid() && dict.keys == old(dict.keys)
      ensures Pass(r, dict.values, Now()) == ContextAwareStep(cfg, dm, key, old(dict.values), old(Now()))
      ensures r.Ok? ==> r == Ok(())
    {
      var currentCheckpoint := dict.values[key];
      var potentialCheckpoints: seq<string> := [];
      var titlesWithLimit := RunnableTitlesWithLimit();
      if |titlesWithLimit| > 0 {
        // The first title's search runs; the rewrite after it is called without its
        // `annotations` argument, which raises before the model is asked.
        var contextText := searcher.SimilaritySearch(titlesWithLimit[0], currentCheckpoint);
        return Raised(TypeError);
      }
      var averaged := AverageCheckpoints(potentialCheckpoints);
      if !averaged.Ok? {
        return Propagate(averaged);
      }
      dict.Set(key, averaged.value);
      r := Ok(());
    }

    /** The rest of `advanced_feature_improvement`'s loop body once the candidates are drawn. */
    method ChooseAmongGroups(dict: CheckpointDictionary, checkpointKeys: seq<string>, p: nat, annotations: Option<string>,
                             potentialCheckpoints: seq<string>) returns (r: Outcome<()>)
      requires dict.Valid() && dict.keys == checkpointKeys
      modifies dict, console, model
      ensures dict.Valid() && dict.keys == checkpointKeys
      ensures Pass(r, dict.values, Now())
           == AdvancedChoice(cfg, annotations, checkpointKeys, p, old(dict.values), potentialCheckpoints, old(Now()))
      ensures r.Ok? ==> r == Ok(())
    {
      if cfg.choices == 0 {
        // `range(0, len(potential_checkpoints), 0)`
        return Raised(ValueError);
      }
      var groups := if cfg.choices > 0 then Groups(potentialCheckpoints, cfg.choices) else [];
      var expertPresentableCheckpoints := AverageGroups(groups);
      if !expertPresentableCheckpoints.Ok? {
        return Propagate(expertPresentableCheckpoints);
      }
      var choice := AskForExpertChoice(expertPresentableCheckpoints.value);
      if !choice.Ok? {
        return Propagate(choice);
      }
      // The inner `for i in range(NUMBER_EXPERT_CHOICES)` has rebound `i` when it ran.
      var i := if cfg.choices > 0 then cfg.choices - 1 else p;
      assert i == WrittenPosition(cfg, Advanced(annotations), p);
      if i >= |checkpointKeys| {
        return Raised(IndexError);
      }
      dict.Set(checkpointKeys[i], choice.value);
      r := Ok(());
    }

    /** The body of `advanced_feature_improvement`'s loop for the selected position `p`. */
    method AdvancedAt(dict: CheckpointDictionary, checkpointKeys: seq<string>, p: nat, annotations: Option<string>)
      returns (r: Outcome<()>)
      requires dict.Valid() && dict.keys == checkpointKeys && p < |checkpointKeys|
      modifies dict, console, model, searcher
      ensures dict.Valid() && dict.keys == checkpointKeys
      ensures Pass(r, dict.values, Now()) == AdvancedStep(cfg, dm, searcher, annotations, checkpointKeys, p, old(dict.values), old(Now()))
      ensures r.Ok? ==> r == Ok(())
    {
      var currentCheckpoint := dict.values[checkpointKeys[p]];
      var titlesWithLimit := RunnableTitlesWithLimit();
      var potentialCheckpoints := DrawCandidates(titlesWithLimit, currentCheckpoint, annotations);
      if !potentialCheckpoints.Ok? {
        return Propagate(potentialCheckpoints);
      }
      r := ChooseAmongGroups(dict, checkpointKeys, p, annotations, potentialCheckpoints.value);
    }

    /** One selected position, refined by `strategy`. */
    method ImproveAt(strategy: Strategy, dict: CheckpointDictionary, checkpointKeys: seq<string>, p: nat)
      returns (r: Outcome<()>)
      requires dict.Valid() && dict.keys == checkpointKeys && p < |checkpointKeys|
      modifies dict, console, model, searcher
      ensures dict.Valid() && dict.keys == checkpointKeys
      ensures Pass(r, dict.values, Now()) == Step(cfg, dm, searcher, strategy, checkpointKeys, p, old(dict.values), old(Now()))
      ensures r.Ok? ==> r == Ok(())
    {
      match strategy {
        case Automated => r := AutomatedAt(dict, checkpointKeys[p]);
        case Expert(annotations) => r := ExpertAt(dict, checkpointKeys[p], annotations);
        case ContextAware => r := ContextAwareAt(dict, checkpointKeys[p]);
        case Advanced(annotations) => r := AdvancedAt(dict, checkpointKeys, p, annotations);
      }
    }

    // ---------------------------------------------------------------- the four refinements

    /** The loop the four refinements share: `checkpoint_keys = list(checkpoint_dictionary.keys())`,
        then every position of the importances whose comparison with the threshold equals the
        flag is refined in turn, and the dictionary is updated in place. */
    method Improve(strategy: Strategy, dict: CheckpointDictionary, importances: seq<real>) returns (r: Outcome<()>)
      requires dict.Valid()
      modifies dict, console, model, searcher
      ensures dict.Valid() && dict.keys == old(dict.keys)
      ensures Pass(r, dict.values, Now())
           == Refine(cfg, dm, searcher, strategy, old(dict.keys), importances, old(dict.values), old(Now()), |importances|)
    {
      var checkpointKeys := dict.keys;
      ghost var values := dict.values;
      ghost var start := Now();
      for i := 0 to |importances|
        invariant dict.Valid() && dict.keys == checkpointKeys
        invariant Pass(Ok(()), dict.values, Now()) == Refine(cfg, dm, searcher, strategy, checkpointKeys, importances, values, start, i)
      {
        ghost var before := Pass(Ok(()), dict.values, Now());
        RefineNext(cfg, dm, searcher, strategy, checkpointKeys, importances, values, start, i, before);
        if Selected(cfg, importances[i]) {
          if i >= |checkpointKeys| {
            RefineFailureEnds(cfg, dm, searcher, strategy, checkpointKeys, importances, values, start, i + 1, |importances|);
            return Raised(IndexError);
          }
          r := ImproveAt(strategy, dict, checkpointKeys, i);
          assert Pass(r, dict.values, Now()) == Refine(cfg, dm, searcher, strategy, checkpointKeys, importances, values, start, i + 1);
          if !r.Ok? {
            RefineFailureEnds(cfg, dm, searcher, strategy, checkpointKeys, importances, values, start, i + 1, |importances|);
            return;
          }
          assert r == Ok(());
          assert Pass(Ok(()), dict.values, Now()) == Refine(cfg, dm, searcher, strategy, checkpointKeys, importances, values, start, i + 1);
        } else {
          assert Pass(Ok(()), dict.values, Now()) == Refine(cfg, dm, searcher, strategy, checkpointKeys, importances, values, start, i + 1);
        }
      }
      r := Ok(());
    }

    /** `automated_feature_improvement`. */
    method AutomatedFeatureImprovement(dict: CheckpointDictionary, importances: seq<real>) returns (r: Outcome<()>)
      requires dict.Valid()
      modifies dict, console, model, searcher
      ensures dict.Valid() && dict.keys == old(dict.keys)
      ensures Pass(r, dict.values, Now())
           == Refine(cfg, dm, searcher, Automated, old(dict.keys), importances, old(dict.values), old(Now()), |importances|)
    {
      r := Improve(Automated, dict, importances);
    }

    /** `expert_feature_improvement`. */
    method ExpertFeatureImprovement(dict: CheckpointDictionary, importances: seq<real>, annotations: Option<string>)
      returns (r: Outcome<()>)
      requires dict.Valid()
      modifies dict, console, model, searcher
      ensures dict.Valid() && dict.keys == old(dict.keys)
      ensures Pass(r, dict.values, Now())
           == Refine(cfg, dm, searcher, Expert(annotations), old(dict.keys), importances, old(dict.values), old(Now()), |importances|)
    {
      r := Improve(Expert(annotations), dict, importances);
    }

    /** `context_aware_feature_improvement`. */
    method ContextAwareFeatureImprovement(dict: CheckpointDictionary, importances: seq<real>) returns (r: Outcome<()>)
      requires dict.Valid()
      modifies dict, console, model, searcher
      ensures dict.Valid() && dict.keys == old(dict.keys)
      ensures Pass(r, dict.values, Now())
           == Refine(cfg, dm, searcher, ContextAware, old(dict.keys), importances, old(dict.values), old(Now()), |importances|)
    {
      r := Improve(ContextAware, dict, importances);
    }

    /** `advanced_feature_improvement`. */
    method AdvancedFeatureImprovement(annotations: Option<string>, dict: CheckpointDictionary, importances: seq<real>)
      returns (r: Outcome<()>)
      requires dict.Valid()
      modifies dict, console, model, searcher
      ensures dict.Valid() && dict.keys == old(dict.keys)
      ensures Pass(r, dict.values, Now())
           == Refine(cfg, dm, searcher, Advanced(annotations), old(dict.keys), importances, old(dict.values), old(Now()), |importances|)
    {
      r := Improve(Advanced(annotations), dict, importances);
    }

    // ---------------------------------------------------------------- titles

    /** `__get_runnable_title_with_limit`: the first `MAX_FEATURE_IMPROVEMENT_DOCUMENTS` runnable
        titles, sliced as Python slices. */
    method RunnableTitlesWithLimit() returns (titles: seq<string>)
      ensures titles == Take(dm.RunnableTitles(), cfg.maxDocuments)
    {
      var runnable := dm.GetRunnableTitles();
      titles := Take(runnable, cfg.maxDocuments);
    }
  }
}
