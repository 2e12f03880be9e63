/** The collaborators the screening and refinement code talks to: the language model, the
    console, and the structured-output parser. Each is an oracle: the model and the console
    answer from a finite stream the caller supplies and record what they were asked. */
module Gateways {
  import opened Wrappers
  import opened SimilaritySearcher

  /** A parsed response: the fields of the JSON object, in the order they appear. */
  type Record = seq<(string, string)>

  /** `ResponseSchema(name=..., description=..., type=...)`. */
  datatype ResponseSchema = ResponseSchema(name: string, description: string, kind: string)

  function FieldNames(schemas: seq<ResponseSchema>): (names: seq<string>)
    ensures |names| == |schemas|
    ensures forall i :: 0 <= i < |schemas| ==> names[i] == schemas[i].name
  {
    seq(|schemas|, i requires 0 <= i < |schemas| => schemas[i].name)
  }

  /** The structured-output library: how it renders format instructions for some schemas, and
      how it parses a response text (None when parsing raises). */
  datatype ParserLib = ParserLib(
    instructions: seq<ResponseSchema> -> string,
    parse: (seq<ResponseSchema>, string) -> Option<Record>)

  /** `StructuredOutputParser.from_response_schemas(schemas)`. */
  datatype OutputParser = OutputParser(lib: ParserLib, schemas: seq<ResponseSchema>)
  {
    function FormatInstructions(): string
    {
      lib.instructions(schemas)
    }

    function Parse(text: string): Option<Record>
    {
      lib.parse(schemas, text)
    }

    /** `__response_correctly_formatted`: parsing does not raise. */
    predicate WellFormed(text: string)
    {
      Parse(text).Some?
    }
  }

  /** A rendered prompt, recorded by the values filled into its template. */
  datatype Prompt =
    | ScreeningPrompt(context: string, question: string, checkpoints: seq<(string, string)>, formatInstructions: string)
    | RewritePrompt(checkpoint: string, annotations: Option<string>, formatInstructions: string)
    | GroundedPrompt(hits: seq<Hit>, checkpoint: string, annotations: Option<string>, question: string,
                     formatInstructions: string)
    | AveragingPrompt(candidates: seq<string>, formatInstructions: string)

  /** `n` copies of `p`: what a log records when the same question is asked `n` times. */
  function Repeat<T>(p: T, n: nat): (ps: seq<T>)
    ensures |ps| == n && forall i :: 0 <= i < n ==> ps[i] == p
  {
    seq(n, _ => p)
  }

  /** Asking `a` times and then `b` times logs the same as asking `a + b` times. */
  lemma RepeatAppend<T>(xs: seq<T>, p: T, a: nat, b: nat)
    ensures xs + Repeat(p, a) + Repeat(p, b) == xs + Repeat(p, a + b)
  {
    assert Repeat(p, a) + Repeat(p, b) == Repeat(p, a + b);
    assert xs + Repeat(p, a) + Repeat(p, b) == xs + (Repeat(p, a) + Repeat(p, b));
  }

  /** Asking once and then `n` times logs the same as asking `n + 1` times. */
  lemma RepeatPrepend<T>(xs: seq<T>, p: T, n: nat)
    ensures xs + [p] + Repeat(p, n) == xs + Repeat(p, n + 1)
  {
    assert [p] == Repeat(p, 1);
    RepeatAppend(xs, p, 1, n);
  }

  // ---------------------------------------------------------------- retry until parsed

  /** The position of the first response that parses. */
  function FirstWellFormed(stream: seq<string>, parser: OutputParser): (k: Option<nat>)
    ensures k.Some? ==> k.value < |stream| && parser.WellFormed(stream[k.value])
    ensures k.Some? ==> forall j :: 0 <= j < k.value ==> !parser.WellFormed(stream[j])
    ensures k.None? <==> forall j :: 0 <= j < |stream| ==> !parser.WellFormed(stream[j])
    decreases |stream|
  {
    if |stream| == 0 then None
    else if parser.WellFormed(stream[0]) then Some(0)
    else match FirstWellFormed(stream[1..], parser) {
      case None => None
      case Some(k) => Some(k + 1)
    }
  }

  /** The outcome of asking until a response parses, and the responses left afterwards. */
  datatype Answer = Answer(result: Outcome<Record>, rest: seq<string>)

  function Ask(stream: seq<string>, parser: OutputParser): (a: Answer)
    ensures |a.rest| <= |stream| && a.rest == stream[|stream| - |a.rest|..]
  {
    match FirstWellFormed(stream, parser) {
      case None => Answer(Stalled, [])
      case Some(k) => Answer(Ok(parser.Parse(stream[k]).value), stream[k + 1..])
    }
  }

  /** The parses of the responses that parse, in stream order. */
  function WellFormedRecords(stream: seq<string>, parser: OutputParser): seq<Record>
    decreases |stream|
  {
    if |stream| == 0 then []
    else
      var head := if parser.WellFormed(stream[0]) then [parser.Parse(stream[0]).value] else [];
      head + WellFormedRecords(stream[1..], parser)
  }

  /** Asking takes the next parsing response off the stream: its record is the first of the
      parsing responses, and the others are still to come. When none parses, asking stalls
      having used up the stream. */
  lemma {:induction false} AskTakesNextRecord(stream: seq<string>, parser: OutputParser)
    ensures Ask(stream, parser).result.Ok? || Ask(stream, parser).result.Stalled?
    ensures Ask(stream, parser).result.Stalled? <==> WellFormedRecords(stream, parser) == []
    ensures Ask(stream, parser).result.Ok? ==>
      WellFormedRecords(stream, parser) == [Ask(stream, parser).result.value] + WellFormedRecords(Ask(stream, parser).rest, parser)
    ensures |Ask(stream, parser).rest| < |stream| || (stream == [] && Ask(stream, parser).rest == [])
    decreases |stream|
  {
    if |stream| > 0 {
      AskTakesNextRecord(stream[1..], parser);
      if !parser.WellFormed(stream[0]) {
        assert Ask(stream, parser) == Ask(stream[1..], parser) by {
          match FirstWellFormed(stream[1..], parser) {
            case None =>
            case Some(k) => assert stream[1..][k + 1..] == stream[k + 2..];
          }
        }
      }
    }
  }

  /** The language model: it answers each prompt with the next response of its stream. */
  class LanguageModel {
    var pending: seq<string>
    var prompts: seq<Prompt>

    constructor (responses: seq<string>)
      ensures pending == responses && prompts == []
    {
      pending := responses;
      prompts := [];
    }

    /** `model.predict(prompt)`; None when the supplied responses have run out. */
    method Predict(prompt: Prompt) returns (response: Option<string>)
      modifies this
      ensures old(pending) == [] ==> response == None && pending == [] && prompts == old(prompts)
      ensures old(pending) != [] ==>
        response == Some(old(pending)[0]) && pending == old(pending)[1..] && prompts == old(prompts) + [prompt]
    {
      if pending == [] {
        return None;
      }
      response := Some(pending[0]);
      pending := pending[1..];
      prompts := prompts + [prompt];
    }
  }

  /** `response_text = model.predict(prompt)` followed by `while not correctly_formatted:
      response_text = model.predict(prompt)` and `output_parser.parse(response_text)`: the same
      prompt is sent once per response used, up to and including the first that parses. */
  method AskUntilWellFormed(model: LanguageModel, prompt: Prompt, parser: OutputParser) returns (r: Outcome<Record>)
    modifies model
    ensures r == Ask(old(model.pending), parser).result
    ensures model.pending == Ask(old(model.pending), parser).rest
    ensures model.prompts == old(model.prompts) + Repeat(prompt, |old(model.pending)| - |model.pending|)
  {
    ghost var stream := model.pending;
    var response := model.Predict(prompt);
    while response.Some? && !parser.WellFormed(response.value)
      invariant |model.pending| <= |stream| && model.pending == stream[|stream| - |model.pending|..]
      invariant model.prompts == old(model.prompts) + Repeat(prompt, |stream| - |model.pending|)
      invariant response.Some? ==> |model.pending| < |stream| && response.value == stream[|stream| - |model.pending| - 1]
      invariant response.Some? ==> forall j :: 0 <= j < |stream| - |model.pending| - 1 ==> !parser.WellFormed(stream[j])
      invariant response.None? ==> model.pending == [] && forall j :: 0 <= j < |stream| ==> !parser.WellFormed(stream[j])
      decreases |model.pending| + (if response.Some? then 1 else 0)
    {
      ghost var before := |model.pending|;
      response := model.Predict(prompt);
      if response.Some? {
        assert stream[|stream| - before..][1..] == stream[|stream| - before + 1..];
      }
    }
    if response.None? {
      return Stalled;
    }
    ghost var k := |stream| - |model.pending| - 1;
    assert FirstWellFormed(stream, parser) == Some(k);
    r := Ok(parser.Parse(response.value).value);
  }

  /** `next(iter(data))` and `data[first_key]`: the value under the record's first field;
      StopIteration when the record is empty. */
  function FirstValue(record: Record): (v: Outcome<string>)
    ensures v.Raised? <==> record == []
    ensures v.Raised? ==> v.error == StopIteration
    ensures v.Ok? ==> v.value == record[0].1
    ensures !v.Stalled?
  {
    if |record| == 0 then Raised(StopIteration) else Ok(record[0].1)
  }

  // ---------------------------------------------------------------- the console

  /** A console prompt, recorded by the values filled into its text. */
  datatype Message =
    | ChoicePrompt(choiceString: string, options: seq<string>)
    | PropositionsPrompt(checkpoint: string, options: seq<string>)
    | AnnotationsPrompt

  /** The console: `input(message)` returns the next line the user types. */
  class Console {
    var inputs: seq<string>
    var shown: seq<Message>

    constructor (inputs: seq<string>)
      ensures this.inputs == inputs && shown == []
    {
      this.inputs := inputs;
      shown := [];
    }

    /** `input(message)`; None when the supplied lines have run out. */
    method Input(message: Message) returns (line: Option<string>)
      modifies this
      ensures old(inputs) == [] ==> line == None && inputs == [] && shown == old(shown)
      ensures old(inputs) != [] ==>
        line == Some(old(inputs)[0]) && inputs == old(inputs)[1..] && shown == old(shown) + [message]
    {
      if inputs == [] {
        return None;
      }
      line := Some(inputs[0]);
      inputs := inputs[1..];
      shown := shown + [message];
    }
  }
}
