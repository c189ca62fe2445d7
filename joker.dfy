/** The joke generator's request and response records (src/modules/joker/models.py) and the
    prompt it sends to the language model (`JokerService._build_prompt`,
    src/modules/joker/service.py). */
module Joker {
  import opened Wrappers
  import opened Text

  /** `JokeRequest`; `None` fields are Python's `None`. */
  datatype JokeRequest = JokeRequest(
    topic: Option<string>,
    style: Option<string>,
    length: Option<string>,
    temperature: Option<real>,
    maxTokens: Option<int>)

  /** The fields pydantic rejects; every failing field is reported, in declaration order. */
  datatype FieldError = TemperatureOutOfRange | MaxTokensOutOfRange

  /** A range constraint holds for a given value and is skipped for `None`. */
  predicate TemperatureOk(t: Option<real>) {
    t.Some? ==> 0.0 <= t.value <= 2.0
  }

  predicate MaxTokensOk(n: Option<int>) {
    n.Some? ==> 50 <= n.value <= 500
  }

  /** Pydantic validation of `JokeRequest(...)` with the field defaults of the source. */
  function MakeJokeRequest(topic: Option<string> := None, style: Option<string> := Some("sarcastic"),
                           length: Option<string> := Some("medium"), temperature: Option<real> := Some(0.8),
                           maxTokens: Option<int> := Some(200)): (r: Result<JokeRequest, seq<FieldError>>)
    ensures r.Success? <==> TemperatureOk(temperature) && MaxTokensOk(maxTokens)
    ensures r.Success? ==> r.value == JokeRequest(topic, style, length, temperature, maxTokens)
    ensures r.Failure? ==> (TemperatureOutOfRange in r.error <==> !TemperatureOk(temperature))
    ensures r.Failure? ==> (MaxTokensOutOfRange in r.error <==> !MaxTokensOk(maxTokens))
  {
    var errors := (if TemperatureOk(temperature) then [] else [TemperatureOutOfRange])
                  + (if MaxTokensOk(maxTokens) then [] else [MaxTokensOutOfRange]);
    if errors == [] then Success(JokeRequest(topic, style, length, temperature, maxTokens))
    else Failure(errors)
  }

  /** `JokeRequest()` has no topic, the style "sarcastic", the length "medium", temperature 0.8
      and 200 tokens; temperatures -0.1 and 2.1 and token limits 49 and 501 are rejected, while
      the ends of both ranges are accepted. */
  lemma {:induction false} JokeRequestDefaultsAndBounds()
    ensures MakeJokeRequest() == Success(JokeRequest(None, Some("sarcastic"), Some("medium"), Some(0.8), Some(200)))
    ensures MakeJokeRequest(temperature := Some(-0.1)) == Failure([TemperatureOutOfRange])
    ensures MakeJokeRequest(temperature := Some(2.1)) == Failure([TemperatureOutOfRange])
    ensures MakeJokeRequest(maxTokens := Some(49)) == Failure([MaxTokensOutOfRange])
    ensures MakeJokeRequest(maxTokens := Some(501)) == Failure([MaxTokensOutOfRange])
    ensures MakeJokeRequest(temperature := Some(0.0), maxTokens := Some(50)).Success?
    ensures MakeJokeRequest(temperature := Some(2.0), maxTokens := Some(500)).Success?
  {
    assert [TemperatureOutOfRange] + [] == [TemperatureOutOfRange];
    assert [] + [MaxTokensOutOfRange] == [MaxTokensOutOfRange];
  }

  /** `JokeResponse`; only `success` is required. */
  datatype JokeResponse = JokeResponse(
    success: bool,
    joke: Option<string>,
    topic: Option<string>,
    style: Option<string>,
    generationTime: Option<real>,
    model: Option<string>,
    error: Option<string>)

  function MakeJokeResponse(success: bool, joke: Option<string> := None, topic: Option<string> := None,
                            style: Option<string> := None, generationTime: Option<real> := None,
                            model: Option<string> := None, error: Option<string> := None): (r: JokeResponse)
    ensures r.success == success && r.joke == joke && r.error == error
    ensures r.topic == topic && r.style == style && r.generationTime == generationTime && r.model == model
  {
    JokeResponse(success, joke, topic, style, generationTime, model, error)
  }

  /** A response built from `success` alone leaves every optional field `None`. */
  lemma {:induction false} BareResponseDefaults(success: bool)
    ensures MakeJokeResponse(success) == JokeResponse(success, None, None, None, None, None, None)
  {
  }

  /** An error response built from `success` and `error` alone leaves every other field `None`. */
  lemma {:induction false} ErrorResponseDefaults(error: string)
    ensures MakeJokeResponse(false, error := Some(error)) == JokeResponse(false, None, None, None, None, None, Some(error))
  {
  }

  /** How an f-string renders an optional string: `None` prints as "None". */
  function Shown(s: Option<string>): string {
    if s.Some? then s.value else "None"
  }

  /** `if request.topic:` — a topic is used when it is present and not empty. */
  predicate HasTopic(r: JokeRequest) {
    r.topic.Some? && r.topic.value != ""
  }

  const Instruction := "\nWygeneruj żart:"

  function TopicLine(r: JokeRequest): string
    requires HasTopic(r)
  {
    "Temat: " + r.topic.value
  }

  function StyleLine(r: JokeRequest): string {
    "Styl: " + Shown(r.style)
  }

  function LengthLine(r: JokeRequest): string {
    "Długość: " + Shown(r.length)
  }

  /** The prompt's lines before they are joined. */
  function PromptParts(r: JokeRequest): seq<string> {
    (if HasTopic(r) then [TopicLine(r)] else []) + [StyleLine(r), LengthLine(r), Instruction]
  }

  /** `_build_prompt` */
  method BuildPrompt(r: JokeRequest) returns (prompt: string)
    ensures prompt == Join(PromptParts(r), "\n")
  {
    var parts: seq<string> := [];
    if HasTopic(r) {
      parts := parts + [TopicLine(r)];
    }
    parts := parts + [StyleLine(r)];
    parts := parts + [LengthLine(r)];
    parts := parts + [Instruction];
    assert parts == PromptParts(r);
    prompt := Join(parts, "\n");
  }

  /** The text before the style line: the topic line and a newline, or nothing. */
  function Head(r: JokeRequest): string {
    if HasTopic(r) then TopicLine(r) + "\n" else ""
  }

  /** The joined prompt: an optional topic line, then the style and the length lines, then a
      blank line and the instruction, in this order. */
  lemma {:induction false} PromptShape(r: JokeRequest)
    ensures Join(PromptParts(r), "\n") == Head(r) + (StyleLine(r) + "\n" + LengthLine(r) + "\n" + Instruction)
  {
    var tail := [StyleLine(r), LengthLine(r), Instruction];
    JoinThree(StyleLine(r), LengthLine(r), Instruction, "\n");
    if HasTopic(r) {
      assert PromptParts(r) == [TopicLine(r)] + tail;
      assert ([TopicLine(r)] + tail)[1..] == tail;
    } else {
      assert PromptParts(r) == tail;
    }
  }

  /** The prompt opens with the topic line exactly when the request has a topic, and opens
      with the style line otherwise. */
  lemma {:induction false} TopicLineIff(r: JokeRequest)
    ensures StartsWith(Join(PromptParts(r), "\n"), "Temat: ") <==> HasTopic(r)
    ensures !HasTopic(r) ==> StartsWith(Join(PromptParts(r), "\n"), StyleLine(r))
  {
    PromptShape(r);
    if HasTopic(r) {
      TopicOpens(r);
    } else {
      StyleOpens(r);
    }
  }

  lemma {:induction false} TopicOpens(r: JokeRequest)
    requires HasTopic(r)
    ensures StartsWith(Head(r) + (StyleLine(r) + "\n" + LengthLine(r) + "\n" + Instruction), "Temat: ")
  {
    var rest := StyleLine(r) + "\n" + LengthLine(r) + "\n" + Instruction;
    OpensWith("Temat: ", r.topic.value, "\n" + rest, "Temat: ");
    assert Head(r) + rest == "Temat: " + r.topic.value + ("\n" + rest);
  }

  lemma {:induction false} StyleOpens(r: JokeRequest)
    requires !HasTopic(r)
    ensures StartsWith(Head(r) + (StyleLine(r) + "\n" + LengthLine(r) + "\n" + Instruction), StyleLine(r))
    ensures !StartsWith(Head(r) + (StyleLine(r) + "\n" + LengthLine(r) + "\n" + Instruction), "Temat: ")
  {
    var more := "\n" + LengthLine(r) + "\n" + Instruction;
    OpensWith("Styl: ", Shown(r.style), more, "Temat: ");
    assert Head(r) + (StyleLine(r) + "\n" + LengthLine(r) + "\n" + Instruction) == "Styl: " + Shown(r.style) + more;
  }

  /** A text made of a name, a value and more starts with the name and with the name and the
      value, and does not start with `other` when the first letters differ. */
  lemma {:induction false} OpensWith(name: string, value: string, more: string, other: string)
    requires |name| > 0 && |other| > 0
    ensures StartsWith(name + value + more, name)
    ensures StartsWith(name + value + more, name + value)
    ensures other[0] != name[0] ==> !StartsWith(name + value + more, other)
  {
    var t := name + value + more;
    assert t[..|name|] == name;
    assert t[..|name + value|] == name + value;
    assert t[0] == name[0];
  }

  /** The prompt closes with a newline and the instruction, so the instruction follows a blank
      line. */
  lemma {:induction false} EndsWithInstruction(r: JokeRequest)
    ensures |Join(PromptParts(r), "\n")| > |Instruction|
    ensures Join(PromptParts(r), "\n")[|Join(PromptParts(r), "\n")| - |Instruction| - 1..] == "\n" + Instruction
  {
    PromptShape(r);
    var front := Head(r) + StyleLine(r) + "\n" + LengthLine(r);
    assert Join(PromptParts(r), "\n") == front + ("\n" + Instruction);
  }

  /** The style and length lines are in every prompt. */
  lemma {:induction false} StyleAndLengthPresent(r: JokeRequest)
    ensures Contains(Join(PromptParts(r), "\n"), StyleLine(r))
    ensures Contains(Join(PromptParts(r), "\n"), LengthLine(r))
  {
    PromptShape(r);
    MiddleLinesPresent(Head(r), StyleLine(r), LengthLine(r), Instruction);
  }

  /** Two lines written after a head and before a last line both occur in the text. */
  lemma {:induction false} MiddleLinesPresent(head: string, first: string, second: string, last: string)
    ensures Contains(head + (first + "\n" + second + "\n" + last), first)
    ensures Contains(head + (first + "\n" + second + "\n" + last), second)
  {
    var rest := first + "\n" + second + "\n" + last;
    assert rest == first + ("\n" + second + "\n" + last);
    ContainsAfter(head, rest, first);
    assert head + rest == (head + first + "\n") + (second + "\n" + last);
    ContainsAfter(head + first + "\n", second + "\n" + last, second);
  }
}
