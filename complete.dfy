/** `validate_prompt` (src/ollama/complete.py): the checks a prompt passes before it is sent to
    the Ollama server. */
module PromptValidation {
  import opened Wrappers

  /** A JSON value as `json.loads` produces it; a list or an object is seen only through its
      length, which is all the validator asks of it. NaN and infinities are not modelled. */
  datatype Value = Null | Bool(b: bool) | Int(i: int) | Float(x: real) | Str(s: string) | Container(size: nat)

  /** The prompt dictionary. */
  type Prompt = map<string, Value>

  /** Python's truth value. */
  predicate Truthy(v: Value) {
    match v
    case Null => false
    case Bool(b) => b
    case Int(i) => i != 0
    case Float(x) => x != 0.0
    case Str(s) => s != ""
    case Container(n) => n > 0
  }

  /** `len(v)`; `None` where Python raises a `TypeError`. */
  function Len(v: Value): (n: Option<nat>)
    ensures n.Some? <==> v.Str? || v.Container?
  {
    match v
    case Str(s) => Some(|s|)
    case Container(n) => Some(n)
    case _ => None
  }

  /** `prompt_data.get(key, default)` */
  function Get(p: Prompt, key: string, default: Value): Value {
    if key in p then p[key] else default
  }

  /** `isinstance(v, (int, float))`; a bool is an int in Python. */
  predicate IsNumber(v: Value) {
    v.Bool? || v.Int? || v.Float?
  }

  /** `isinstance(v, int)` */
  predicate IsInt(v: Value) {
    v.Bool? || v.Int?
  }

  /** The numeric value of a number, with `True` as 1 and `False` as 0. */
  function NumberOf(v: Value): real
    requires IsNumber(v)
  {
    match v
    case Bool(b) => if b then 1.0 else 0.0
    case Int(i) => i as real
    case Float(x) => x
  }

  const MaxChars := 200000

  const NoUser := "Brak treści wiadomości użytkownika"
  const UserTooLong := "Wiadomość użytkownika za długa (max 200k znaków)"
  const SystemTooLong := "System prompt za długi (max 200k znaków)"
  const BadTemperature := "Temperature musi być między 0 a 2 (Ollama pozwala do 2)"
  const BadMaxTokens := "Max tokens musi być między 1 a 8192"

  /** The position of an error message in the order of the checks; 5 for any other text. */
  function Rank(m: string): (k: nat)
    ensures k <= 5
  {
    if m == NoUser then 0
    else if m == UserTooLong then 1
    else if m == SystemTooLong then 2
    else if m == BadTemperature then 3
    else if m == BadMaxTokens then 4
    else 5
  }

  /** The five messages are told apart by their lengths. */
  lemma {:induction false} RankOfMessages()
    ensures Rank(NoUser) == 0 && Rank(UserTooLong) == 1 && Rank(SystemTooLong) == 2
    ensures Rank(BadTemperature) == 3 && Rank(BadMaxTokens) == 4
  {
    assert |NoUser| == 34 && |UserTooLong| == 48 && |SystemTooLong| == 40;
    assert |BadTemperature| == 55 && |BadMaxTokens| == 35;
  }

  /** The user text `validate_prompt` measures: the `user` entry, or "" when there is none. */
  function UserText(p: Prompt): Value {
    Get(p, "user", Str(""))
  }

  function SystemText(p: Prompt): Value {
    Get(p, "system", Str(""))
  }

  predicate TemperatureRejected(p: Prompt) {
    "temperature" in p &&
    var t := p["temperature"];
    !IsNumber(t) || NumberOf(t) < 0.0 || NumberOf(t) > 2.0
  }

  predicate MaxTokensRejected(p: Prompt) {
    "max_tokens" in p &&
    var n := p["max_tokens"];
    !IsInt(n) || NumberOf(n) < 1.0 || NumberOf(n) > 8192.0
  }

  datatype Validation = Validation(valid: bool, errors: seq<string>)

  /** `[m]` when the check fails, nothing otherwise. */
  function If(failed: bool, m: string): seq<string> {
    if failed then [m] else []
  }

  /** The messages of the checks that fail, in the order the checks run. */
  function Errors(p: Prompt): seq<string>
    requires Len(UserText(p)).Some? && Len(SystemText(p)).Some?
  {
    If(!Truthy(Get(p, "user", Null)), NoUser)
    + If(Len(UserText(p)).value > MaxChars, UserTooLong)
    + If(Len(SystemText(p)).value > MaxChars, SystemTooLong)
    + If(TemperatureRejected(p), BadTemperature)
    + If(MaxTokensRejected(p), BadMaxTokens)
  }

  /** The outcome of `validate_prompt`: a `TypeError` where `len()` of the user or system entry
      raises, otherwise the errors and whether there are none. */
  function ValidationOf(p: Prompt): Result<Validation, string> {
    if Len(UserText(p)).None? then Failure("TypeError: len() of the user entry")
    else if Len(SystemText(p)).None? then Failure("TypeError: len() of the system entry")
    else Success(Validation(Errors(p) == [], Errors(p)))
  }

  /** `validate_prompt` */
  method Validate(p: Prompt) returns (r: Result<Validation, string>)
    ensures r == ValidationOf(p)
  {
    var errors: seq<string> := [];
    if !Truthy(Get(p, "user", Null)) {
      errors := errors + [NoUser];
    }
    assert errors == If(!Truthy(Get(p, "user", Null)), NoUser);
    var userLength := Len(UserText(p));
    if userLength.None? {
      return Failure("TypeError: len() of the user entry");
    }
    if userLength.value > MaxChars {
      errors := errors + [UserTooLong];
    }
    assert errors == If(!Truthy(Get(p, "user", Null)), NoUser) + If(userLength.value > MaxChars, UserTooLong);
    var systemLength := Len(SystemText(p));
    if systemLength.None? {
      return Failure("TypeError: len() of the system entry");
    }
    if systemLength.value > MaxChars {
      errors := errors + [SystemTooLong];
    }
    if "temperature" in p {
      var temperature := p["temperature"];
      if !IsNumber(temperature) || NumberOf(temperature) < 0.0 || NumberOf(temperature) > 2.0 {
        errors := errors + [BadTemperature];
      }
    }
    if "max_tokens" in p {
      var maxTokens := p["max_tokens"];
      if !IsInt(maxTokens) || NumberOf(maxTokens) < 1.0 || NumberOf(maxTokens) > 8192.0 {
        errors := errors + [BadMaxTokens];
      }
    }
    assert errors == Errors(p);
    r := Success(Validation(|errors| == 0, errors));
  }

  /** Validation fails exactly where `len()` raises on the user or system entry, and a prompt
      is valid exactly when no check reports an error. */
  lemma {:induction false} ValidIffNoErrors(p: Prompt)
    ensures ValidationOf(p).Failure? <==> Len(UserText(p)).None? || Len(SystemText(p)).None?
    ensures ValidationOf(p).Success? ==> (ValidationOf(p).value.valid <==> ValidationOf(p).value.errors == [])
  {
  }

  /** Each message is reported exactly when its check fails: a missing or falsy user entry, a
      user or system text over 200000 characters, a temperature that is present and not a
      number in [0, 2], a `max_tokens` that is present and not an integer in [1, 8192]. */
  lemma {:induction false} ErrorIff(p: Prompt)
    requires Len(UserText(p)).Some? && Len(SystemText(p)).Some?
    ensures NoUser in Errors(p) <==> !Truthy(Get(p, "user", Null))
    ensures UserTooLong in Errors(p) <==> Len(UserText(p)).value > MaxChars
    ensures SystemTooLong in Errors(p) <==> Len(SystemText(p)).value > MaxChars
    ensures BadTemperature in Errors(p) <==> TemperatureRejected(p)
    ensures BadMaxTokens in Errors(p) <==> MaxTokensRejected(p)
  {
    RankOfMessages();
    forall m | m in Errors(p)
      ensures Rank(m) < 5
      ensures m == NoUser ==> !Truthy(Get(p, "user", Null))
      ensures m == UserTooLong ==> Len(UserText(p)).value > MaxChars
      ensures m == SystemTooLong ==> Len(SystemText(p)).value > MaxChars
      ensures m == BadTemperature ==> TemperatureRejected(p)
      ensures m == BadMaxTokens ==> MaxTokensRejected(p)
    {
    }
  }

  /** Check messages only, in strictly increasing check order, so each at most once. */
  predicate InCheckOrder(es: seq<string>) {
    forall i, j :: 0 <= i < j < |es| ==> Rank(es[i]) < Rank(es[j]) < 5
  }

  /** Every message ranks below `k`. */
  predicate RanksBelow(es: seq<string>, k: nat) {
    forall i :: 0 <= i < |es| ==> Rank(es[i]) < k
  }

  /** The messages come in the order of the checks, each at most once. */
  lemma {:induction false} ErrorsInCheckOrder(p: Prompt)
    requires Len(UserText(p)).Some? && Len(SystemText(p)).Some?
    ensures InCheckOrder(Errors(p))
  {
    ChecksInOrder(!Truthy(Get(p, "user", Null)), Len(UserText(p)).value > MaxChars,
      Len(SystemText(p)).value > MaxChars, TemperatureRejected(p), MaxTokensRejected(p));
  }

  /** Whatever subset of the five checks fails, the messages come in check order. */
  lemma {:induction false} ChecksInOrder(user: bool, userLong: bool, systemLong: bool, temperature: bool, maxTokens: bool)
    ensures InCheckOrder(If(user, NoUser) + If(userLong, UserTooLong) + If(systemLong, SystemTooLong)
      + If(temperature, BadTemperature) + If(maxTokens, BadMaxTokens))
  {
    var e0 := If(user, NoUser);
    var e1 := e0 + If(userLong, UserTooLong);
    var e2 := e1 + If(systemLong, SystemTooLong);
    var e3 := e2 + If(temperature, BadTemperature);
    assert InCheckOrder(e0) && RanksBelow(e0, 1) by {
      RankOfMessages();
      AppendInOrder([], user, NoUser, 0);
      assert [] + e0 == e0;
    }
    assert InCheckOrder(e1) && RanksBelow(e1, 2) by {
      RankOfMessages();
      AppendInOrder(e0, userLong, UserTooLong, 1);
    }
    assert InCheckOrder(e2) && RanksBelow(e2, 3) by {
      RankOfMessages();
      AppendInOrder(e1, systemLong, SystemTooLong, 2);
    }
    assert InCheckOrder(e3) && RanksBelow(e3, 4) by {
      RankOfMessages();
      AppendInOrder(e2, temperature, BadTemperature, 3);
    }
    RankOfMessages();
    AppendInOrder(e3, maxTokens, BadMaxTokens, 4);
  }

  /** The message of the check ranked `k` keeps messages ranked below `k` in check order. */
  lemma {:induction false} AppendInOrder(es: seq<string>, failed: bool, m: string, k: nat)
    requires InCheckOrder(es) && RanksBelow(es, k) && Rank(m) == k && k < 5
    ensures InCheckOrder(es + If(failed, m)) && RanksBelow(es + If(failed, m), k + 1)
  {
    var r := es + If(failed, m);
    forall i, j | 0 <= i < j < |r|
      ensures Rank(r[i]) < Rank(r[j]) < 5
    {
      if j >= |es| {
        assert r[j] == m;
      }
    }
  }

  /** A prompt with a non-empty user text of at most 200000 characters and nothing else is
      valid; an absent temperature or `max_tokens` is never reported. */
  lemma {:induction false} MinimalPromptIsValid(user: string)
    requires 0 < |user| <= MaxChars
    ensures ValidationOf(map["user" := Str(user)]) == Success(Validation(true, []))
  {
  }
}
