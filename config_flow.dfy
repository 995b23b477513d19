/**
 * The setup wizard: a one-shot probe of the user's host, the validation
 * built on it, and the mapping of its outcome onto a form error or a new
 * configuration entry.
 */
module ConfigFlow {
  import opened Wrappers

  /** A decoded JSON body (numbers, integral or not, are one case). */
  datatype Json =
    | JNull
    | JBool(b: bool)
    | JNumber(n: int)
    | JString(s: string)
    | JArray(items: seq<Json>)
    | JObject(fields: map<string, Json>)

  /** How `GET <host>/api/state` followed by JSON decoding ends. */
  datatype ProbeOutcome = Parsed(body: Json) | TransportFail | ParseFail

  /** The exceptions that reach the wizard. */
  datatype Exception = CannotConnect | InvalidAuth | TypeError

  /** A Python call returns a value or raises. */
  datatype Outcome<+T> = Returns(value: T) | Raises(exception: Exception)

  /** The form fields the user submits. */
  datatype UserInput = UserInput(host: string, name: string)

  /** What a wizard step hands back to the host platform. */
  datatype FlowResult =
    | ShowForm(stepId: string, errors: map<string, string>)
    | CreateEntry(title: string, data: map<string, string>)

  /** `key` occurs in `s` starting at index `i`. */
  predicate OccursAt(key: string, s: string, i: int) {
    0 <= i && i + |key| <= |s| && s[i..i + |key|] == key
  }

  /** Python's substring test `key in s`, scanning `s` from the left. */
  function IsInfix(key: string, s: string): bool
    decreases |s|
  {
    key <= s || (|s| > 0 && IsInfix(key, s[1..]))
  }

  /** The scan finds `key` exactly when it occurs at some index of `s`. */
  lemma {:induction false} IsInfixOccurs(key: string, s: string)
    ensures IsInfix(key, s) <==> exists i :: OccursAt(key, s, i)
    decreases |s|
  {
    if key <= s {
      assert OccursAt(key, s, 0);
    } else if |s| > 0 {
      var t := s[1..];
      IsInfixOccurs(key, t);
      if IsInfix(key, t) {
        var j :| OccursAt(key, t, j);
        assert s[j + 1..j + 1 + |key|] == t[j..j + |key|];
        assert OccursAt(key, s, j + 1);
      }
      if exists i :: OccursAt(key, s, i) {
        var i :| OccursAt(key, s, i);
        assert t[i - 1..i - 1 + |key|] == s[i..i + |key|];
        assert OccursAt(key, t, i - 1);
      }
    }
  }

  /**
   * Python's `key in r` on a decoded body: key lookup on an object, element
   * equality on an array, substring on a string; a number, boolean or null
   * raises `TypeError`.
   */
  function Membership(key: string, r: Json): (o: Outcome<bool>)
    ensures o.Raises? <==> (r.JNull? || r.JBool? || r.JNumber?)
    ensures o.Raises? ==> o.exception == TypeError
    ensures r.JObject? ==> o == Returns(key in r.fields)
    ensures r.JArray? ==> o == Returns(JString(key) in r.items)
    ensures r.JString? ==> (o == Returns(true) <==> exists i :: OccursAt(key, r.s, i))
  {
    match r
    case JObject(fields) => Returns(key in fields)
    case JArray(items) => Returns(JString(key) in items)
    case JString(s) =>
      IsInfixOccurs(key, s);
      Returns(IsInfix(key, s))
    case _ => Raises(TypeError)
  }

  /** Python truthiness of `test_host`'s result: `None` and `False` are falsy. */
  function Truthy(connected: Option<bool>): bool {
    connected == Some(true)
  }

  /**
   * `test_host`: `True` for a parsed body that supports `in`, whichever keys
   * it has; `False` on a transport failure; no value on a parse failure.
   */
  function TestHost(probe: ProbeOutcome): (r: Outcome<Option<bool>>)
    ensures probe == TransportFail ==> r == Returns(Some(false))
    ensures probe == ParseFail ==> r == Returns(None)
    ensures probe.Parsed? ==> r == Returns(Some(true)) || r == Raises(TypeError)
    ensures r == Returns(Some(true)) <==> probe.Parsed? && Membership("on", probe.body).Returns?
  {
    match probe
    case TransportFail => Returns(Some(false))
    case ParseFail => Returns(None)
    case Parsed(r) =>
      match Membership("on", r)
      case Raises(e) => Raises(e)
      case Returns(hasOn) =>
        if !hasOn then Returns(Some(true))
        else
          match Membership("fan", r)
          case Raises(e) => Raises(e)
          case Returns(hasFan) =>
            if hasFan then Returns(Some(true)) else Returns(Some(true))
  }

  /** The probe of any JSON object succeeds, with or without the keys `"on"` and `"fan"`. */
  lemma ObjectProbeSucceeds(fields: map<string, Json>)
    ensures TestHost(Parsed(JObject(fields))) == Returns(Some(true))
  {
  }

  /** A body that is a bare number, boolean or null makes the probe raise. */
  lemma ScalarProbeRaises(body: Json)
    requires body.JNull? || body.JBool? || body.JNumber?
    ensures TestHost(Parsed(body)) == Raises(TypeError)
  {
  }

  /** The configuration data stored for an input: its name and host and nothing else. */
  function EntryData(input: UserInput): (info: map<string, string>)
    ensures info.Keys == {"name", "host"}
    ensures info["name"] == input.name && info["host"] == input.host
  {
    map["name" := input.name, "host" := input.host]
  }

  /**
   * `validate_input`: a falsy probe result raises `CannotConnect`, an
   * exception of the probe passes through, and otherwise the entry data is
   * returned.
   */
  function ValidateInput(input: UserInput, probe: ProbeOutcome): (r: Outcome<map<string, string>>)
    ensures r.Returns? <==> TestHost(probe) == Returns(Some(true))
    ensures r.Returns? ==> r.value == EntryData(input)
    ensures r == Raises(CannotConnect) <==> probe == TransportFail || probe == ParseFail
    ensures r != Raises(InvalidAuth)
  {
    match TestHost(probe)
    case Raises(e) => Raises(e)
    case Returns(connected) =>
      if !Truthy(connected) then Raises(CannotConnect) else Returns(EntryData(input))
  }

  /** The form error code for an exception caught by the user step. */
  function ErrorCode(e: Exception): (code: string)
    ensures code == "cannot_connect" <==> e == CannotConnect
    ensures code == "invalid_auth" <==> e == InvalidAuth
    ensures code in {"cannot_connect", "invalid_auth", "unknown"}
  {
    match e
    case CannotConnect => "cannot_connect"
    case InvalidAuth => "invalid_auth"
    case _ => "unknown"
  }

  /**
   * `ConfigFlow.async_step_user`: no input shows the empty form; a validated
   * input creates an entry titled with its name; otherwise the form is shown
   * again with one error under `"base"`.
   */
  function StepUser(userInput: Option<UserInput>, probe: ProbeOutcome): (r: FlowResult)
    ensures userInput == None ==> r == ShowForm("user", map[])
    ensures r.CreateEntry? <==> userInput.Some? && ValidateInput(userInput.value, probe).Returns?
    ensures r.CreateEntry? ==> r.title == userInput.value.name && r.data == EntryData(userInput.value)
    ensures r.ShowForm? ==> r.stepId == "user"
    ensures r.ShowForm? && userInput.Some? ==>
      r.errors.Keys == {"base"} && r.errors["base"] == ErrorCode(ValidateInput(userInput.value, probe).exception)
  {
    match userInput
    case None => ShowForm("user", map[])
    case Some(input) =>
      match ValidateInput(input, probe)
      case Returns(info) => CreateEntry(info["name"], info)
      case Raises(e) => ShowForm("user", map["base" := ErrorCode(e)])
  }

  /** The user step reports `cannot_connect` exactly for a probe that failed in transport or in parsing. */
  lemma CannotConnectExactly(input: UserInput, probe: ProbeOutcome)
    ensures StepUser(Some(input), probe) == ShowForm("user", map["base" := "cannot_connect"])
        <==> probe == TransportFail || probe == ParseFail
  {
  }

  /** The user step reports `unknown` exactly for a body that made the probe raise. */
  lemma UnknownExactly(input: UserInput, probe: ProbeOutcome)
    ensures StepUser(Some(input), probe) == ShowForm("user", map["base" := "unknown"])
        <==> probe.Parsed? && Membership("on", probe.body).Raises?
  {
  }

  /** The `invalid_auth` error is never shown. */
  lemma NeverInvalidAuth(userInput: Option<UserInput>, probe: ProbeOutcome)
    ensures var r := StepUser(userInput, probe);
      r.ShowForm? ==> "base" !in r.errors || r.errors["base"] != "invalid_auth"
  {
  }

  /** Probing a device that answers `{"on": true, "fan": 2}` creates the entry `{name, host}`. */
  lemma ReachableDeviceCreatesEntry(input: UserInput)
    ensures StepUser(Some(input), Parsed(JObject(map["on" := JBool(true), "fan" := JNumber(2)])))
         == CreateEntry(input.name, map["name" := input.name, "host" := input.host])
  {
  }
}
