/**
 * The ceiling-fan entity of the integration: an in-memory mirror of the
 * device's power, preset and availability, pushed to the device as a small
 * JSON payload (`tell`) and pulled back from it (`update`).
 *
 * Network exchanges are not performed: each command or refresh receives the
 * outcome of its exchange as a parameter.
 */
module Fan {
  import opened Wrappers

  // The host platform's preset names for the three fan speeds.
  const SpeedLow: string := "low"
  const SpeedMedium: string := "medium"
  const SpeedHigh: string := "high"

  /** True when `preset` is one of the three speeds the device understands. */
  predicate IsSpeed(preset: Option<string>) {
    preset == Some(SpeedLow) || preset == Some(SpeedMedium) || preset == Some(SpeedHigh)
  }

  /** The JSON body posted to `<host>/api/state`: `{"on": bool}` plus an optional `"fan"` key. */
  datatype Payload = Payload(on: bool, fan: Option<int>)

  /** A parsed reply of `GET <host>/api/state`, typed as carrying both keys. */
  datatype Reply = Reply(on: bool, fan: int)

  /** How a `POST` ends: it returned, or raised a `RequestException`. */
  datatype PostOutcome = Posted | PostFailed

  /**
   * How a `GET` followed by JSON decoding ends: a parsed reply, a
   * `RequestException`, or a `JSONDecodeError`.
   */
  datatype GetOutcome = Got(reply: Reply) | GetFailed | ParseFailed

  /** The three mutable fields of the entity, as one value. */
  datatype FanState = FanState(isOn: bool, presetMode: Option<string>, available: bool)

  /** The state of a freshly constructed entity. */
  const Initial: FanState := FanState(false, Some(SpeedLow), true)

  /** The `"fan"` value for a preset: 1, 2, 3 for the three speeds, none otherwise. */
  function FanCode(preset: Option<string>): (code: Option<int>)
    ensures code.Some? <==> IsSpeed(preset)
    ensures code.Some? ==> 1 <= code.value <= 3
  {
    if preset == Some(SpeedLow) then Some(1)
    else if preset == Some(SpeedMedium) then Some(2)
    else if preset == Some(SpeedHigh) then Some(3)
    else None
  }

  /** The preset a reply's `"fan"` value selects; none for a value that selects nothing. */
  function PresetFromCode(code: int): (preset: Option<string>)
    ensures preset.Some? <==> 1 <= code <= 3
    ensures preset.Some? ==> IsSpeed(preset)
  {
    if code == 1 then Some(SpeedLow)
    else if code == 2 then Some(SpeedMedium)
    else if code == 3 then Some(SpeedHigh)
    else None
  }

  /** The encoding table: low, medium and high are sent as 1, 2 and 3. */
  lemma SpeedCodes()
    ensures FanCode(Some(SpeedLow)) == Some(1)
    ensures FanCode(Some(SpeedMedium)) == Some(2)
    ensures FanCode(Some(SpeedHigh)) == Some(3)
    ensures FanCode(None) == None
  {
  }

  /** Decoding the code of a speed gives that speed back. */
  lemma CodeRoundTrip(preset: Option<string>)
    requires IsSpeed(preset)
    ensures FanCode(preset).Some?
    ensures PresetFromCode(FanCode(preset).value) == preset
  {
  }

  /** Encoding the preset that a code 1..3 selects gives that code back. */
  lemma PresetRoundTrip(code: int)
    requires 1 <= code <= 3
    ensures FanCode(PresetFromCode(code)) == Some(code)
  {
  }

  /** The payload `tell` posts for a state. */
  function TellPayload(s: FanState): (p: Payload)
    ensures p.on == s.isOn
    ensures p.fan.Some? <==> IsSpeed(s.presetMode)
    ensures p.fan.Some? ==> PresetFromCode(p.fan.value) == s.presetMode
  {
    Payload(s.isOn, FanCode(s.presetMode))
  }

  /** `tell`: only availability changes, to whether the post went through; nothing is rolled back. */
  function AfterTell(s: FanState, post: PostOutcome): (t: FanState)
    ensures t.isOn == s.isOn && t.presetMode == s.presetMode
    ensures t.available <==> post == Posted
  {
    s.(available := post == Posted)
  }

  /** `set_preset_mode`: the preset is replaced, power is kept, then `tell`. */
  function AfterSetPresetMode(s: FanState, mode: string, post: PostOutcome): (t: FanState)
    ensures t.presetMode == Some(mode) && t.isOn == s.isOn
    ensures t.available <==> post == Posted
  {
    AfterTell(s.(presetMode := Some(mode)), post)
  }

  /** `turn_on`: power becomes on and the preset becomes the argument, even when it is `None`, then `tell`. */
  function AfterTurnOn(s: FanState, presetMode: Option<string>, post: PostOutcome): (t: FanState)
    ensures t.isOn && t.presetMode == presetMode
    ensures t.available <==> post == Posted
  {
    AfterTell(s.(isOn := true, presetMode := presetMode), post)
  }

  /** `turn_off`: power becomes off, the preset is kept, then `tell`. */
  function AfterTurnOff(s: FanState, post: PostOutcome): (t: FanState)
    ensures !t.isOn && t.presetMode == s.presetMode
    ensures t.available <==> post == Posted
  {
    AfterTell(s.(isOn := false), post)
  }

  /**
   * `update`: a parsed reply overwrites power, selects a preset when its code
   * is 1..3 (otherwise keeps the preset) and marks the fan available; a
   * transport failure only marks it unavailable; a parse failure changes nothing.
   */
  function AfterUpdate(s: FanState, get: GetOutcome): (t: FanState)
    ensures get.Got? ==> t.isOn == get.reply.on && t.available
    ensures get.Got? && 1 <= get.reply.fan <= 3 ==> t.presetMode == PresetFromCode(get.reply.fan)
    ensures get.Got? && !(1 <= get.reply.fan <= 3) ==> t.presetMode == s.presetMode
    ensures get == GetFailed ==> t == s.(available := false)
    ensures get == ParseFailed ==> t == s
  {
    match get
    case Got(r) => FanState(r.on, if 1 <= r.fan <= 3 then PresetFromCode(r.fan) else s.presetMode, true)
    case GetFailed => s.(available := false)
    case ParseFailed => s
  }

  /** A parsed reply with a code 1..3 determines the whole state, whatever came before. */
  lemma UpdateForgetsHistory(s: FanState, s': FanState, r: Reply)
    requires 1 <= r.fan <= 3
    ensures AfterUpdate(s, Got(r)) == AfterUpdate(s', Got(r))
  {
  }

  /**
   * A device that reports back what it was told leaves the mirror as it was,
   * apart from marking it available, as long as the preset is a speed.
   */
  lemma EchoIsFixedPoint(s: FanState)
    requires IsSpeed(s.presetMode)
    ensures TellPayload(s).fan.Some?
    ensures AfterUpdate(s, Got(Reply(TellPayload(s).on, TellPayload(s).fan.value))) == s.(available := true)
  {
  }

  /** Turning on without a preset leaves no speed in the mirror and sends no `"fan"` key. */
  lemma TurnOnWithoutPresetDropsSpeed(s: FanState, post: PostOutcome)
    ensures !IsSpeed(AfterTurnOn(s, None, post).presetMode)
    ensures TellPayload(s.(isOn := true, presetMode := None)) == Payload(true, None)
  {
  }

  /** The entity `MattsGadgetsCeilingFan`. */
  class CeilingFan {
    const name: string
    const id: string
    const host: string
    var available: bool
    var isOn: bool
    var presetMode: Option<string>

    /** The mutable fields as a value. */
    function State(): FanState
      reads this
    {
      FanState(isOn, presetMode, available)
    }

    constructor (name: string, id: string, host: string)
      ensures this.name == name && this.id == id && this.host == host
      ensures State() == Initial
    {
      this.name := name;
      this.id := id;
      this.host := host;
      available := true;
      isOn := false;
      presetMode := Some(SpeedLow);
    }

    /** Sets the preset, then tells the device; returns the payload posted. */
    method SetPresetMode(mode: string, post: PostOutcome) returns (sent: Payload)
      modifies this
      ensures sent == TellPayload(old(State()).(presetMode := Some(mode)))
      ensures State() == AfterSetPresetMode(old(State()), mode, post)
    {
      presetMode := Some(mode);
      sent := Tell(post);
    }

    /** Turns on with the given preset (`speed` and `percentage` are ignored), then tells the device. */
    method TurnOn(speed: Option<string>, percentage: Option<int>, presetMode: Option<string>, post: PostOutcome)
      returns (sent: Payload)
      modifies this
      ensures sent == TellPayload(old(State()).(isOn := true, presetMode := presetMode))
      ensures State() == AfterTurnOn(old(State()), presetMode, post)
    {
      isOn := true;
      this.presetMode := presetMode;
      sent := Tell(post);
    }

    /** Turns off, keeping the preset, then tells the device. */
    method TurnOff(post: PostOutcome) returns (sent: Payload)
      modifies this
      ensures sent == TellPayload(old(State()).(isOn := false))
      ensures State() == AfterTurnOff(old(State()), post)
    {
      isOn := false;
      sent := Tell(post);
    }

    /** Builds the payload from the current fields, posts it and records whether that worked. */
    method Tell(post: PostOutcome) returns (data: Payload)
      modifies this
      ensures data == TellPayload(old(State()))
      ensures State() == AfterTell(old(State()), post)
    {
      data := Payload(isOn, None);
      if presetMode == Some(SpeedLow) {
        data := data.(fan := Some(1));
      } else if presetMode == Some(SpeedMedium) {
        data := data.(fan := Some(2));
      } else if presetMode == Some(SpeedHigh) {
        data := data.(fan := Some(3));
      }
      match post
      case Posted =>
        available := true;
      case PostFailed =>
        available := false;
    }

    /** Pulls the device's state into the fields. */
    method Update(get: GetOutcome)
      modifies this
      ensures State() == AfterUpdate(old(State()), get)
    {
      match get
      case Got(r) =>
        isOn := r.on;
        if r.fan == 1 {
          presetMode := Some(SpeedLow);
        } else if r.fan == 2 {
          presetMode := Some(SpeedMedium);
        } else if r.fan == 3 {
          presetMode := Some(SpeedHigh);
        }
        available := true;
      case GetFailed =>
        available := false;
      case ParseFailed =>
    }
  }
}
