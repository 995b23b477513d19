/**
 * Sequences of commands and refreshes applied to the fan mirror, in the
 * order the host platform issues them (it never runs two at once).
 */
module FanTrace {
  import opened Wrappers
  import opened Fan

  /** One call from the host platform, with the outcome of its network exchange. */
  datatype Event =
    | SetPreset(mode: string, post: PostOutcome)
    | TurnOn(speed: Option<string>, percentage: Option<int>, presetMode: Option<string>, post: PostOutcome)
    | TurnOff(post: PostOutcome)
    | Refresh(get: GetOutcome)

  function Step(s: FanState, e: Event): FanState {
    match e
    case SetPreset(mode, post) => AfterSetPresetMode(s, mode, post)
    case TurnOn(_, _, presetMode, post) => AfterTurnOn(s, presetMode, post)
    case TurnOff(post) => AfterTurnOff(s, post)
    case Refresh(get) => AfterUpdate(s, get)
  }

  /** The state after the events, first to last. */
  function Run(s: FanState, es: seq<Event>): FanState
    decreases |es|
  {
    if es == [] then s else Run(Step(s, es[0]), es[1..])
  }

  /**
   * What an exchange says about the device's reachability: it answered,
   * it did not, or (a parse failure) nothing.
   */
  function Verdict(e: Event): (v: Option<bool>)
    ensures v == None <==> e == Refresh(ParseFailed)
  {
    match e
    case SetPreset(_, post) => Some(post == Posted)
    case TurnOn(_, _, _, post) => Some(post == Posted)
    case TurnOff(post) => Some(post == Posted)
    case Refresh(get) =>
      match get
      case Got(_) => Some(true)
      case GetFailed => Some(false)
      case ParseFailed => None
  }

  /** The verdict of the last event that has one. */
  function LastVerdict(es: seq<Event>): Option<bool>
    decreases |es|
  {
    if es == [] then None
    else if Verdict(es[|es| - 1]).Some? then Verdict(es[|es| - 1])
    else LastVerdict(es[..|es| - 1])
  }

  /** One step's effect on availability. */
  lemma StepAvailable(s: FanState, e: Event)
    ensures Step(s, e).available == Verdict(e).GetOr(s.available)
  {
  }

  /** Running a sequence and then one more event is stepping after the run. */
  lemma {:induction false} RunSnoc(s: FanState, es: seq<Event>, e: Event)
    ensures Run(s, es + [e]) == Step(Run(s, es), e)
    decreases |es|
  {
    if es == [] {
      assert es + [e] == [e];
      assert [e][1..] == [];
    } else {
      assert (es + [e])[0] == es[0];
      assert (es + [e])[1..] == es[1..] + [e];
      RunSnoc(Step(s, es[0]), es[1..], e);
    }
  }

  /**
   * After any sequence of calls the fan is available exactly when the last
   * exchange that was not a parse failure succeeded; with no such exchange
   * availability is what it was.
   */
  lemma {:induction false} AvailableIsLastVerdict(s: FanState, es: seq<Event>)
    ensures Run(s, es).available == LastVerdict(es).GetOr(s.available)
    decreases |es|
  {
    if es != [] {
      var init, last := es[..|es| - 1], es[|es| - 1];
      assert es == init + [last];
      RunSnoc(s, init, last);
      StepAvailable(Run(s, init), last);
      AvailableIsLastVerdict(s, init);
    }
  }

  /**
   * Refreshes that end only in parse failures change nothing, whatever the
   * state; a fresh fan (`Initial`) stays off, at low speed and available.
   */
  lemma {:induction false} ParseFailuresKeepState(s: FanState, es: seq<Event>)
    requires forall i :: 0 <= i < |es| ==> es[i] == Refresh(ParseFailed)
    ensures Run(s, es) == s
    decreases |es|
  {
    if es != [] {
      assert Step(s, es[0]) == s;
      ParseFailuresKeepState(s, es[1..]);
    }
  }

  /** An event that can only leave a speed as the preset. */
  predicate KeepsSpeed(e: Event) {
    match e
    case SetPreset(mode, _) => IsSpeed(Some(mode))
    case TurnOn(_, _, presetMode, _) => IsSpeed(presetMode)
    case TurnOff(_) => true
    case Refresh(_) => true
  }

  /**
   * The preset stays one of the three speeds as long as no command supplies
   * anything else; refreshes never introduce another value.
   */
  lemma {:induction false} SpeedPreserved(s: FanState, es: seq<Event>)
    requires IsSpeed(s.presetMode)
    requires forall i :: 0 <= i < |es| ==> KeepsSpeed(es[i])
    ensures IsSpeed(Run(s, es).presetMode)
    decreases |es|
  {
    if es != [] {
      assert KeepsSpeed(es[0]);
      SpeedPreserved(Step(s, es[0]), es[1..]);
    }
  }

  /** Turning on at high and then reading back `{"on": true, "fan": 3}` gives power on, high, available. */
  lemma TurnOnHighThenConfirm(s: FanState, post: PostOutcome)
    ensures Run(s, [TurnOn(None, None, Some(SpeedHigh), post), Refresh(Got(Reply(true, 3)))])
         == FanState(true, Some(SpeedHigh), true)
  {
    var es := [TurnOn(None, None, Some(SpeedHigh), post), Refresh(Got(Reply(true, 3)))];
    var mid := Step(s, es[0]);
    assert mid == FanState(true, Some(SpeedHigh), post == Posted);
    assert es[1..] == [Refresh(Got(Reply(true, 3)))];
    assert Run(mid, es[1..]) == Run(Step(mid, es[1..][0]), []);
  }
}
