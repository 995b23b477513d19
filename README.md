# Matt's Gadgets ceiling fan — Dafny model

This project models the two pieces of logic in the Matt's Gadgets Ceiling Fan
integration for Home Assistant:

- **The fan entity** (`MattsGadgetsCeilingFan`, module `Fan`, class
  `Fan.CeilingFan`). It mirrors three fields, `_is_on`, `_preset_mode` and
  `_available`. The commands `set_preset_mode`, `turn_on` and `turn_off`
  update those fields optimistically and then `tell` the device.
  `tell` posts `{"on": …, "fan": 1|2|3}` and leaves out `"fan"` when the
  preset is not one of the three speeds. `update` reads the device's state
  back in. Each method takes the outcome of its network exchange as a
  parameter:
  - a post either returns or raises `RequestException`;
  - a get ends in a parsed reply, a `RequestException`, or a `JSONDecodeError`.

  Each method is tied to a pure transition function on `Fan.FanState`, such
  as `Fan.AfterTell` or `Fan.AfterUpdate`. Those functions state which fields
  the call changes and that nothing else changes. Module `FanTrace` runs
  sequences of such calls and proves properties of whole histories.
- **The setup wizard** (module `ConfigFlow`). It models three steps as pure
  functions over an abstract probe outcome:
  - `test_host` classifies the probe;
  - `validate_input` turns that result into entry data or `CannotConnect`;
  - `ConfigFlow.async_step_user` maps the result onto a form error under
    `"base"` or a created entry.

Notes on behaviour, following the code:
- `test_host` evaluates `"on" in r` on the decoded body. On a JSON object,
  array or string this never fails, and the result is `True` whichever keys
  are present. A body that is a bare number, boolean or `null` makes `in`
  raise `TypeError`. That exception passes through `validate_input` and
  ends as the `unknown` form error. So not every parseable body validates.
- `turn_on` without a preset sets `_preset_mode` to `None`. `tell` then
  sends no `"fan"` key. It does not keep the last speed
  (`Fan.TurnOnWithoutPresetDropsSpeed`).
- A parse failure during `update` leaves `_available` unchanged. A transport
  failure sets it to false. A failed `tell` keeps the optimistic update.
- The speed names are the host platform's `SPEED_LOW`, `SPEED_MEDIUM` and
  `SPEED_HIGH` ("low", "medium", "high"). Those constants are defined
  outside the repository. The model uses only the fact that they differ.

## Model

| member | source | states |
|---|---|---|
| `Fan.FanCode` | custom_components/matts_gadgets_ceiling_fan/fan.py:102-107 | a `"fan"` value is produced exactly for the three speeds, and it lies in 1..3 |
| `Fan.PresetFromCode` | custom_components/matts_gadgets_ceiling_fan/fan.py:125-130 | a reply code selects a preset exactly when it is 1, 2 or 3, and that preset is a speed |
| `Fan.SpeedCodes` | custom_components/matts_gadgets_ceiling_fan/fan.py:102-107 | low, medium and high encode as 1, 2 and 3; no preset encodes as no `"fan"` key |
| `Fan.CodeRoundTrip` | custom_components/matts_gadgets_ceiling_fan/fan.py:102-130 | decoding the code `tell` sends for a speed gives back that speed |
| `Fan.PresetRoundTrip` | custom_components/matts_gadgets_ceiling_fan/fan.py:102-130 | encoding the preset that code 1..3 selects gives back that code |
| `Fan.TellPayload` | custom_components/matts_gadgets_ceiling_fan/fan.py:100-107 | the posted `"on"` equals `_is_on`; `"fan"` is present exactly for a speed preset and decodes to it |
| `Fan.AfterTell` | custom_components/matts_gadgets_ceiling_fan/fan.py:110-116 | `tell` sets availability to whether the post succeeded and leaves power and preset alone (no rollback) |
| `Fan.AfterSetPresetMode` | custom_components/matts_gadgets_ceiling_fan/fan.py:76-79 | the preset becomes the argument, power is kept, and availability follows the post |
| `Fan.AfterTurnOn` | custom_components/matts_gadgets_ceiling_fan/fan.py:81-91 | power becomes on, the preset becomes the argument (possibly `None`), and availability follows the post |
| `Fan.AfterTurnOff` | custom_components/matts_gadgets_ceiling_fan/fan.py:93-96 | power becomes off, the preset is kept, and availability follows the post |
| `Fan.AfterUpdate` | custom_components/matts_gadgets_ceiling_fan/fan.py:118-136 | a reply copies `on`, selects the preset for codes 1..3 (otherwise keeps it) and sets available; a transport failure only clears availability; a parse failure changes nothing |
| `Fan.UpdateForgetsHistory` | custom_components/matts_gadgets_ceiling_fan/fan.py:124-131 | a reply with code 1..3 determines the whole state whatever the prior state |
| `Fan.EchoIsFixedPoint` | custom_components/matts_gadgets_ceiling_fan/fan.py:100-131 | a device that echoes the posted payload back leaves power and a speed preset unchanged on the next update |
| `Fan.TurnOnWithoutPresetDropsSpeed` | custom_components/matts_gadgets_ceiling_fan/fan.py:81-107 | turning on without a preset leaves a non-speed preset and posts `{"on": true}` with no `"fan"` key |
| `Fan.CeilingFan.constructor` | custom_components/matts_gadgets_ceiling_fan/fan.py:37-43 | stores name, id and host; starts available, off, at low speed |
| `Fan.CeilingFan.SetPresetMode` | custom_components/matts_gadgets_ceiling_fan/fan.py:76-79 | the new fields are `AfterSetPresetMode` of the old ones; posts the payload of the updated state |
| `Fan.CeilingFan.TurnOn` | custom_components/matts_gadgets_ceiling_fan/fan.py:81-91 | the new fields are `AfterTurnOn` of the old ones (speed and percentage ignored); posts the payload of the updated state |
| `Fan.CeilingFan.TurnOff` | custom_components/matts_gadgets_ceiling_fan/fan.py:93-96 | the new fields are `AfterTurnOff` of the old ones; posts the payload of the updated state |
| `Fan.CeilingFan.Tell` | custom_components/matts_gadgets_ceiling_fan/fan.py:98-116 | the payload built key by key equals `TellPayload` of the current fields; the new fields are `AfterTell` of the old ones |
| `Fan.CeilingFan.Update` | custom_components/matts_gadgets_ceiling_fan/fan.py:118-136 | the new fields are `AfterUpdate` of the old ones |
| `FanTrace.AvailableIsLastVerdict` | custom_components/matts_gadgets_ceiling_fan/fan.py:110-136 | after any call sequence, availability is the outcome of the last exchange that was not a parse failure (the prior value if there was none) |
| `FanTrace.ParseFailuresKeepState` | custom_components/matts_gadgets_ceiling_fan/fan.py:118-136 | any number of refreshes that end in parse failures leave every field as it was, from any state; with the constructor's `Initial` a fresh fan stays off, at low speed and available |
| `FanTrace.SpeedPreserved` | custom_components/matts_gadgets_ceiling_fan/fan.py:76-131 | the preset stays one of the three speeds as long as no command supplies another value; updates never introduce one |
| `FanTrace.TurnOnHighThenConfirm` | custom_components/matts_gadgets_ceiling_fan/fan.py:81-131 | turning on at high and then reading `{"on": true, "fan": 3}` yields on, high, available from any state |
| `ConfigFlow.IsInfixOccurs` | custom_components/matts_gadgets_ceiling_fan/config_flow.py:27 | the substring scan used for `key in r` on a string body succeeds exactly when `key` occurs at some index of the string |
| `ConfigFlow.Membership` | custom_components/matts_gadgets_ceiling_fan/config_flow.py:27 | `key in r` raises `TypeError` exactly for a number, boolean or null body; it is key lookup on an object, element equality on an array, and true on a string exactly when `key` occurs in it at some index |
| `ConfigFlow.TestHost` | custom_components/matts_gadgets_ceiling_fan/config_flow.py:23-35 | `False` on transport failure, no value on parse failure, `True` exactly for a parsed body that supports `in`, otherwise raises `TypeError` |
| `ConfigFlow.ObjectProbeSucceeds` | custom_components/matts_gadgets_ceiling_fan/config_flow.py:26-30 | any JSON object validates, whether or not it has `"on"` and `"fan"` |
| `ConfigFlow.ScalarProbeRaises` | custom_components/matts_gadgets_ceiling_fan/config_flow.py:26-27 | a bare number, boolean or null body makes the probe raise |
| `ConfigFlow.EntryData` | custom_components/matts_gadgets_ceiling_fan/config_flow.py:49 | the stored data has exactly the keys `name` and `host`, copied from the input |
| `ConfigFlow.ValidateInput` | custom_components/matts_gadgets_ceiling_fan/config_flow.py:38-49 | returns the entry data exactly when the probe returned `True`; raises `CannotConnect` exactly on transport or parse failure; never raises `InvalidAuth` |
| `ConfigFlow.ErrorCode` | custom_components/matts_gadgets_ceiling_fan/config_flow.py:70-76 | `cannot_connect` exactly for `CannotConnect`, `invalid_auth` exactly for `InvalidAuth`, `unknown` otherwise |
| `ConfigFlow.StepUser` | custom_components/matts_gadgets_ceiling_fan/config_flow.py:57-82 | no input gives the bare form; an entry titled by the name is created exactly when validation succeeds; otherwise one error under `"base"` |
| `ConfigFlow.CannotConnectExactly` | custom_components/matts_gadgets_ceiling_fan/config_flow.py:31-71 | the form shows `cannot_connect` exactly after a transport or parse failure |
| `ConfigFlow.UnknownExactly` | custom_components/matts_gadgets_ceiling_fan/config_flow.py:26-76 | the form shows `unknown` exactly when the body made the probe raise |
| `ConfigFlow.NeverInvalidAuth` | custom_components/matts_gadgets_ceiling_fan/config_flow.py:38-73 | no input and no probe outcome leads to the `invalid_auth` error |
| `ConfigFlow.ReachableDeviceCreatesEntry` | custom_components/matts_gadgets_ceiling_fan/config_flow.py:23-78 | a device answering `{"on": true, "fan": 2}` leads to an entry `{name, host}` titled by the name |

## Left out

- HTTP requests (`requests.get`, `requests.post`) and JSON decoding: each exchange is an outcome parameter.
- Which exception a parse failure raises depends on the `requests` version. In newer versions it is a `RequestException` and would take the transport-failure branch. The model follows the `except` clauses as written.
- Device replies that are malformed: `Fan.Reply` always is an object holding a boolean `on` and an integer `fan`, so none of these cases is modelled:
  - A reply without `"on"` makes `update` raise an uncaught `KeyError` before any field changes.
  - A reply with `"on"` but without `"fan"` overwrites `_is_on` and then raises `KeyError`. This leaves a partial update that the model cannot express; `_available` is not touched.
  - A reply that is not an object (an array, string, number or null) makes `r["on"]` raise an uncaught `TypeError`.
  - An `"on"` value of another type is copied as is. A JSON `true` as `"fan"` compares equal to 1 in Python.
- Logging.
- Home Assistant plumbing: `async_setup_entry`, `async_unload_entry`, `async_add_devices`, `async_add_executor_job` and form rendering. `__init__.py` is not part of this model.
- The voluptuous schema: `UserInput` always has a host and a name.
- Constant-valued properties (`device_info`, `supported_features`, `preset_modes`, `unique_id`, `name`) and the trivial getters `is_on`, `preset_mode` and `available`. The getters are the class's public fields.
- async/await and scheduling: the host runs one call at a time, so `FanTrace` treats a history as a sequence.
- JSON numbers: non-integral numbers are folded into `JNumber`. Only their kind matters to the probe.
