/** The records of the generated configuration file, as the host application
    reads them. An absent JSON field is `None`; the compiler never emits an
    optional list field as an empty list. */
module Karabiner {
  import opened Common

  /** One event of a `to`, `to_after_key_up` or combo list. */
  datatype ToEvent =
    | KeyCode(keyCode: string, modifiers: Option<seq<string>>)
    | PointingButton(button: string)
    | ShellCommand(command: string)
    | SetVariable(name: string, value: int)
      /** An array written where the file format expects one key name: what a simple
          map whose target is an array of keys produces. */
    | KeyCodeList(keyCodes: seq<string>, modifiers: Option<seq<string>>)

  /** `{ type: 'variable_if', name, value }`: the only condition kind the compiler emits. */
  datatype Condition = VariableIf(name: string, value: int)

  datatype FromModifiers = Mandatory(mandatory: seq<string>) | Optional(optional: seq<string>)

  datatype FromEvent = FromEvent(keyCode: string, modifiers: Option<FromModifiers>)

  /** An entry of `to_if_alone`. */
  datatype Alone = Alone(keyCode: string, holdDownMilliseconds: Option<int>)

  datatype Manipulator = Manipulator(
    description: string,
    from: FromEvent,
    to: seq<ToEvent>,
    toAfterKeyUp: Option<seq<ToEvent>>,
    toIfAlone: Option<seq<Alone>>,
    conditions: Option<seq<Condition>>)

  /** A rule description. `Decorated(head)` is `head` followed by a summary that the
      source renders through its icon table, which is not part of this model. */
  datatype RuleDesc = Plain(text: string) | Decorated(head: string)

  datatype KaraRule = KaraRule(description: RuleDesc, manipulators: seq<Manipulator>)

  /** An entry of `simple_modifications`; `to` is a KeyCode or KeyCodeList event. */
  datatype SimpleMod = SimpleMod(from: FromEvent, to: ToEvent)

  datatype DeviceIdentifiers = DeviceIdentifiers(
    isKeyboard: Option<bool>,
    isPointingDevice: Option<bool>,
    productId: Option<int>,
    vendorId: Option<int>)

  datatype Device = Device(identifiers: DeviceIdentifiers, ignore: bool)

  datatype Profile = Profile(
    name: string,
    devices: Option<seq<Device>>,
    simpleModifications: Option<seq<SimpleMod>>,
    rules: seq<KaraRule>,
    keyboardTypeV2: string)

  datatype KaraCfg = KaraCfg(showInMenuBar: bool, profiles: seq<Profile>)

  /** Every manipulator of a list of rules, in order. */
  function AllManipulators(rus: seq<KaraRule>): seq<Manipulator>
  {
    if |rus| == 0 then [] else AllManipulators(rus[..|rus| - 1]) + rus[|rus| - 1].manipulators
  }
}
