/** The identifier sets of the key, mouse-button and modifier enumerations.
    Aliases of the Key enumeration (lshift, enter, up, ...) share a value with
    the name they abbreviate, so only the distinct values appear here. */
module Keys {

  /** Every distinct value of the Key enumeration, in declaration order (`Object.values(Key)`). */
  const KeyValues: seq<string> := [
    "caps_lock", "escape", "fn", "left_shift", "left_control", "left_option", "left_command",
    "right_control", "right_option", "right_command", "right_shift", "a", "b", "c", "d", "e", "f",
    "g", "h", "i", "j", "k", "l", "m", "n", "o", "p", "q", "r", "s", "t", "u", "v", "w", "x", "y",
    "z", "1", "2", "3", "4", "5", "6", "7", "8", "9", "0", "return_or_enter", "tab", "spacebar",
    "delete_or_backspace", "delete_forward", "left_arrow", "right_arrow", "up_arrow", "down_arrow",
    "page_up", "page_down", "home", "end", "insert", "volume_increment", "volume_decrement",
    "mute", "display_brightness_increment", "display_brightness_decrement", "play_or_pause",
    "fastforward", "rewind", "eject", "grave_accent_and_tilde", "hyphen", "equal_sign",
    "open_bracket", "close_bracket", "backslash", "semicolon", "quote", "comma", "period", "slash",
    "f1", "f2", "f3", "f4", "f5", "f6", "f7", "f8", "f9", "f10", "f11", "f12", "f13", "f14", "f15",
    "f16", "f17", "f18", "f19", "f20", "f21", "f22", "f23", "f24", "keypad_num_lock",
    "keypad_slash", "keypad_asterisk", "keypad_hyphen", "keypad_plus", "keypad_enter",
    "keypad_period", "keypad_0", "keypad_1", "keypad_2", "keypad_3", "keypad_4", "keypad_5",
    "keypad_6", "keypad_7", "keypad_8", "keypad_9", "keypad_equal_sign", "print_screen",
    "scroll_lock", "pause", "menu", "power", "left_gui", "right_gui", "left_alt", "right_alt"
  ]

  /** The three Mouse values the destination classifier turns into pointing-button events. */
  const MouseLeft := "button1"
  const MouseRight := "button2"
  const MouseMiddle := "button3"
  const PointingButtons: set<string> := {MouseLeft, MouseRight, MouseMiddle}

  /** Mod.any, the optional modifier of trigger and toggle records. */
  const ModAny := "any"

  /** The default output of a tapped base key. */
  const Escape := "escape"

  predicate IsKey(s: string)
  {
    s in KeyValues
  }
}
