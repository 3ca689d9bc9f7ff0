// Linux input-event constants (linux/input-event-codes.h) used by both
// text-input backends, and the Option type shared by the model.

module Wrappers {
  datatype Option<+T> = None | Some(value: T)
}

module KeyCodes {
  // Event types and the synchronisation code.
  const EV_SYN: int := 0
  const EV_KEY: int := 1
  const SYN_REPORT: int := 0

  // Digits: the number row starts at KEY_1 == 2 and ends with KEY_0 == 11.
  const KEY_1: int := 2
  const KEY_2: int := 3
  const KEY_3: int := 4
  const KEY_4: int := 5
  const KEY_5: int := 6
  const KEY_6: int := 7
  const KEY_7: int := 8
  const KEY_8: int := 9
  const KEY_9: int := 10
  const KEY_0: int := 11

  // Letters, numbered in QWERTY position order, not alphabetically.
  const KEY_Q: int := 16
  const KEY_W: int := 17
  const KEY_E: int := 18
  const KEY_R: int := 19
  const KEY_T: int := 20
  const KEY_Y: int := 21
  const KEY_U: int := 22
  const KEY_I: int := 23
  const KEY_O: int := 24
  const KEY_P: int := 25
  const KEY_A: int := 30
  const KEY_S: int := 31
  const KEY_D: int := 32
  const KEY_F: int := 33
  const KEY_G: int := 34
  const KEY_H: int := 35
  const KEY_J: int := 36
  const KEY_K: int := 37
  const KEY_L: int := 38
  const KEY_Z: int := 44
  const KEY_X: int := 45
  const KEY_C: int := 46
  const KEY_V: int := 47
  const KEY_B: int := 48
  const KEY_N: int := 49
  const KEY_M: int := 50

  // Whitespace, modifiers and punctuation.
  const KEY_MINUS: int := 12
  const KEY_EQUAL: int := 13
  const KEY_TAB: int := 15
  const KEY_LEFTBRACE: int := 26
  const KEY_RIGHTBRACE: int := 27
  const KEY_ENTER: int := 28
  const KEY_SEMICOLON: int := 39
  const KEY_APOSTROPHE: int := 40
  const KEY_GRAVE: int := 41
  const KEY_LEFTSHIFT: int := 42
  const KEY_BACKSLASH: int := 43
  const KEY_COMMA: int := 51
  const KEY_DOT: int := 52
  const KEY_SLASH: int := 53
  const KEY_RIGHTSHIFT: int := 54
  const KEY_SPACE: int := 57
}

// Character classes of plain ASCII.
module Ascii {
  predicate IsUpper(c: char) { 'A' <= c <= 'Z' }
  predicate IsLower(c: char) { 'a' <= c <= 'z' }
  predicate IsDigit(c: char) { '0' <= c <= '9' }

  function ToLower(c: char): (r: char)
    requires IsUpper(c)
    ensures IsLower(r)
  {
    (c as int + 32) as char
  }
}
