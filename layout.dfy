// The two static layout tables of uinput-text-input.cpp (create_keycode_map
// and create_shifted_keycode_map), the lookup order of uinput_type_text, and
// the list of keys init_uinput enables on the virtual device.

module UinputLayout {
  import opened Wrappers
  import opened KeyCodes
  import opened Ascii

  /** keycode_map: the key that types an ASCII character without shift. */
  function UnshiftedKey(c: char): Option<int>
  {
    match c
    // Letters, in the source's QWERTY row order
    case 'q' => Some(KEY_Q) case 'w' => Some(KEY_W) case 'e' => Some(KEY_E) case 'r' => Some(KEY_R)
    case 't' => Some(KEY_T) case 'y' => Some(KEY_Y) case 'u' => Some(KEY_U) case 'i' => Some(KEY_I)
    case 'o' => Some(KEY_O) case 'p' => Some(KEY_P) case 'a' => Some(KEY_A) case 's' => Some(KEY_S)
    case 'd' => Some(KEY_D) case 'f' => Some(KEY_F) case 'g' => Some(KEY_G) case 'h' => Some(KEY_H)
    case 'j' => Some(KEY_J) case 'k' => Some(KEY_K) case 'l' => Some(KEY_L) case 'z' => Some(KEY_Z)
    case 'x' => Some(KEY_X) case 'c' => Some(KEY_C) case 'v' => Some(KEY_V) case 'b' => Some(KEY_B)
    case 'n' => Some(KEY_N) case 'm' => Some(KEY_M)
    // Number row
    case '1' => Some(KEY_1) case '2' => Some(KEY_2) case '3' => Some(KEY_3) case '4' => Some(KEY_4)
    case '5' => Some(KEY_5) case '6' => Some(KEY_6) case '7' => Some(KEY_7) case '8' => Some(KEY_8)
    case '9' => Some(KEY_9) case '0' => Some(KEY_0)
    // Whitespace and unshifted punctuation
    case ' ' => Some(KEY_SPACE) case '\n' => Some(KEY_ENTER) case '\t' => Some(KEY_TAB)
    case '-' => Some(KEY_MINUS) case '=' => Some(KEY_EQUAL) case '[' => Some(KEY_LEFTBRACE)
    case ']' => Some(KEY_RIGHTBRACE) case '\\' => Some(KEY_BACKSLASH) case ';' => Some(KEY_SEMICOLON)
    case '\'' => Some(KEY_APOSTROPHE) case '`' => Some(KEY_GRAVE) case ',' => Some(KEY_COMMA)
    case '.' => Some(KEY_DOT) case '/' => Some(KEY_SLASH)
    case _ => None
  }

  /** shifted_keycode_map: the key that types an ASCII character with shift. */
  function ShiftedKey(c: char): Option<int>
  {
    match c
    // Upper-case letters share the key of their lower-case letter
    case 'Q' => Some(KEY_Q) case 'W' => Some(KEY_W) case 'E' => Some(KEY_E) case 'R' => Some(KEY_R)
    case 'T' => Some(KEY_T) case 'Y' => Some(KEY_Y) case 'U' => Some(KEY_U) case 'I' => Some(KEY_I)
    case 'O' => Some(KEY_O) case 'P' => Some(KEY_P) case 'A' => Some(KEY_A) case 'S' => Some(KEY_S)
    case 'D' => Some(KEY_D) case 'F' => Some(KEY_F) case 'G' => Some(KEY_G) case 'H' => Some(KEY_H)
    case 'J' => Some(KEY_J) case 'K' => Some(KEY_K) case 'L' => Some(KEY_L) case 'Z' => Some(KEY_Z)
    case 'X' => Some(KEY_X) case 'C' => Some(KEY_C) case 'V' => Some(KEY_V) case 'B' => Some(KEY_B)
    case 'N' => Some(KEY_N) case 'M' => Some(KEY_M)
    // Shifted punctuation
    case '!' => Some(KEY_1) case '@' => Some(KEY_2) case '#' => Some(KEY_3)
    case '$' => Some(KEY_4) case '%' => Some(KEY_5) case '^' => Some(KEY_6)
    case '&' => Some(KEY_7) case '*' => Some(KEY_8) case '(' => Some(KEY_9)
    case ')' => Some(KEY_0) case '_' => Some(KEY_MINUS) case '+' => Some(KEY_EQUAL)
    case '{' => Some(KEY_LEFTBRACE) case '}' => Some(KEY_RIGHTBRACE) case '|' => Some(KEY_BACKSLASH)
    case ':' => Some(KEY_SEMICOLON) case '"' => Some(KEY_APOSTROPHE) case '~' => Some(KEY_GRAVE)
    case '<' => Some(KEY_COMMA) case '>' => Some(KEY_DOT) case '?' => Some(KEY_SLASH)
    case _ => None
  }

  /** The translation of one ASCII character. */
  datatype ResolvedKey = ResolvedKey(code: int, shift: bool)

  /** The lookup of uinput_type_text: the unshifted table first, then the
      shifted one; None when neither has the character. */
  function Resolve(c: char): Option<ResolvedKey>
  {
    match UnshiftedKey(c)
    case Some(k) => Some(ResolvedKey(k, false))
    case None =>
      match ShiftedKey(c)
      case Some(k) => Some(ResolvedKey(k, true))
      case None => None
  }

  /** The keys init_uinput enables with UI_SET_KEYBIT (its calls listed in
      the source's order). */
  const RequestedKeys: set<int> := {
    KEY_Q, KEY_W, KEY_E, KEY_R, KEY_T, KEY_Y, KEY_U, KEY_I, KEY_O, KEY_P,
    KEY_A, KEY_S, KEY_D, KEY_F, KEY_G, KEY_H, KEY_J, KEY_K, KEY_L, KEY_Z,
    KEY_X, KEY_C, KEY_V, KEY_B, KEY_N, KEY_M, KEY_1, KEY_2, KEY_3, KEY_4,
    KEY_5, KEY_6, KEY_7, KEY_8, KEY_9, KEY_0, KEY_SPACE, KEY_ENTER, KEY_TAB, KEY_LEFTSHIFT,
    KEY_RIGHTSHIFT, KEY_MINUS, KEY_EQUAL, KEY_LEFTBRACE, KEY_RIGHTBRACE, KEY_SEMICOLON, KEY_APOSTROPHE, KEY_GRAVE, KEY_BACKSLASH, KEY_COMMA,
    KEY_DOT, KEY_SLASH
  }

  /** The key-to-character inverse of the two tables, stated key by key: the
      character a key types, with or without shift. */
  function KeyChar(code: int, shift: bool): Option<char>
  {
    if !shift then
      match code
      case 16 /* Q */ => Some('q') case 17 /* W */ => Some('w') case 18 /* E */ => Some('e')
      case 19 /* R */ => Some('r') case 20 /* T */ => Some('t') case 21 /* Y */ => Some('y')
      case 22 /* U */ => Some('u') case 23 /* I */ => Some('i') case 24 /* O */ => Some('o')
      case 25 /* P */ => Some('p') case 30 /* A */ => Some('a') case 31 /* S */ => Some('s')
      case 32 /* D */ => Some('d') case 33 /* F */ => Some('f') case 34 /* G */ => Some('g')
      case 35 /* H */ => Some('h') case 36 /* J */ => Some('j') case 37 /* K */ => Some('k')
      case 38 /* L */ => Some('l') case 44 /* Z */ => Some('z') case 45 /* X */ => Some('x')
      case 46 /* C */ => Some('c') case 47 /* V */ => Some('v') case 48 /* B */ => Some('b')
      case 49 /* N */ => Some('n') case 50 /* M */ => Some('m') case 2 /* 1 */ => Some('1')
      case 3 /* 2 */ => Some('2') case 4 /* 3 */ => Some('3') case 5 /* 4 */ => Some('4')
      case 6 /* 5 */ => Some('5') case 7 /* 6 */ => Some('6') case 8 /* 7 */ => Some('7')
      case 9 /* 8 */ => Some('8') case 10 /* 9 */ => Some('9') case 11 /* 0 */ => Some('0')
      case 57 /* SPACE */ => Some(' ') case 28 /* ENTER */ => Some('\n') case 15 /* TAB */ => Some('\t')
      case 12 /* MINUS */ => Some('-') case 13 /* EQUAL */ => Some('=') case 26 /* LEFTBRACE */ => Some('[')
      case 27 /* RIGHTBRACE */ => Some(']') case 43 /* BACKSLASH */ => Some('\\') case 39 /* SEMICOLON */ => Some(';')
      case 40 /* APOSTROPHE */ => Some('\'') case 41 /* GRAVE */ => Some('`') case 51 /* COMMA */ => Some(',')
      case 52 /* DOT */ => Some('.') case 53 /* SLASH */ => Some('/')
      case _ => None
    else
      match code
      case 16 /* Q */ => Some('Q') case 17 /* W */ => Some('W') case 18 /* E */ => Some('E')
      case 19 /* R */ => Some('R') case 20 /* T */ => Some('T') case 21 /* Y */ => Some('Y')
      case 22 /* U */ => Some('U') case 23 /* I */ => Some('I') case 24 /* O */ => Some('O')
      case 25 /* P */ => Some('P') case 30 /* A */ => Some('A') case 31 /* S */ => Some('S')
      case 32 /* D */ => Some('D') case 33 /* F */ => Some('F') case 34 /* G */ => Some('G')
      case 35 /* H */ => Some('H') case 36 /* J */ => Some('J') case 37 /* K */ => Some('K')
      case 38 /* L */ => Some('L') case 44 /* Z */ => Some('Z') case 45 /* X */ => Some('X')
      case 46 /* C */ => Some('C') case 47 /* V */ => Some('V') case 48 /* B */ => Some('B')
      case 49 /* N */ => Some('N') case 50 /* M */ => Some('M') case 2 /* 1 */ => Some('!')
      case 3 /* 2 */ => Some('@') case 4 /* 3 */ => Some('#') case 5 /* 4 */ => Some('$')
      case 6 /* 5 */ => Some('%') case 7 /* 6 */ => Some('^') case 8 /* 7 */ => Some('&')
      case 9 /* 8 */ => Some('*') case 10 /* 9 */ => Some('(') case 11 /* 0 */ => Some(')')
      case 12 /* MINUS */ => Some('_') case 13 /* EQUAL */ => Some('+') case 26 /* LEFTBRACE */ => Some('{')
      case 27 /* RIGHTBRACE */ => Some('}') case 43 /* BACKSLASH */ => Some('|') case 39 /* SEMICOLON */ => Some(':')
      case 40 /* APOSTROPHE */ => Some('"') case 41 /* GRAVE */ => Some('~') case 51 /* COMMA */ => Some('<')
      case 52 /* DOT */ => Some('>') case 53 /* SLASH */ => Some('?')
      case _ => None
  }

  /** Punctuation typed without shift (whitespace included). */
  predicate IsUnshiftedPunctuation(c: char)
  {
    c in " \n\t-=[]\\;'`,./"
  }

  /** Punctuation typed with shift. */
  predicate IsShiftedPunctuation(c: char)
  {
    c in "!@#$%^&*()_+{}|:\"~<>?"
  }

  /** The characters keycode_map has an entry for. */
  lemma UnshiftedDomain(c: char)
    ensures UnshiftedKey(c).Some? <==> IsLower(c) || IsDigit(c) || IsUnshiftedPunctuation(c)
  {
  }

  /** The characters shifted_keycode_map has an entry for. */
  lemma ShiftedDomain(c: char)
    ensures ShiftedKey(c).Some? <==> IsUpper(c) || IsShiftedPunctuation(c)
  {
  }

  /** No character is in both tables, so the lookup order never decides. */
  lemma TablesDisjoint(c: char)
    ensures UnshiftedKey(c).None? || ShiftedKey(c).None?
  {
    UnshiftedDomain(c);
    ShiftedDomain(c);
  }

  /** An upper-case letter is typed with the key of its lower-case letter. */
  lemma ShiftedLetterSharesKey(c: char)
    requires IsUpper(c)
    ensures ShiftedKey(c).Some? && ShiftedKey(c) == UnshiftedKey(ToLower(c))
  {
  }

  /** Which characters need shift: exactly the upper-case letters and the
      shifted punctuation; lower-case letters, digits, whitespace and the
      other punctuation resolve without it. */
  lemma ResolveShift(c: char)
    ensures (Resolve(c).Some? && !Resolve(c).value.shift) <==>
            IsLower(c) || IsDigit(c) || IsUnshiftedPunctuation(c)
    ensures (Resolve(c).Some? && Resolve(c).value.shift) <==>
            IsUpper(c) || IsShiftedPunctuation(c)
  {
    UnshiftedDomain(c);
    ShiftedDomain(c);
  }

  /** The tables together cover printable ASCII, newline and tab, and
      nothing else. */
  lemma ResolveCoversPrintable(c: char)
    ensures Resolve(c).Some? <==> (' ' <= c <= '~' || c == '\n' || c == '\t')
  {
    UnshiftedDomain(c);
    ShiftedDomain(c);
  }

  lemma UnshiftedKeyChar(c: char)
    ensures UnshiftedKey(c).Some? ==> KeyChar(UnshiftedKey(c).value, false) == Some(c)
  {
  }

  lemma ShiftedKeyChar(c: char)
    ensures ShiftedKey(c).Some? ==> KeyChar(ShiftedKey(c).value, true) == Some(c)
  {
  }

  /** Resolving a character and reading the key back gives the character. */
  lemma KeyCharInvertsResolve(c: char)
    ensures Resolve(c).Some? ==> KeyChar(Resolve(c).value.code, Resolve(c).value.shift) == Some(c)
  {
    UnshiftedKeyChar(c);
    ShiftedKeyChar(c);
  }

  lemma KeyCharUnshifted(code: int)
    ensures KeyChar(code, false).Some? ==> UnshiftedKey(KeyChar(code, false).value) == Some(code)
  {
  }

  lemma KeyCharShifted(code: int)
    ensures KeyChar(code, true).Some? ==> ShiftedKey(KeyChar(code, true).value) == Some(code)
  {
  }

  /** Every key/shift pair the inverse knows resolves from its character, so
      Resolve is a bijection between typeable characters and those pairs. */
  lemma ResolveInvertsKeyChar(code: int, shift: bool)
    ensures KeyChar(code, shift).Some? ==> Resolve(KeyChar(code, shift).value) == Some(ResolvedKey(code, shift))
  {
    if KeyChar(code, shift).Some? {
      var c := KeyChar(code, shift).value;
      if shift {
        KeyCharShifted(code);
        TablesDisjoint(c);
      } else {
        KeyCharUnshifted(code);
      }
    }
  }

  /** Every key the tables use, and the shift key, is among the keys enabled
      on the virtual device. */
  lemma RequestedKeysCoverLayout(c: char)
    ensures Resolve(c).Some? ==> Resolve(c).value.code in RequestedKeys
    ensures KEY_LEFTSHIFT in RequestedKeys
  {
  }

  /** Neither shift key types a character, so the shift bracket of type_key
      never collides with the key it brackets. */
  lemma ResolveNeverShiftKey(c: char)
    ensures Resolve(c).Some? ==> Resolve(c).value.code != KEY_LEFTSHIFT && Resolve(c).value.code != KEY_RIGHTSHIFT
  {
    KeyCharInvertsResolve(c);
  }

  /** Distinct characters of the unshifted table use distinct keys. */
  lemma UnshiftedKeyInjective(c: char, d: char)
    ensures UnshiftedKey(c).Some? && UnshiftedKey(c) == UnshiftedKey(d) ==> c == d
  {
    UnshiftedKeyChar(c);
    UnshiftedKeyChar(d);
  }
}
