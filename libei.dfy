// The libei backend: its two key tables, built by loops over character
// ranges with contiguous arithmetic, and its connection state, which never
// gets as far as a keyboard device.

module LibeiTables {
  import opened Wrappers
  import opened KeyCodes
  import opened Ascii
  import opened UinputLayout

  /** The punctuation keycode_map lists after the letters and digits. */
  function LibeiUnshiftedPunctuation(c: char): Option<int>
  {
    match c
    case ' ' => Some(KEY_SPACE) case '\n' => Some(KEY_ENTER) case '\t' => Some(KEY_TAB)
    case '-' => Some(KEY_MINUS) case '=' => Some(KEY_EQUAL) case '[' => Some(KEY_LEFTBRACE)
    case ']' => Some(KEY_RIGHTBRACE) case '\\' => Some(KEY_BACKSLASH) case ';' => Some(KEY_SEMICOLON)
    case '\'' => Some(KEY_APOSTROPHE) case '`' => Some(KEY_GRAVE) case ',' => Some(KEY_COMMA)
    case '.' => Some(KEY_DOT) case '/' => Some(KEY_SLASH)
    case _ => None
  }

  /** The punctuation shifted_keycode_map lists after the capitals. */
  function LibeiShiftedPunctuation(c: char): Option<int>
  {
    match c
    case '!' => Some(KEY_1) case '@' => Some(KEY_2) case '#' => Some(KEY_3) case '$' => Some(KEY_4)
    case '%' => Some(KEY_5) case '^' => Some(KEY_6) case '&' => Some(KEY_7) case '*' => Some(KEY_8)
    case '(' => Some(KEY_9) case ')' => Some(KEY_0) case '_' => Some(KEY_MINUS) case '+' => Some(KEY_EQUAL)
    case '{' => Some(KEY_LEFTBRACE) case '}' => Some(KEY_RIGHTBRACE) case '|' => Some(KEY_BACKSLASH)
    case ':' => Some(KEY_SEMICOLON) case '"' => Some(KEY_APOSTROPHE) case '~' => Some(KEY_GRAVE)
    case '<' => Some(KEY_COMMA) case '>' => Some(KEY_DOT) case '?' => Some(KEY_SLASH)
    case _ => None
  }

  /** keycode_map as a function: a letter's code counts up from KEY_A, a
      digit's from KEY_0, then the punctuation. */
  function LibeiUnshiftedCode(c: char): Option<int>
  {
    if IsLower(c) then Some(KEY_A + (c as int - 'a' as int))
    else if IsDigit(c) then Some(KEY_0 + (c as int - '0' as int))
    else LibeiUnshiftedPunctuation(c)
  }

  /** shifted_keycode_map as a function: a capital's code counts up from
      KEY_A, then the punctuation. */
  function LibeiShiftedCode(c: char): Option<int>
  {
    if IsUpper(c) then Some(KEY_A + (c as int - 'A' as int))
    else LibeiShiftedPunctuation(c)
  }

  /** The table a map stands for: its entry for each character, if any. */
  ghost predicate Tabulates(m: map<char, int>, f: char -> Option<int>)
  {
    forall c :: f(c) == if c in m then Some(m[c]) else None
  }

  /** One of the source's `for` loops over a character range: each
      character from `lo` to `hi` is entered with the code counting up from
      `first`; the other entries stay. */
  method AddRun(m: map<char, int>, lo: char, hi: char, first: int) returns (r: map<char, int>)
    requires lo <= hi && hi as int < 128
    ensures forall x :: x in r <==> x in m || lo <= x <= hi
    ensures forall x :: x in r ==> r[x] == if lo <= x <= hi then first + (x as int - lo as int) else m[x]
  {
    r := m;
    var k := lo as int;
    while k <= hi as int
      invariant lo as int <= k <= hi as int + 1
      invariant forall x :: x in r <==> x in m || lo as int <= x as int < k
      invariant forall x :: x in r ==> r[x] == if lo as int <= x as int < k then first + (x as int - lo as int) else m[x]
    {
      r := r[k as char := first + (k - lo as int)];
      k := k + 1;
    }
  }

  /** The punctuation insertions of create_keycode_map, one after another. */
  method AddUnshiftedPunctuation(m: map<char, int>) returns (r: map<char, int>)
    ensures forall x :: x in r <==> x in m || LibeiUnshiftedPunctuation(x).Some?
    ensures forall x :: x in r ==> r[x] == if LibeiUnshiftedPunctuation(x).Some? then LibeiUnshiftedPunctuation(x).value else m[x]
  {
    r := m[' ' := KEY_SPACE][('\n') := KEY_ENTER][('\t') := KEY_TAB][('-') := KEY_MINUS][('=') := KEY_EQUAL];
    r := r[('[') := KEY_LEFTBRACE][(']') := KEY_RIGHTBRACE][('\\') := KEY_BACKSLASH][(';') := KEY_SEMICOLON];
    r := r[('\'') := KEY_APOSTROPHE][('`') := KEY_GRAVE][(',') := KEY_COMMA][('.') := KEY_DOT][('/') := KEY_SLASH];
  }

  /** The punctuation insertions of create_shifted_keycode_map, one after
      another. */
  method AddShiftedPunctuation(m: map<char, int>) returns (r: map<char, int>)
    ensures forall x :: x in r <==> x in m || LibeiShiftedPunctuation(x).Some?
    ensures forall x :: x in r ==> r[x] == if LibeiShiftedPunctuation(x).Some? then LibeiShiftedPunctuation(x).value else m[x]
  {
    r := m[('!') := KEY_1][('@') := KEY_2][('#') := KEY_3][('$') := KEY_4][('%') := KEY_5][('^') := KEY_6];
    r := r[('&') := KEY_7][('*') := KEY_8][('(') := KEY_9][(')') := KEY_0][('_') := KEY_MINUS][('+') := KEY_EQUAL];
    r := r[('{') := KEY_LEFTBRACE][('}') := KEY_RIGHTBRACE][('|') := KEY_BACKSLASH][(':') := KEY_SEMICOLON];
    r := r[('"') := KEY_APOSTROPHE][('~') := KEY_GRAVE][('<') := KEY_COMMA][('>') := KEY_DOT][('?') := KEY_SLASH];
  }

  /** create_keycode_map: the letters, the digits, then the punctuation one
      insertion at a time. */
  method CreateKeycodeMap() returns (m: map<char, int>)
    ensures Tabulates(m, LibeiUnshiftedCode)
  {
    m := AddRun(map[], 'a', 'z', KEY_A);
    m := AddRun(m, '0', '9', KEY_0);
    m := AddUnshiftedPunctuation(m);
  }

  /** create_shifted_keycode_map: the capitals, then the punctuation one
      insertion at a time. */
  method CreateShiftedKeycodeMap() returns (m: map<char, int>)
    ensures Tabulates(m, LibeiShiftedCode)
  {
    m := AddRun(map[], 'A', 'Z', KEY_A);
    m := AddShiftedPunctuation(m);
  }

  /** A capital shares its code with its lower-case letter. */
  lemma LibeiShiftedLetterSharesCode(c: char)
    requires IsUpper(c)
    ensures LibeiShiftedCode(c).Some? && LibeiShiftedCode(c) == LibeiUnshiftedCode(ToLower(c))
  {
  }

  /** No character is in both tables. */
  lemma LibeiTablesDisjoint(c: char)
    ensures LibeiUnshiftedCode(c).None? || LibeiShiftedCode(c).None?
  {
  }

  /** keycode_map covers the same characters as the uinput backend's. */
  lemma LibeiUnshiftedCovers(c: char)
    ensures LibeiUnshiftedCode(c).Some? <==> UnshiftedKey(c).Some?
  {
    UnshiftedDomain(c);
  }

  /** shifted_keycode_map covers the same characters as the uinput backend's. */
  lemma LibeiShiftedCovers(c: char)
    ensures LibeiShiftedCode(c).Some? <==> ShiftedKey(c).Some?
  {
    ShiftedDomain(c);
  }

  /** keycode_map agrees with the uinput backend's except on the letters and
      digits, where counting up from KEY_A and KEY_0 is right for 'a' and '0'
      only: Linux numbers its letter keys in keyboard order and puts KEY_0
      after KEY_9. */
  lemma LibeiUnshiftedAgrees(c: char)
    ensures LibeiUnshiftedCode(c) == UnshiftedKey(c) <==> (IsLower(c) || IsDigit(c) ==> c == 'a' || c == '0')
  {
  }

  /** shifted_keycode_map agrees with the uinput backend's except on the
      capitals other than 'A'. */
  lemma LibeiShiftedAgrees(c: char)
    ensures LibeiShiftedCode(c) == ShiftedKey(c) <==> (IsUpper(c) ==> c == 'A')
  {
  }

  /** The table as written gives '1' the code of '-', gives 'm' the code of
      the left shift key, and gives 'b' the key that types 's'. */
  lemma LibeiCodesCollide()
    ensures LibeiUnshiftedCode('1') == LibeiUnshiftedCode('-') == Some(KEY_MINUS)
    ensures LibeiUnshiftedCode('m') == Some(KEY_LEFTSHIFT)
    ensures KeyChar(LibeiUnshiftedCode('b').value, false) == Some('s')
  {
  }
}

module LibeiConnection {
  import opened Wrappers
  import opened LibeiTables

  /** What libei_available finds on the machine: XDG_RUNTIME_DIR, whether a
      socket exists at a path, whether a sender context can be created, and
      whether connecting it to a path succeeds. */
  datatype EiHost = EiHost(runtimeDir: Option<string>, socketExists: string -> bool,
                           senderOk: bool, setupOk: string -> bool)

  const EisSocketSuffix: string := "/gnome-remote-desktop/eis-0"

  /** The socket path as snprintf writes it into a 512-byte buffer: the
      runtime directory and the suffix, cut to 511 bytes. Each character of
      the directory stands for one byte. */
  function SocketPath(dir: string): (p: string)
    ensures |p| == if |dir| + |EisSocketSuffix| < 512 then |dir| + |EisSocketSuffix| else 511
    ensures p == (dir + EisSocketSuffix)[..|p|]
  {
    var full := dir + EisSocketSuffix;
    if |full| < 512 then full else full[..511]
  }

  /** A directory short enough keeps the whole suffix; one too long loses
      part of it. */
  lemma SocketPathSuffix(dir: string)
    ensures |dir| + |EisSocketSuffix| < 512 ==> SocketPath(dir)[|dir|..] == EisSocketSuffix
    ensures |dir| + |EisSocketSuffix| >= 512 ==> |SocketPath(dir)| < |dir| + |EisSocketSuffix|
  {
    if |dir| + |EisSocketSuffix| < 512 {
      assert SocketPath(dir) == dir + EisSocketSuffix;
    }
  }

  /** Every check of libei_available passes. */
  predicate Connects(h: EiHost)
  {
    h.runtimeDir.Some? && h.socketExists(SocketPath(h.runtimeDir.value))
    && h.senderOk && h.setupOk(SocketPath(h.runtimeDir.value))
  }

  /** A context was created but connecting it failed, so it was released. */
  predicate SetupFails(h: EiHost)
  {
    h.runtimeDir.Some? && h.socketExists(SocketPath(h.runtimeDir.value))
    && h.senderOk && !h.setupOk(SocketPath(h.runtimeDir.value))
  }

  /** send_key: key sending is not implemented, so it never reports a key
      as sent. */
  function SendKey(keycode: int, shiftNeeded: bool): (sent: bool)
    ensures !sent
  {
    false
  }

  /** The backend's globals: the two tables built at load time, the
      once-only flag, whether a context and a keyboard device exist, and how
      many times a context has been released. */
  class LibeiInput {
    const host: EiHost
    var keycodeMap: map<char, int>
    var shiftedKeycodeMap: map<char, int>
    var initialized: bool
    var hasContext: bool
    var hasKeyboard: bool
    var released: nat

    /** No code path creates the keyboard device; a context exists only
        after a first probe that connected. */
    predicate Valid()
      reads this
    {
      !hasKeyboard && (!initialized ==> !hasContext) && (hasContext ==> Connects(host))
    }

    constructor(h: EiHost)
      ensures Valid() && host == h
      ensures !initialized && !hasContext && released == 0
      ensures Tabulates(keycodeMap, LibeiUnshiftedCode) && Tabulates(shiftedKeycodeMap, LibeiShiftedCode)
    {
      host := h;
      var unshifted := CreateKeycodeMap();
      var shifted := CreateShiftedKeycodeMap();
      keycodeMap, shiftedKeycodeMap := unshifted, shifted;
      initialized, hasContext, hasKeyboard, released := false, false, false, 0;
    }

    /** libei_available: the first call probes and records the outcome; every
        later call only reports whether a context and a keyboard exist, which
        is never the case. */
    method Available() returns (r: bool)
      requires Valid()
      modifies this`initialized, this`hasContext, this`released
      ensures Valid() && initialized
      ensures old(initialized) ==> !r && hasContext == old(hasContext) && released == old(released)
      ensures !old(initialized) ==> r == Connects(host) && hasContext == r
      ensures !old(initialized) ==> released == old(released) + if SetupFails(host) then 1 else 0
    {
      if initialized {
        return hasContext && hasKeyboard;
      }
      initialized := true;
      if host.runtimeDir.None? {
        return false;
      }
      var path := SocketPath(host.runtimeDir.value);
      if !host.socketExists(path) {
        return false;
      }
      hasContext := host.senderOk;
      if !hasContext {
        return false;
      }
      if !host.setupOk(path) {
        released := released + 1;
        hasContext := false;
        return false;
      }
      return true;
    }

    /** libei_type_text: never types anything. When its own probe connects,
        it releases the context; when the probe fails, as it does on any call
        after the first, it leaves the context as it was. */
    method TypeText(text: string) returns (r: bool)
      requires Valid()
      modifies this`initialized, this`hasContext, this`released
      ensures Valid() && initialized && !r
      ensures !old(initialized) ==> !hasContext
      ensures !old(initialized) ==> released == old(released) + if Connects(host) || SetupFails(host) then 1 else 0
      ensures old(initialized) ==> hasContext == old(hasContext) && released == old(released)
    {
      var ok := Available();
      if !ok {
        return false;
      }
      if hasContext {
        released := released + 1;
        hasContext := false;
      }
      return false;
    }
  }

  /** A program that probes twice: the second probe fails whatever the
      first found, and no context is released twice. */
  method ProbeTwice(h: EiHost) returns (first: bool, second: bool, contextAlive: bool)
    ensures first == Connects(h) && !second
    ensures contextAlive == Connects(h)
  {
    var input := new LibeiInput(h);
    first := input.Available();
    second := input.Available();
    contextAlive := input.hasContext;
  }

  /** Typing without a probe first: nothing is typed and the context is
      gone afterwards, released exactly once when one was created. */
  method TypeWithoutProbe(h: EiHost, text: string) returns (typed: bool, contextAlive: bool, releases: nat)
    ensures !typed && !contextAlive
    ensures releases == if Connects(h) || SetupFails(h) then 1 else 0
  {
    var input := new LibeiInput(h);
    typed := input.TypeText(text);
    contextAlive := input.hasContext;
    releases := input.released;
  }

  /** Typing after a probe: the probe inside libei_type_text fails, so a
      context the first probe connected is never released. */
  method TypeAfterProbe(h: EiHost, text: string) returns (probed: bool, typed: bool, contextAlive: bool, releases: nat)
    ensures probed == Connects(h) && !typed
    ensures contextAlive == Connects(h)
    ensures releases == if SetupFails(h) then 1 else 0
  {
    var input := new LibeiInput(h);
    probed := input.Available();
    typed := input.TypeText(text);
    contextAlive := input.hasContext;
    releases := input.released;
  }
}
