// The uinput backend: what uinput_type_text types for a piece of text, as
// pure functions of the text and of the answers of the device, and the
// virtual keyboard itself as an object over the backend's global state.

module UinputText {
  import opened Wrappers
  import opened Utf8
  import opened AccentFold
  import opened UinputLayout
  import opened InputEvents

  /** The key uinput_type_text presses for a codepoint: fold it to ASCII,
      then look it up in the unshifted table and then the shifted one. None
      when the fold gives 0 or neither table has the character. */
  function Plan(cp: nat): (k: Option<ResolvedKey>)
    ensures k.Some? <==> StripAccent(cp) != 0 as char && Resolve(StripAccent(cp)).Some?
  {
    var a := StripAccent(cp);
    if a == 0 as char then None else Resolve(a)
  }

  /** The codepoints the typing loop visits, as numbers: the decoder's
      output, read as an unsigned value. */
  function Scalars(text: seq<bv8>, pos: nat): (cps: seq<nat>)
    decreases |text| - pos
  {
    if pos >= |text| then []
    else
      var d := DecodeUtf8(text, pos);
      [d.codepoint as nat] + Scalars(text, pos + d.length)
  }

  /** Codepoints read as unsigned numbers, one for one. */
  function Nats(cps: seq<bv32>): (r: seq<nat>)
    ensures |r| == |cps|
  {
    seq(|cps|, j requires 0 <= j < |cps| => cps[j] as nat)
  }

  /** The loop visits the decoder's codepoints, as numbers. */
  lemma {:induction false} ScalarsIsCodepoints(text: seq<bv8>, pos: nat)
    ensures Scalars(text, pos) == Nats(Codepoints(text, pos))
    decreases |text| - pos
  {
    if pos < |text| {
      var d := DecodeUtf8(text, pos);
      ScalarsIsCodepoints(text, pos + d.length);
      var rest := Codepoints(text, pos + d.length);
      assert Codepoints(text, pos) == [d.codepoint] + rest;
      assert Nats([d.codepoint] + rest) == [d.codepoint as nat] + Nats(rest);
    }
  }

  /** On well-encoded text the loop visits exactly the codepoints that were
      encoded, in order. */
  lemma ScalarsEncodeAll(cps: seq<bv32>)
    requires forall j :: 0 <= j < |cps| ==> cps[j] <= MaxCodepoint
    ensures Scalars(EncodeAll(cps), 0) == Nats(cps)
  {
    ScalarsIsCodepoints(EncodeAll(cps), 0);
    CodepointsEncodeAll(cps);
  }

  /** The loop visits at most one codepoint per byte. */
  lemma ScalarsBound(text: seq<bv8>, pos: nat)
    requires pos <= |text|
    ensures |Scalars(text, pos)| <= |text| - pos
  {
    ScalarsIsCodepoints(text, pos);
    CodepointsBound(text, pos);
  }

  /** What became of one character. */
  datatype CharOutcome = Untypeable | Sent | WriteFailed

  /** One iteration of the typing loop: its events, its write attempts and
      its outcome. */
  datatype StepResult = StepResult(events: seq<InputEvent>, writes: nat, outcome: CharOutcome)

  /** One iteration of the typing loop, for the device answering write
      number j with writeOk(j) and the first write of the character being
      number `start`. */
  function Step(cp: nat, writeOk: nat -> bool, start: nat): (r: StepResult)
    ensures r.outcome == Untypeable <==> Plan(cp).None?
  {
    match Plan(cp)
    case None => StepResult([], 0, Untypeable)
    case Some(k) =>
      var s := KeySequence(k.code, k.shift);
      var n := Accepted(s, writeOk, start);
      StepResult(s[..n], WritesUsed(n, |s|), if n == |s| then Sent else WriteFailed)
  }

  /** The loop warns about a character it did not send unless its codepoint
      is 0 (a NUL byte or a malformed sequence). */
  predicate Warns(cp: nat, outcome: CharOutcome)
  {
    outcome != Sent && cp != 0
  }

  /** How one character is typed: its events, write attempts and outcome,
      given its codepoint and the number of its first write. */
  type Typist = (nat, nat) -> StepResult

  /** The typing of uinput_type_text on a device that answers write number
      j with writeOk(j). */
  function Typing(writeOk: nat -> bool): Typist
  {
    (cp: nat, start: nat) => Step(cp, writeOk, start)
  }

  /** The events a typing loop writes for a sequence of codepoints, its
      first write being number `start`. */
  function Events(cps: seq<nat>, typist: Typist, start: nat): seq<InputEvent>
    decreases |cps|
  {
    if cps == [] then []
    else
      var step := typist(cps[0], start);
      step.events + Events(cps[1..], typist, start + step.writes)
  }

  /** The number of write attempts of a typing loop. */
  function Writes(cps: seq<nat>, typist: Typist, start: nat): nat
    decreases |cps|
  {
    if cps == [] then 0
    else
      var w := typist(cps[0], start).writes;
      w + Writes(cps[1..], typist, start + w)
  }

  /** The outcome of every character, in order. */
  function Outcomes(cps: seq<nat>, typist: Typist, start: nat): (r: seq<CharOutcome>)
    ensures |r| == |cps|
    decreases |cps|
  {
    if cps == [] then []
    else
      var step := typist(cps[0], start);
      [step.outcome] + Outcomes(cps[1..], typist, start + step.writes)
  }

  /** The codepoints the loop warns about, given the outcomes of all of them. */
  function Warned(cps: seq<nat>, outcomes: seq<CharOutcome>): (r: seq<nat>)
    requires |outcomes| == |cps|
    ensures forall k :: 0 <= k < |r| ==> r[k] != 0
    ensures |r| <= |cps|
    decreases |cps|
  {
    if cps == [] then []
    else (if Warns(cps[0], outcomes[0]) then [cps[0]] else []) + Warned(cps[1..], outcomes[1..])
  }

  /** The key sequence of a character, or nothing when it cannot be typed. */
  function Intent(cp: nat): seq<InputEvent>
  {
    match Plan(cp)
    case None => []
    case Some(k) => KeySequence(k.code, k.shift)
  }

  /** The events a loop is meant to write, given the events meant for each
      character; Intended(cps, Intent) are the full key sequences of every
      character uinput_type_text can type. */
  function Intended(cps: seq<nat>, intent: nat -> seq<InputEvent>): seq<InputEvent>
    decreases |cps|
  {
    if cps == [] then [] else intent(cps[0]) + Intended(cps[1..], intent)
  }

  /** The characters the loop is meant to type: the fold of every codepoint
      it can type, in order. */
  function Typeable(cps: seq<nat>): seq<char>
    decreases |cps|
  {
    if cps == [] then []
    else (if Plan(cps[0]).Some? then [StripAccent(cps[0])] else []) + Typeable(cps[1..])
  }

  /** One character on a device that accepts every write. */
  lemma StepPerfect(cp: nat, writeOk: nat -> bool, start: nat)
    requires forall j :: start <= j ==> writeOk(j)
    ensures var r := Step(cp, writeOk, start);
      r.events == Intent(cp) && r.writes == |Intent(cp)| && r.outcome != WriteFailed
  {
    if Plan(cp).Some? {
      var k := Plan(cp).value;
      var s := KeySequence(k.code, k.shift);
      var n := Accepted(s, writeOk, start);
      assert n == |s|;
    }
  }

  /** A typist that, from write number `start` on, writes the full key
      sequence of every character it can type and fails none. */
  ghost predicate Faithful(typist: Typist, intent: nat -> seq<InputEvent>, start: nat)
  {
    forall cp: nat, w: nat :: start <= w ==>
      typist(cp, w).events == intent(cp) && typist(cp, w).writes == |intent(cp)| && typist(cp, w).outcome != WriteFailed
  }

  lemma PerfectDeviceFaithful(writeOk: nat -> bool, start: nat)
    requires forall j :: start <= j ==> writeOk(j)
    ensures Faithful(Typing(writeOk), Intent, start)
  {
    forall cp: nat, w: nat | start <= w
      ensures Typing(writeOk)(cp, w).events == Intent(cp) && Typing(writeOk)(cp, w).writes == |Intent(cp)|
      ensures Typing(writeOk)(cp, w).outcome != WriteFailed
    {
      StepPerfect(cp, writeOk, w);
    }
  }

  /** A faithful typist writes exactly the intended events, one write per
      event, and no character fails. */
  lemma {:induction false} FaithfulRun(cps: seq<nat>, typist: Typist, intent: nat -> seq<InputEvent>, start: nat)
    requires Faithful(typist, intent, start)
    ensures Events(cps, typist, start) == Intended(cps, intent)
    ensures Writes(cps, typist, start) == |Intended(cps, intent)|
    ensures forall k :: 0 <= k < |cps| ==> Outcomes(cps, typist, start)[k] != WriteFailed
    decreases |cps|
  {
    if cps != [] {
      var step := typist(cps[0], start);
      FaithfulRun(cps[1..], typist, intent, start + step.writes);
    }
  }

  /** A device that accepts every write from `start` on receives exactly the
      intended events, one write per event, and no character fails. */
  lemma PerfectDeviceRun(cps: seq<nat>, writeOk: nat -> bool, start: nat)
    requires forall j :: start <= j ==> writeOk(j)
    ensures Events(cps, Typing(writeOk), start) == Intended(cps, Intent)
    ensures Writes(cps, Typing(writeOk), start) == |Intended(cps, Intent)|
    ensures forall k :: 0 <= k < |cps| ==> Outcomes(cps, Typing(writeOk), start)[k] != WriteFailed
  {
    PerfectDeviceFaithful(writeOk, start);
    FaithfulRun(cps, Typing(writeOk), Intent, start);
  }

  /** Replaying the intended events from an idle keyboard types exactly the
      typeable characters and leaves no key held. */
  lemma {:induction false} IntendedObserved(cps: seq<nat>)
    ensures Observed({}, Intended(cps, Intent)) == Typeable(cps)
    ensures Replay({}, Intended(cps, Intent)) == {}
    decreases |cps|
  {
    if cps != [] {
      IntendedObserved(cps[1..]);
      var head := Intent(cps[0]);
      ObservedAppend({}, head, Intended(cps[1..], Intent));
      ReplayAppend({}, head, Intended(cps[1..], Intent));
      if Plan(cps[0]).Some? {
        var a := StripAccent(cps[0]);
        var k := Plan(cps[0]).value;
        ResolveNeverShiftKey(a);
        KeyCharInvertsResolve(a);
        KeySequenceEffect({}, k.code, k.shift);
      }
    }
  }

  /** End to end: a device that accepts every write receives events from
      which an idle keyboard reader reads back exactly the typeable
      characters of the text, in order, with every key released at the end. */
  lemma TypesTypeableText(text: seq<bv8>, writeOk: nat -> bool, start: nat)
    requires forall j :: start <= j ==> writeOk(j)
    ensures Observed({}, Events(Scalars(text, 0), Typing(writeOk), start)) == Typeable(Scalars(text, 0))
    ensures Replay({}, Events(Scalars(text, 0), Typing(writeOk), start)) == {}
  {
    PerfectDeviceRun(Scalars(text, 0), writeOk, start);
    IntendedObserved(Scalars(text, 0));
  }

  /** The codepoints no key can type, except 0: the ones a loop that fails
      no write warns about. */
  function Unsendable(cps: seq<nat>): (r: seq<nat>)
    ensures forall k :: 0 <= k < |r| ==> r[k] != 0 && Plan(r[k]).None?
    decreases |cps|
  {
    if cps == [] then []
    else (if cps[0] != 0 && Plan(cps[0]).None? then [cps[0]] else []) + Unsendable(cps[1..])
  }

  /** A faithful typist that skips exactly the untypeable characters warns
      about exactly the nonzero codepoints it cannot type, in order. */
  lemma {:induction false} FaithfulWarnings(cps: seq<nat>, typist: Typist, intent: nat -> seq<InputEvent>, start: nat)
    requires Faithful(typist, intent, start) && SkipsUntypeable(typist)
    ensures Warned(cps, Outcomes(cps, typist, start)) == Unsendable(cps)
    decreases |cps|
  {
    if cps != [] {
      FaithfulWarnings(cps[1..], typist, intent, start + typist(cps[0], start).writes);
    }
  }

  /** On a device that accepts every write, the loop warns about exactly the
      nonzero codepoints it cannot type, in order. */
  lemma PerfectDeviceWarnings(cps: seq<nat>, writeOk: nat -> bool, start: nat)
    requires forall j :: start <= j ==> writeOk(j)
    ensures Warned(cps, Outcomes(cps, Typing(writeOk), start)) == Unsendable(cps)
  {
    PerfectDeviceFaithful(writeOk, start);
    TypingSkipsUntypeable(writeOk);
    FaithfulWarnings(cps, Typing(writeOk), Intent, start);
  }

  /** End to end for well-encoded text: on a device that accepts every
      write, an idle keyboard reader reads back exactly the folded typeable
      characters among the codepoints that were encoded, in order. */
  lemma TypesEncodedText(cps: seq<bv32>, writeOk: nat -> bool, start: nat)
    requires forall j :: 0 <= j < |cps| ==> cps[j] <= MaxCodepoint
    requires forall j :: start <= j ==> writeOk(j)
    ensures Observed({}, Events(Scalars(EncodeAll(cps), 0), Typing(writeOk), start)) == Typeable(Nats(cps))
    ensures Replay({}, Events(Scalars(EncodeAll(cps), 0), Typing(writeOk), start)) == {}
  {
    TypesTypeableText(EncodeAll(cps), writeOk, start);
    ScalarsEncodeAll(cps);
  }

  /** The bytes the loop types as themselves: printable ASCII, tab and
      newline. */
  predicate PrintableByte(b: bv8)
  {
    0x20 <= b <= 0x7E || b == 0x09 || b == 0x0A
  }

  /** Bytes read as characters, one each. */
  function Chars(bytes: seq<bv8>): (r: seq<char>)
    ensures |r| == |bytes|
  {
    seq(|bytes|, j requires 0 <= j < |bytes| => (bytes[j] as int) as char)
  }

  /** Reading bytes as characters goes byte by byte. */
  lemma CharsCons(bytes: seq<bv8>)
    requires |bytes| > 0
    ensures Chars(bytes) == [(bytes[0] as int) as char] + Chars(bytes[1..])
  {
    var r := [(bytes[0] as int) as char] + Chars(bytes[1..]);
    assert forall j :: 0 <= j < |bytes| ==> Chars(bytes)[j] == r[j];
  }

  /** A printable byte is a character of its own that folds to itself and
      has a key. */
  lemma PrintableHead(text: seq<bv8>, pos: nat)
    requires pos < |text| && PrintableByte(text[pos])
    ensures Typeable(Scalars(text, pos)) == [(text[pos] as int) as char] + Typeable(Scalars(text, pos + 1))
  {
    var b := text[pos];
    var cps := Scalars(text, pos);
    assert cps[0] == b as int && cps[1..] == Scalars(text, pos + 1);
    ResolveCoversPrintable((b as int) as char);
  }

  /** Every printable byte is a character of its own that the loop can
      type, so the typeable text is the text itself. */
  lemma {:induction false} PrintableTypeable(text: seq<bv8>, pos: nat)
    requires pos <= |text|
    requires forall j :: pos <= j < |text| ==> PrintableByte(text[j])
    ensures Typeable(Scalars(text, pos)) == Chars(text[pos..])
    decreases |text| - pos
  {
    if pos < |text| {
      PrintableHead(text, pos);
      PrintableTypeable(text, pos + 1);
      CharsCons(text[pos..]);
      assert text[pos..][1..] == text[pos + 1..];
    }
  }

  /** End to end for plain text: on a device that accepts every write, an
      idle keyboard reader reads back printable ASCII text exactly as it was
      given, and every key is released at the end. */
  lemma PrintableTextVerbatim(text: seq<bv8>, writeOk: nat -> bool, start: nat)
    requires forall j :: start <= j ==> writeOk(j)
    requires forall j :: 0 <= j < |text| ==> PrintableByte(text[j])
    ensures Observed({}, Events(Scalars(text, 0), Typing(writeOk), start)) == Chars(text)
    ensures Replay({}, Events(Scalars(text, 0), Typing(writeOk), start)) == {}
  {
    TypesTypeableText(text, writeOk, start);
    PrintableTypeable(text, 0);
    assert text[0..] == text;
  }

  /** A typist that skips exactly the characters that cannot be typed. */
  ghost predicate SkipsUntypeable(typist: Typist)
  {
    forall cp: nat, w: nat :: typist(cp, w).outcome == Untypeable <==> Plan(cp).None?
  }

  lemma TypingSkipsUntypeable(writeOk: nat -> bool)
    ensures SkipsUntypeable(Typing(writeOk))
  {
    forall cp: nat, w: nat
      ensures Typing(writeOk)(cp, w).outcome == Untypeable <==> Plan(cp).None?
    {
      assert Typing(writeOk)(cp, w) == Step(cp, writeOk, w);
    }
  }

  /** Every character gets an outcome whatever became of the characters
      before it, and only the untypeable ones are skipped. */
  lemma {:induction false} OutcomesUntypeable(cps: seq<nat>, typist: Typist, start: nat)
    requires SkipsUntypeable(typist)
    ensures forall k :: 0 <= k < |cps| ==> (Outcomes(cps, typist, start)[k] == Untypeable <==> Plan(cps[k]).None?)
    decreases |cps|
  {
    if cps != [] {
      OutcomesUntypeable(cps[1..], typist, start + typist(cps[0], start).writes);
    }
  }

  /** The typing loop over the text from byte `pos`, after it has written
      `stream` and warned about `warnings`: the character decoded there, then
      the loop over the rest from the first write it did not use. */
  lemma RunFrom(text: seq<bv8>, pos: nat, typist: Typist, start: nat, stream: seq<InputEvent>, warnings: seq<nat>)
    requires pos < |text|
    ensures var d := DecodeUtf8(text, pos);
      var cp, cps, rest := d.codepoint as nat, Scalars(text, pos), Scalars(text, pos + d.length);
      var st := typist(cp, start);
      stream + Events(cps, typist, start) == (stream + st.events) + Events(rest, typist, start + st.writes)
      && Writes(cps, typist, start) == st.writes + Writes(rest, typist, start + st.writes)
      && warnings + Warned(cps, Outcomes(cps, typist, start))
         == (warnings + if Warns(cp, st.outcome) then [cp] else []) + Warned(rest, Outcomes(rest, typist, start + st.writes))
  {
    var d := DecodeUtf8(text, pos);
    var cps := Scalars(text, pos);
    assert cps[0] == d.codepoint as nat && cps[1..] == Scalars(text, pos + d.length);
  }

  /** The state of the typing loop: the events the device accepted, the
      write attempts made and the codepoints warned about. */
  datatype Run = Run(stream: seq<InputEvent>, writes: nat, warnings: seq<nat>)

  /** One iteration of the loop at byte `pos`: decode a character, type it,
      warn when it was not sent and is not 0. */
  function Next(text: seq<bv8>, pos: nat, typist: Typist, r: Run): Run
    requires pos < |text|
  {
    var d := DecodeUtf8(text, pos);
    var cp := d.codepoint as nat;
    var st := typist(cp, r.writes);
    Run(r.stream + st.events, r.writes + st.writes, r.warnings + if Warns(cp, st.outcome) then [cp] else [])
  }

  /** The state the loop ends in when it resumes at byte `pos` in state `r`. */
  function Finish(text: seq<bv8>, pos: nat, typist: Typist, r: Run): Run
    decreases |text| - pos
  {
    if pos >= |text| then r
    else Finish(text, pos + DecodeUtf8(text, pos).length, typist, Next(text, pos, typist, r))
  }

  /** Resuming at `pos` is one iteration followed by resuming after the
      bytes that iteration decoded. */
  lemma FinishStep(text: seq<bv8>, pos: nat, typist: Typist, r: Run)
    requires pos < |text|
    ensures Finish(text, pos, typist, r) == Finish(text, pos + DecodeUtf8(text, pos).length, typist, Next(text, pos, typist, r))
  {
  }

  /** Typing applies Step. */
  lemma TypingIsStep(writeOk: nat -> bool, cp: nat, w: nat)
    ensures Typing(writeOk)(cp, w) == Step(cp, writeOk, w)
  {
  }

  /** The loop adds to its state the events, the write attempts and the
      warnings of the codepoints of the rest of the text. */
  lemma {:induction false} FinishRun(text: seq<bv8>, pos: nat, typist: Typist, r: Run)
    ensures var cps := Scalars(text, pos);
      Finish(text, pos, typist, r)
      == Run(r.stream + Events(cps, typist, r.writes), r.writes + Writes(cps, typist, r.writes),
             r.warnings + Warned(cps, Outcomes(cps, typist, r.writes)))
    decreases |text| - pos
  {
    if pos < |text| {
      RunFrom(text, pos, typist, r.writes, r.stream, r.warnings);
      FinishRun(text, pos + DecodeUtf8(text, pos).length, typist, Next(text, pos, typist, r));
    }
  }

  /** The write attempts of a concatenation add up. */
  lemma {:induction false} WritesAppend(a: seq<nat>, b: seq<nat>, typist: Typist, start: nat)
    ensures Writes(a + b, typist, start) == Writes(a, typist, start) + Writes(b, typist, start + Writes(a, typist, start))
    decreases |a|
  {
    if a == [] {
      assert a + b == b;
    } else {
      assert (a + b)[0] == a[0];
      assert (a + b)[1..] == a[1..] + b;
      WritesAppend(a[1..], b, typist, start + typist(a[0], start).writes);
    }
  }

  /** The loop over a concatenation writes the events of the first part and
      then those of the second part, typed from the first write the first
      part did not use: what became of earlier characters, failures
      included, changes nothing about how later ones are typed. */
  lemma {:induction false} EventsAppend(a: seq<nat>, b: seq<nat>, typist: Typist, start: nat)
    ensures Events(a + b, typist, start) == Events(a, typist, start) + Events(b, typist, start + Writes(a, typist, start))
    decreases |a|
  {
    if a == [] {
      assert a + b == b;
    } else {
      assert (a + b)[0] == a[0];
      assert (a + b)[1..] == a[1..] + b;
      EventsAppend(a[1..], b, typist, start + typist(a[0], start).writes);
    }
  }

  lemma {:induction false} OutcomesAppend(a: seq<nat>, b: seq<nat>, typist: Typist, start: nat)
    ensures Outcomes(a + b, typist, start) == Outcomes(a, typist, start) + Outcomes(b, typist, start + Writes(a, typist, start))
    decreases |a|
  {
    if a == [] {
      assert a + b == b;
    } else {
      assert (a + b)[0] == a[0];
      assert (a + b)[1..] == a[1..] + b;
      OutcomesAppend(a[1..], b, typist, start + typist(a[0], start).writes);
    }
  }
}

// The uinput device: the globals g_uinput_fd and g_uinput_initialized, the
// kernel's side of the calls made on them, and the four operations.
module UinputDevice {
  import opened Wrappers
  import opened KeyCodes
  import opened Utf8
  import opened AccentFold
  import opened UinputLayout
  import opened InputEvents
  import opened UinputText

  /** The answers of the operating system, fixed in advance: the descriptor
      open returns for /dev/uinput (None when it fails), whether each ioctl
      of the set-up succeeds, and whether write number j is accepted. */
  datatype Host = Host(
    openFd: Option<nat>,
    evKeyOk: bool,
    evSynOk: bool,
    keyBitOk: int -> bool,
    setupOk: bool,
    createOk: bool,
    writeOk: nat -> bool)

  /** Whether the set-up of init_uinput gets past every step that can abort
      it; the UI_SET_KEYBIT results are ignored. */
  predicate InitSucceeds(h: Host)
  {
    h.openFd.Some? && h.evKeyOk && h.evSynOk && h.setupOk && h.createOk
  }

  /** Whether the set-up reaches the UI_SET_KEYBIT calls. */
  predicate ReachesKeyBits(h: Host)
  {
    h.openFd.Some? && h.evKeyOk && h.evSynOk
  }

  /** The key bits the device ends up with: the requested keys whose ioctl
      succeeded. */
  function KeysEnabled(h: Host): set<int>
  {
    set k | k in RequestedKeys && h.keyBitOk(k)
  }

  /** The descriptors the first set-up closes: the one it opened, when a
      later step aborts it. */
  function InitCloses(h: Host): seq<int>
  {
    if h.openFd.Some? && !InitSucceeds(h) then [h.openFd.value] else []
  }

  /** When every UI_SET_KEYBIT call succeeds, every key the typing loop
      can press, and the shift key, is enabled on the device. */
  lemma PlannedKeysEnabled(h: Host, cp: nat)
    requires forall k :: h.keyBitOk(k)
    ensures Plan(cp).Some? ==> Plan(cp).value.code in KeysEnabled(h)
    ensures KEY_LEFTSHIFT in KeysEnabled(h)
  {
    RequestedKeysCoverLayout(StripAccent(cp));
  }

  class VirtualKeyboard {
    const host: Host
    /** g_uinput_fd */
    var fd: int
    /** g_uinput_initialized */
    var initialized: bool
    /** The key bits set on the device. */
    var enabledKeys: set<int>
    /** Every event the device has accepted, in order. */
    var stream: seq<InputEvent>
    /** The number of writes attempted so far. */
    var writes: nat
    /** The descriptors passed to close, and to UI_DEV_DESTROY, in order. */
    var closed: seq<int>
    var destroyed: seq<int>
    /** The codepoints the typing loop warned about, in order. */
    var warnings: seq<nat>

    /** A descriptor is held only after a successful first set-up, and it is
        the one that set-up opened. */
    predicate Valid()
      reads this
    {
      fd >= -1
      && (fd >= 0 ==> initialized && InitSucceeds(host) && fd == host.openFd.value)
      && (!initialized ==> fd == -1)
    }

    /** The state of the program at start-up. */
    constructor (h: Host)
      ensures Valid()
      ensures host == h && fd == -1 && !initialized && enabledKeys == {}
      ensures stream == [] && writes == 0 && closed == [] && destroyed == [] && warnings == []
    {
      host := h;
      fd := -1;
      initialized := false;
      enabledKeys := {};
      stream := [];
      writes := 0;
      closed := [];
      destroyed := [];
      warnings := [];
    }

    /** uinput_available / init_uinput: the set-up runs on the first call
        only; later calls report whether a descriptor is held. */
    method Available() returns (r: bool)
      requires Valid()
      modifies this
      ensures Valid() && initialized
      ensures r <==> fd >= 0
      ensures old(initialized) ==> fd == old(fd) && closed == old(closed) && enabledKeys == old(enabledKeys)
      ensures !old(initialized) ==>
        r == InitSucceeds(host) && closed == old(closed) + InitCloses(host)
        && enabledKeys == (if ReachesKeyBits(host) then old(enabledKeys) + KeysEnabled(host) else old(enabledKeys))
      ensures stream == old(stream) && writes == old(writes) && destroyed == old(destroyed) && warnings == old(warnings)
    {
      if initialized {
        return fd >= 0;
      }
      initialized := true;
      if host.openFd.None? {
        fd := -1;
        return false;
      }
      fd := host.openFd.value;
      if !host.evKeyOk {
        closed := closed + [fd];
        fd := -1;
        return false;
      }
      if !host.evSynOk {
        closed := closed + [fd];
        fd := -1;
        return false;
      }
      // One UI_SET_KEYBIT per requested key; a failure is not checked.
      enabledKeys := enabledKeys + KeysEnabled(host);
      if !host.setupOk {
        closed := closed + [fd];
        fd := -1;
        return false;
      }
      if !host.createOk {
        closed := closed + [fd];
        fd := -1;
        return false;
      }
      return true;
    }

    /** send_event: one write of one event, attempt number `writes`. */
    method SendEvent(e: InputEvent) returns (ok: bool)
      requires fd >= 0
      modifies this`stream, this`writes
      ensures ok == host.writeOk(old(writes))
      ensures writes == old(writes) + 1
      ensures stream == if ok then old(stream) + [e] else old(stream)
    {
      ok := host.writeOk(writes);
      writes := writes + 1;
      if ok {
        stream := stream + [e];
      }
    }

    /** send_key_event: a press (value 1) or release (value 0) of a key,
        written as event `i` of the key sequence `s`. Accepted, it extends the
        written prefix of `s`; refused, the stream holds exactly the prefix of
        `s` the device accepted. */
    method SendKeyEvent(code: int, press: bool, ghost s: seq<InputEvent>, ghost base: seq<InputEvent>, ghost start: nat, ghost i: nat) returns (ok: bool)
      requires fd >= 0
      requires WroteFirst(s, host.writeOk, base, start, i, stream, writes) && i < |s| && s[i] == KeyEvent(code, press)
      modifies this`stream, this`writes
      ensures ok ==> WroteFirst(s, host.writeOk, base, start, i + 1, stream, writes)
      ensures !ok ==> var n := Accepted(s, host.writeOk, start);
        n == i < |s| && stream == base + s[..n] && writes == start + WritesUsed(n, |s|)
    {
      WriteNext(s, host.writeOk, base, start, i, stream, writes);
      ok := SendEvent(KeyEvent(code, press));
    }

    /** send_sync: the report that ends a group of events, written as event
        `i` of the key sequence `s`, with the same effect as above. */
    method SendSync(ghost s: seq<InputEvent>, ghost base: seq<InputEvent>, ghost start: nat, ghost i: nat) returns (ok: bool)
      requires fd >= 0
      requires WroteFirst(s, host.writeOk, base, start, i, stream, writes) && i < |s| && s[i] == Sync
      modifies this`stream, this`writes
      ensures ok ==> WroteFirst(s, host.writeOk, base, start, i + 1, stream, writes)
      ensures !ok ==> var n := Accepted(s, host.writeOk, start);
        n == i < |s| && stream == base + s[..n] && writes == start + WritesUsed(n, |s|)
    {
      WriteNext(s, host.writeOk, base, start, i, stream, writes);
      ok := SendEvent(Sync);
    }

    /** type_key: the key sequence of one key, stopping at the first write
        that fails; a failure after the shift press leaves shift held. */
    method TypeKey(code: int, shift: bool) returns (ok: bool)
      requires fd >= 0
      modifies this`stream, this`writes
      ensures var s := KeySequence(code, shift);
        var n := Accepted(s, host.writeOk, old(writes));
        stream == old(stream) + s[..n] && writes == old(writes) + WritesUsed(n, |s|) && (ok <==> n == |s|)
    {
      ghost var s := KeySequence(code, shift);
      ghost var base, start, w := stream, writes, host.writeOk;
      ghost var i := 0;
      KeySequenceAt(code, shift);
      assert WroteFirst(s, w, base, start, i, stream, writes);
      if shift {
        ok := SendKeyEvent(KEY_LEFTSHIFT, true, s, base, start, i);
        if !ok { return; }
        i := i + 1;
        ok := SendSync(s, base, start, i);
        if !ok { return; }
        i := i + 1;
      }
      ok := SendKeyEvent(code, true, s, base, start, i);
      if !ok { return; }
      i := i + 1;
      ok := SendSync(s, base, start, i);
      if !ok { return; }
      i := i + 1;
      ok := SendKeyEvent(code, false, s, base, start, i);
      if !ok { return; }
      i := i + 1;
      ok := SendSync(s, base, start, i);
      if !ok { return; }
      i := i + 1;
      if shift {
        ok := SendKeyEvent(KEY_LEFTSHIFT, false, s, base, start, i);
        if !ok { return; }
        i := i + 1;
        ok := SendSync(s, base, start, i);
        if !ok { return; }
        i := i + 1;
      }
      WroteAll(s, w, base, start, stream, writes);
      return true;
    }

    /** The body of the typing loop for one codepoint: fold it to ASCII,
        look the result up in the unshifted table and then in the shifted one,
        and type the key found. Whether the key sequence was sent in full. */
    method TypeCodepoint(cp: nat) returns (sent: bool)
      requires fd >= 0
      modifies this`stream, this`writes
      ensures var st := Step(cp, host.writeOk, old(writes));
        stream == old(stream) + st.events && writes == old(writes) + st.writes && (sent <==> st.outcome == Sent)
    {
      var ascii := StripAccent(cp);
      sent := false;
      if ascii != 0 as char {
        var key := UnshiftedKey(ascii);
        if key.Some? {
          sent := TypeKey(key.value, false);
        } else {
          var shifted := ShiftedKey(ascii);
          if shifted.Some? {
            sent := TypeKey(shifted.value, true);
          }
        }
      }
    }

    /** One iteration of the loop of uinput_type_text: decode the sequence
        at byte `pos`, type its codepoint, and warn when a nonzero codepoint
        was not sent. The answer is how many bytes were decoded. */
    method TypeAt(text: seq<bv8>, pos: nat) returns (len: nat)
      requires fd >= 0 && pos < |text|
      modifies this`stream, this`writes, this`warnings
      ensures len == DecodeUtf8(text, pos).length
      ensures Run(stream, writes, warnings) == Next(text, pos, Typing(host.writeOk), Run(old(stream), old(writes), old(warnings)))
    {
      var d := DecodeUtf8(text, pos);
      var cp := d.codepoint as nat;
      TypingIsStep(host.writeOk, cp, writes);
      var sent := TypeCodepoint(cp);
      if !sent && cp != 0 {
        warnings := warnings + [cp];
      }
      len := d.length;
    }

    /** The loop of uinput_type_text: every character of the text in turn,
        whatever became of the ones before it. */
    method TypeAll(text: seq<bv8>)
      requires fd >= 0
      modifies this`stream, this`writes, this`warnings
      ensures var cps, t := Scalars(text, 0), Typing(host.writeOk);
        stream == old(stream) + Events(cps, t, old(writes)) && writes == old(writes) + Writes(cps, t, old(writes))
        && warnings == old(warnings) + Warned(cps, Outcomes(cps, t, old(writes)))
    {
      ghost var t := Typing(host.writeOk);
      ghost var start := Run(stream, writes, warnings);
      var i := 0;
      while i < |text|
        invariant i <= |text|
        invariant Finish(text, i, t, Run(stream, writes, warnings)) == Finish(text, 0, t, start)
        decreases |text| - i
      {
        FinishStep(text, i, t, Run(stream, writes, warnings));
        var len := TypeAt(text, i);
        i := i + len;
      }
      FinishRun(text, 0, t, start);
    }

    /** uinput_type_text: nothing when the device is unavailable, otherwise
        the typing loop. The answer is whether the device was available. */
    method TypeText(text: seq<bv8>) returns (r: bool)
      requires Valid()
      modifies this
      ensures Valid() && initialized
      ensures r <==> fd >= 0
      ensures old(initialized) ==> fd == old(fd)
      ensures !old(initialized) ==> (r <==> InitSucceeds(host))
      ensures closed == old(closed) + (if old(initialized) then [] else InitCloses(host))
      ensures enabledKeys == if old(initialized) || !ReachesKeyBits(host) then old(enabledKeys) else old(enabledKeys) + KeysEnabled(host)
      ensures destroyed == old(destroyed)
      ensures var cps, t := Scalars(text, 0), Typing(host.writeOk);
        if r then
          stream == old(stream) + Events(cps, t, old(writes)) && writes == old(writes) + Writes(cps, t, old(writes))
          && warnings == old(warnings) + Warned(cps, Outcomes(cps, t, old(writes)))
        else stream == old(stream) && writes == old(writes) && warnings == old(warnings)
    {
      r := Available();
      if r {
        TypeAll(text);
      }
    }

    /** cleanup_uinput: destroys and closes the device when a descriptor is
        held. The initialised flag stays set, so the device is not set up
        again and later calls find it unavailable. */
    method Cleanup()
      requires Valid()
      modifies this
      ensures Valid() && fd == -1 && initialized == old(initialized)
      ensures old(fd) >= 0 ==> destroyed == old(destroyed) + [old(fd)] && closed == old(closed) + [old(fd)]
      ensures old(fd) < 0 ==> destroyed == old(destroyed) && closed == old(closed)
      ensures stream == old(stream) && writes == old(writes) && warnings == old(warnings) && enabledKeys == old(enabledKeys)
    {
      if fd >= 0 {
        destroyed := destroyed + [fd];
        closed := closed + [fd];
        fd := -1;
      }
    }
  }
}
