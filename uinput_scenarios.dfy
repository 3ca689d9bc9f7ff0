// Worked inputs of the uinput typing loop, each worked out from the model's
// definitions.

module UinputScenarios {
  import opened Wrappers
  import opened KeyCodes
  import opened Utf8
  import opened AccentFold
  import opened UinputLayout
  import opened InputEvents
  import opened UinputText

  /** "café" in UTF-8: the é (U+00E9) takes two bytes and is decoded as one
      character. */
  lemma CafeDecodes()
    ensures Scalars([0x63, 0x61, 0x66, 0xC3, 0xA9], 0) == [0x63, 0x61, 0x66, 0xE9]
  {
    var text: seq<bv8> := [0x63, 0x61, 0x66, 0xC3, 0xA9];
    assert DecodeUtf8(text, 3) == Decoded(0xE9, 2);
    assert Scalars(text, 3) == [0xE9];
    assert Scalars(text, 2) == [0x66, 0xE9];
    assert Scalars(text, 1) == [0x61, 0x66, 0xE9];
  }

  /** Of "café", every character can be typed; é folds to e. */
  lemma CafeTypeable()
    ensures Typeable([0x63, 0x61, 0x66, 0xE9]) == "cafe"
    ensures Unsendable([0x63, 0x61, 0x66, 0xE9]) == []
  {
    CafePlanned();
    var cps: seq<nat> := [0x63, 0x61, 0x66, 0xE9];
    assert cps[1..] == [0x61, 0x66, 0xE9] && cps[1..][1..] == [0x66, 0xE9] && cps[1..][1..][1..] == [0xE9];
  }

  lemma CafePlanned()
    ensures Plan(0x63).Some? && Plan(0x61).Some? && Plan(0x66).Some? && Plan(0xE9).Some?
    ensures StripAccent(0x63) == 'c' && StripAccent(0x61) == 'a' && StripAccent(0x66) == 'f' && StripAccent(0xE9) == 'e'
  {
    ResolveCoversPrintable('e');
  }

  /** On a device that accepts every write, typing "café" reads back as
      "cafe", with no warning. */
  lemma CafeTypesCafe(writeOk: nat -> bool, start: nat)
    requires forall j :: start <= j ==> writeOk(j)
    ensures Observed({}, Events(Scalars([0x63, 0x61, 0x66, 0xC3, 0xA9], 0), Typing(writeOk), start)) == "cafe"
    ensures Warned([0x63, 0x61, 0x66, 0xE9], Outcomes([0x63, 0x61, 0x66, 0xE9], Typing(writeOk), start)) == []
  {
    CafeDecodes();
    CafeTypeable();
    TypesTypeableText([0x63, 0x61, 0x66, 0xC3, 0xA9], writeOk, start);
    PerfectDeviceWarnings([0x63, 0x61, 0x66, 0xE9], writeOk, start);
  }

  /** "€" (U+20AC, three bytes) has no fold and no key: nothing is written
      and the loop warns about it, whatever the device does. */
  lemma EuroIsWarned(writeOk: nat -> bool, start: nat)
    ensures Scalars([0xE2, 0x82, 0xAC], 0) == [0x20AC]
    ensures Events([0x20AC], Typing(writeOk), start) == []
    ensures Writes([0x20AC], Typing(writeOk), start) == 0
    ensures Warned([0x20AC], Outcomes([0x20AC], Typing(writeOk), start)) == [0x20AC]
  {
    var text: seq<bv8> := [0xE2, 0x82, 0xAC];
    DecodeThreeBytes(0xE2, 0x82, 0xAC, [], 0x20AC);
    assert text == [0xE2, 0x82, 0xAC] + [];
    assert Plan(0x20AC).None?;
    assert Typing(writeOk)(0x20AC, start) == StepResult([], 0, Untypeable);
  }

  /** A byte that cannot start a UTF-8 sequence decodes to codepoint 0: one
      byte is skipped, nothing is written and no warning is given. */
  lemma InvalidByteSkippedSilently(writeOk: nat -> bool, start: nat)
    ensures Scalars([0xFF], 0) == [0]
    ensures Events([0], Typing(writeOk), start) == []
    ensures Warned([0], Outcomes([0], Typing(writeOk), start)) == []
  {
    assert Plan(0).None?;
    assert Typing(writeOk)(0, start) == StepResult([], 0, Untypeable);
  }

  /** A device that refuses its third write, and only that one. */
  function RefusesThird(): nat -> bool
  {
    (j: nat) => j != 2
  }

  /** "A" is typed with shift: its shift press and report go through, its
      own press is refused, after three write attempts. */
  lemma StuckShiftFirst()
    ensures Typing(RefusesThird())(0x41, 0) == StepResult([KeyEvent(KEY_LEFTSHIFT, true), Sync], 3, WriteFailed)
  {
    var a := KeySequence(KEY_A, true);
    assert Plan(0x41) == Some(ResolvedKey(KEY_A, true));
    AcceptedStops(a, RefusesThird(), 0, 2);
    assert a[..2] == [KeyEvent(KEY_LEFTSHIFT, true), Sync];
  }

  /** "b" from the fourth write on is typed in full, unshifted. */
  lemma StuckShiftSecond()
    ensures Typing(RefusesThird())(0x62, 3) == StepResult(KeySequence(KEY_B, false), 4, Sent)
  {
    var b := KeySequence(KEY_B, false);
    assert Plan(0x62) == Some(ResolvedKey(KEY_B, false));
    AcceptedStops(b, RefusesThird(), 3, 4);
    assert b[..4] == b;
  }

  /** "Ab" on that device: the shift key of A is pressed and never
      released; A is warned about, b is not. */
  lemma StuckShiftRun()
    ensures Events([0x41, 0x62], Typing(RefusesThird()), 0) == [KeyEvent(KEY_LEFTSHIFT, true), Sync] + KeySequence(KEY_B, false)
    ensures Warned([0x41, 0x62], Outcomes([0x41, 0x62], Typing(RefusesThird()), 0)) == [0x41]
  {
    StuckShiftFirst();
    StuckShiftSecond();
    var cps: seq<nat> := [0x41, 0x62];
    assert cps[1..] == [0x62];
  }

  /** A shift press left over before an unshifted key sequence makes the
      reader see that key shifted, and shift stays held. */
  lemma LeftOverShift()
    ensures var ev := [KeyEvent(KEY_LEFTSHIFT, true), Sync] + KeySequence(KEY_B, false);
      Observed({}, ev) == "B" && KEY_LEFTSHIFT in Replay({}, ev)
  {
    var down := [KeyEvent(KEY_LEFTSHIFT, true), Sync];
    var press, release := [KeyEvent(KEY_B, true), Sync], [KeyEvent(KEY_B, false), Sync];
    assert KeySequence(KEY_B, false) == press + release;
    assert KeyChar(KEY_LEFTSHIFT, false).None? && KeyChar(KEY_B, true) == Some('B');
    var h1: set<int> := {} + {KEY_LEFTSHIFT};
    var h2 := h1 + {KEY_B};
    ReplayPair({}, KEY_LEFTSHIFT, true);
    ReplayPair(h1, KEY_B, true);
    ReplayPair(h2, KEY_B, false);
    assert h2 - {KEY_B} == h1;
    ObservedAppend(h1, press, release);
    ReplayAppend(h1, press, release);
    ObservedAppend({}, down, press + release);
    ReplayAppend({}, down, press + release);
  }

  /** ... so on that device a reader of "Ab" sees the b shifted, as "B", and
      shift still held. */
  lemma StuckShift()
    ensures var ev := Events([0x41, 0x62], Typing(RefusesThird()), 0);
      Observed({}, ev) == "B" && KEY_LEFTSHIFT in Replay({}, ev)
  {
    StuckShiftRun();
    LeftOverShift();
  }
}
