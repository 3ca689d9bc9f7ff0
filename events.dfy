// The input events the uinput backend writes, what a reader of the virtual
// keyboard makes of them, and how a run of writes ends at the first failure.

module InputEvents {
  import opened Wrappers
  import opened KeyCodes
  import opened UinputLayout

  /** One struct input_event, reduced to the fields send_event fills in
      (the timestamp is left zero by the source). */
  datatype InputEvent = InputEvent(evType: int, code: int, value: int)

  /** send_key_event: value 1 for a press, 0 for a release. */
  function KeyEvent(code: int, press: bool): InputEvent
  {
    InputEvent(EV_KEY, code, if press then 1 else 0)
  }

  /** send_sync: the report that closes a group of events. */
  const Sync: InputEvent := InputEvent(EV_SYN, SYN_REPORT, 0)

  /** The events type_key writes when every write succeeds: press and
      release of the key, each followed by a report, bracketed by a press and
      release of the left shift key when the character needs shift. */
  function KeySequence(code: int, shift: bool): (s: seq<InputEvent>)
    ensures |s| == if shift then 8 else 4
  {
    var tap := Tap(code);
    if shift then [KeyEvent(KEY_LEFTSHIFT, true), Sync] + tap + [KeyEvent(KEY_LEFTSHIFT, false), Sync]
    else tap
  }

  /** The set of held keys after one event, as a reader of the device keeps
      it (value 2, auto-repeat, changes nothing). */
  function Apply(held: set<int>, e: InputEvent): set<int>
  {
    if e.evType != EV_KEY then held
    else if e.value == 1 then held + {e.code}
    else if e.value == 0 then held - {e.code}
    else held
  }

  /** The set of held keys after a stream of events. */
  function Replay(held: set<int>, s: seq<InputEvent>): set<int>
    decreases |s|
  {
    if s == [] then held else Replay(Apply(held, s[0]), s[1..])
  }

  /** The characters a reader with a US layout sees in a stream: each key
      press of a key in the layout yields its character, shifted when the
      left shift key is held at that moment. */
  function Observed(held: set<int>, s: seq<InputEvent>): seq<char>
    decreases |s|
  {
    if s == [] then []
    else
      var e := s[0];
      var c := if e.evType == EV_KEY && e.value == 1 then KeyChar(e.code, KEY_LEFTSHIFT in held) else None;
      (if c.Some? then [c.value] else []) + Observed(Apply(held, e), s[1..])
  }

  lemma {:induction false} ReplayAppend(held: set<int>, a: seq<InputEvent>, b: seq<InputEvent>)
    ensures Replay(held, a + b) == Replay(Replay(held, a), b)
    decreases |a|
  {
    if a == [] {
      assert a + b == b;
    } else {
      assert (a + b)[0] == a[0];
      assert (a + b)[1..] == a[1..] + b;
      ReplayAppend(Apply(held, a[0]), a[1..], b);
    }
  }

  lemma {:induction false} ObservedAppend(held: set<int>, a: seq<InputEvent>, b: seq<InputEvent>)
    ensures Observed(held, a + b) == Observed(held, a) + Observed(Replay(held, a), b)
    decreases |a|
  {
    if a == [] {
      assert a + b == b;
    } else {
      assert (a + b)[0] == a[0];
      assert (a + b)[1..] == a[1..] + b;
      ObservedAppend(Apply(held, a[0]), a[1..], b);
    }
  }

  /** One key event followed by its report. */
  lemma ReplayPair(held: set<int>, code: int, press: bool)
    ensures Replay(held, [KeyEvent(code, press), Sync]) == if press then held + {code} else held - {code}
    ensures Observed(held, [KeyEvent(code, press), Sync])
         == if press && KeyChar(code, KEY_LEFTSHIFT in held).Some? then [KeyChar(code, KEY_LEFTSHIFT in held).value] else []
  {
    var s := [KeyEvent(code, press), Sync];
    var h := Apply(held, s[0]);
    assert s[1..] == [Sync];
    assert [Sync][1..] == [];
    assert Replay(h, [Sync]) == h;
    assert Observed(h, [Sync]) == [];
    assert Replay(held, s) == Replay(h, [Sync]);
    assert Observed(held, s) == (if press && KeyChar(code, KEY_LEFTSHIFT in held).Some? then [KeyChar(code, KEY_LEFTSHIFT in held).value] else []) + Observed(h, [Sync]);
  }

  /** The four events of a tap: press, report, release, report. */
  function Tap(code: int): seq<InputEvent>
  {
    [KeyEvent(code, true), Sync, KeyEvent(code, false), Sync]
  }

  /** A tap of a key that is not held leaves the held keys as it found them
      and types the key's character under the current shift state. */
  lemma TapEffect(held: set<int>, code: int)
    requires code != KEY_LEFTSHIFT && code !in held
    ensures Replay(held, Tap(code)) == held
    ensures Observed(held, Tap(code))
         == if KeyChar(code, KEY_LEFTSHIFT in held).Some? then [KeyChar(code, KEY_LEFTSHIFT in held).value] else []
  {
    var press, release := [KeyEvent(code, true), Sync], [KeyEvent(code, false), Sync];
    ReplayPair(held, code, true);
    ReplayPair(held + {code}, code, false);
    assert held + {code} - {code} == held;
    assert KEY_LEFTSHIFT in held + {code} <==> KEY_LEFTSHIFT in held;
    ReplayAppend(held, press, release);
    ObservedAppend(held, press, release);
    assert Tap(code) == press + release;
  }

  /** A complete key sequence leaves the held keys as it found them and types
      exactly the character of its key, in upper case exactly when it asked
      for shift. */
  lemma KeySequenceEffect(held: set<int>, code: int, shift: bool)
    requires code != KEY_LEFTSHIFT && code !in held && KEY_LEFTSHIFT !in held
    ensures Replay(held, KeySequence(code, shift)) == held
    ensures Observed(held, KeySequence(code, shift)) == if KeyChar(code, shift).Some? then [KeyChar(code, shift).value] else []
  {
    var tap := Tap(code);
    if shift {
      var h1 := held + {KEY_LEFTSHIFT};
      var down, up := [KeyEvent(KEY_LEFTSHIFT, true), Sync], [KeyEvent(KEY_LEFTSHIFT, false), Sync];
      TapEffect(h1, code);
      ReplayPair(held, KEY_LEFTSHIFT, true);
      ReplayPair(h1, KEY_LEFTSHIFT, false);
      assert KeyChar(KEY_LEFTSHIFT, false) == None;
      assert h1 - {KEY_LEFTSHIFT} == held;
      var typed := Observed(h1, tap);
      assert Replay(held, down) == h1 && Observed(held, down) == [];
      assert Replay(h1, up) == held && Observed(h1, up) == [];
      ReplayAppend(held, down, tap);
      ObservedAppend(held, down, tap);
      assert Observed(held, down + tap) == typed;
      ReplayAppend(held, down + tap, up);
      ObservedAppend(held, down + tap, up);
      assert Observed(held, down + tap + up) == typed;
      assert KeySequence(code, shift) == down + tap + up;
    } else {
      TapEffect(held, code);
      assert KeySequence(code, shift) == tap;
    }
  }

  /** When a shifted key sequence stops after the shift press and before the
      shift release, the shift key stays held. */
  lemma ShiftStaysHeld(code: int, n: nat)
    requires code != KEY_LEFTSHIFT && 1 <= n < 7
    ensures KEY_LEFTSHIFT in Replay({}, KeySequence(code, true)[..n])
  {
    var s := KeySequence(code, true);
    var h1 := {KEY_LEFTSHIFT};
    ReplayAppend({}, s[..1], s[1..n]);
    assert s[..n] == s[..1] + s[1..n];
    assert Replay({}, s[..1]) == h1;
    // Between the two shift events only the key itself and reports occur.
    ReplayKeepsShift(h1, s[1..n], code);
  }

  lemma {:induction false} ReplayKeepsShift(held: set<int>, s: seq<InputEvent>, code: int)
    requires code != KEY_LEFTSHIFT && KEY_LEFTSHIFT in held
    requires forall j :: 0 <= j < |s| ==> s[j].code == code || s[j].evType != EV_KEY
    ensures KEY_LEFTSHIFT in Replay(held, s)
    decreases |s|
  {
    if s != [] {
      ReplayKeepsShift(Apply(held, s[0]), s[1..], code);
    }
  }

  /** How many events of `s` a run of writes starting at write number
      `start` gets through: the writes succeed up to the first one the
      device refuses, and nothing is written after it. */
  function Accepted(s: seq<InputEvent>, writeOk: nat -> bool, start: nat): (n: nat)
    ensures n <= |s|
    ensures forall j :: start <= j < start + n ==> writeOk(j)
    ensures n < |s| ==> !writeOk(start + n)
    decreases |s|
  {
    if s == [] || !writeOk(start) then 0 else 1 + Accepted(s[1..], writeOk, start + 1)
  }

  /** Accepted is pinned down by where the writes first fail: after `i`
      accepted writes it is `i` exactly when the sequence ends there or the
      next write is refused. */
  lemma AcceptedStops(s: seq<InputEvent>, writeOk: nat -> bool, start: nat, i: nat)
    requires i <= |s| && forall j :: start <= j < start + i ==> writeOk(j)
    requires i < |s| ==> !writeOk(start + i)
    ensures Accepted(s, writeOk, start) == i
  {
  }

  /** The events of a key sequence one by one: `o` is where the key's own
      press begins, after the shift press and its report when there is one. */
  lemma KeySequenceAt(code: int, shift: bool)
    ensures var s, o := KeySequence(code, shift), if shift then 2 else 0;
      s[o] == KeyEvent(code, true) && s[o + 1] == Sync && s[o + 2] == KeyEvent(code, false) && s[o + 3] == Sync
      && (shift ==> s[0] == KeyEvent(KEY_LEFTSHIFT, true) && s[1] == Sync && s[6] == KeyEvent(KEY_LEFTSHIFT, false) && s[7] == Sync)
  {
  }

  /** After `i` writes that all succeeded, starting at write number `start`,
      the stream is `base` followed by the first `i` events of `s`. */
  ghost predicate WroteFirst(s: seq<InputEvent>, writeOk: nat -> bool, base: seq<InputEvent>, start: nat, i: nat,
                             stream: seq<InputEvent>, writes: nat)
  {
    i <= |s| && stream == base + s[..i] && writes == start + i
    && forall j :: start <= j < start + i ==> writeOk(j)
  }

  /** The next write either succeeds, extending the written prefix by the
      next event, or is refused, which fixes what was written as the
      accepted prefix and the writes used as WritesUsed. */
  lemma WriteNext(s: seq<InputEvent>, writeOk: nat -> bool, base: seq<InputEvent>, start: nat, i: nat,
                  stream: seq<InputEvent>, writes: nat)
    requires WroteFirst(s, writeOk, base, start, i, stream, writes) && i < |s|
    ensures writeOk(writes) ==> WroteFirst(s, writeOk, base, start, i + 1, stream + [s[i]], writes + 1)
    ensures !writeOk(writes) ==>
      var n := Accepted(s, writeOk, start);
      n == i < |s| && stream == base + s[..n] && writes + 1 == start + WritesUsed(n, |s|)
  {
    assert s[..i + 1] == s[..i] + [s[i]];
    if !writeOk(writes) {
      AcceptedStops(s, writeOk, start, i);
    }
  }

  /** Once every event has been written, all of the sequence was accepted. */
  lemma WroteAll(s: seq<InputEvent>, writeOk: nat -> bool, base: seq<InputEvent>, start: nat,
                 stream: seq<InputEvent>, writes: nat)
    requires WroteFirst(s, writeOk, base, start, |s|, stream, writes)
    ensures var n := Accepted(s, writeOk, start);
      n == |s| && stream == base + s[..n] && writes == start + WritesUsed(n, |s|)
  {
    AcceptedStops(s, writeOk, start, |s|);
  }

  /** The write attempts a sequence of `len` events costs when `n` of them
      are accepted: the refused write is attempted too. */
  function WritesUsed(n: nat, len: nat): nat
  {
    if n < len then n + 1 else n
  }
}
