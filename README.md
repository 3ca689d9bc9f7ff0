# Voice-typing text input, modelled in Dafny

The voice-typing example turns transcribed text into key presses on Linux.
It has two back ends:

- The **uinput back end** (`uinput-text-input.cpp`) creates a virtual keyboard through `/dev/uinput` on first use. It then types a UTF-8 string one codepoint at a time:
  - decode one UTF-8 sequence;
  - fold accented Latin letters to plain ASCII;
  - look the character up in an unshifted table, then in a shifted one;
  - write the key events, with a left-shift press around the key when shift is needed;
  - warn about every nonzero codepoint it could not send.
- The **libei back end** (`libei-text-input.cpp`) builds two similar tables with arithmetic loops. It probes once for the GNOME Remote Desktop EIS socket, but never creates a keyboard device and never types anything.

The model has these parts:

- `keycodes.dfy`: the Linux key codes, the ASCII character classes and an `Option` type.
- `utf8.dfy`: `decode_utf8` exactly as written: no check of continuation bytes, overlong forms or surrogates, and codepoint 0 for a byte that starts no sequence or a truncated one. It also has an RFC 3629 encoder as the reference the decoder is proved against.
- `accent.dfy`: `strip_accent_unicode` with its table entry for entry, plus an independent description of the table by Latin-1 ranges.
- `layout.dfy`: the two uinput tables, the lookup order, the keys enabled on the device, and the inverse map from key to character that proves the tables consistent.
- `events.dfy`: input events, what a keyboard reader makes of a stream of them (held keys, typed characters), and how a run of writes ends at the first refused write.
- `uinput.dfy`, with two modules:
  - `UinputText`: the typing loop as pure functions of the text and of the device's answers (`writeOk(j)` says whether write number `j` is accepted). It holds the end-to-end lemmas.
  - `UinputDevice`: the globals `g_uinput_fd` and `g_uinput_initialized` as the class `VirtualKeyboard`. Its methods mirror `init_uinput`, `send_event`, `send_key_event`, `send_sync`, `type_key`, `uinput_type_text` and `cleanup_uinput`. The typing methods (`TypeKey` up to `TypeText`) are proved against the functions of `UinputText`. The set-up and cleanup methods state their new state directly, in terms of the host's answers (`InitSucceeds`, `KeysEnabled`, `InitCloses`).
- `uinput_scenarios.dfy`: concrete runs: "café", "€", an invalid byte, and a write refused in the middle of a shifted letter.
- `libei.dfy`, with two modules:
  - `LibeiTables`: the loop-built tables, proved equal to their arithmetic description and compared with the uinput tables.
  - `LibeiConnection`: the once-only probe, `send_key` and `libei_type_text` over a class holding the backend's globals.

Everything the program asks of the operating system is a field of a host value fixed in advance: the descriptor `open` returns, the result of each `ioctl` and `write`, the environment variable, the socket's existence, and the libei calls. The model records what the program did: the accepted events in order, the number of write attempts, the descriptors closed and destroyed, the warnings, and the context releases.

Two points where the code behaves differently from what its comments suggest:

- `libei_type_text` releases the EIS context only when its own call to `libei_available` returns true, which can only happen on the very first probe. If `libei_available` was called before, the probe inside `libei_type_text` fails, because the keyboard device never exists. It then returns early and the context stays alive. `LibeiConnection.TypeAfterProbe` states this.
- `uinput_type_text` keeps going after a failed write. A shifted character whose write fails between the shift press and the shift release leaves shift held for the characters after it. `InputEvents.ShiftStaysHeld` and `UinputScenarios.StuckShift` state this.

## Model

| member | source | states |
|---|---|---|
| Utf8.DecodeUtf8 | examples/voice-typing/uinput-text-input.cpp:153-177 | One step consumes 1 to 4 bytes inside the text. An ASCII byte decodes to itself. A continuation byte, a byte of the form 11111xxx, or a lead byte whose sequence would run past the end gives codepoint 0 and consumes one byte. A complete sequence consumes the length its lead byte announces. The codepoint fits in 7, 11, 16 or 21 bits for lengths 1 to 4. |
| Utf8.DecodeIgnoresContinuationTag | examples/voice-typing/uinput-text-input.cpp:160-163 | After a two-byte lead, the decoder reads only the low six bits of the next byte. A byte without the continuation tag 10 decodes the same as the tagged byte with the same low bits. |
| Utf8.DecodeSwallowsAscii | examples/voice-typing/uinput-text-input.cpp:160-163 | A two-byte lead followed by 'A' consumes both bytes and decodes to U+00C1. |
| Utf8.DecodeEncode | examples/voice-typing/uinput-text-input.cpp:153-177 | Decoding the RFC 3629 encoding of any codepoint up to U+10FFFF, whatever follows it, gives the codepoint back and consumes exactly its encoding. |
| Utf8.DecodeShift | examples/voice-typing/uinput-text-input.cpp:153-177 | Decoding at a position reads only the bytes from that position on. |
| Utf8.CodepointsShift | examples/voice-typing/uinput-text-input.cpp:153-177 | The codepoints the decoder yields from a position on do not depend on the bytes before it. |
| Utf8.CodepointsEncodeAll | examples/voice-typing/uinput-text-input.cpp:153-177 | Decoding a well-encoded text step by step yields exactly the codepoints that were encoded, in order. |
| Utf8.CodepointsBound | examples/voice-typing/uinput-text-input.cpp:153-177 | Decoding step by step yields at most one codepoint per byte. |
| UinputText.Scalars | examples/voice-typing/uinput-text-input.cpp:410-441 | The codepoints the loop visits: decode at `i`, then continue at `i` plus the bytes consumed, until the end of the text. |
| UinputText.ScalarsIsCodepoints | examples/voice-typing/uinput-text-input.cpp:410-441 | The loop visits exactly the decoder's codepoints, read as unsigned numbers. |
| UinputText.ScalarsEncodeAll | examples/voice-typing/uinput-text-input.cpp:410-441 | On well-encoded text the loop visits exactly the codepoints that were encoded, in order. |
| UinputText.ScalarsBound | examples/voice-typing/uinput-text-input.cpp:410-441 | The loop visits at most one codepoint per byte. |
| AccentFold.StripAccent | examples/voice-typing/uinput-text-input.cpp:181-219 | The result is ASCII, and ASCII passes through unchanged. The result is 0 exactly when the codepoint is 0 or is non-ASCII without a table entry. Every non-ASCII fold is a letter. |
| AccentFold.AccentEntry | examples/voice-typing/uinput-text-input.cpp:183-206 | The fold table, one entry per listed codepoint. |
| AccentFold.StripAccentIdempotent | examples/voice-typing/uinput-text-input.cpp:181-219 | Folding a folded codepoint changes nothing. |
| AccentFold.AccentEntryIsLatinBase | examples/voice-typing/uinput-text-input.cpp:183-206 | The table is exactly its description by ranges: U+00C0..U+00DD fold to their base capital; each lower-case letter lies 0x20 above its capital and folds to the lower-case base; ÿ, Œ and œ are listed on their own. |
| AccentFold.StripAccentPreservesCase | examples/voice-typing/uinput-text-input.cpp:183-206 | Every accented capital folds to a capital, and its lower-case partner folds to the lower-case of the same letter. |
| AccentFold.StripAccentIsLatinBase | examples/voice-typing/uinput-text-input.cpp:181-219 | For non-ASCII input, the fold is the base letter the range description gives, or 0 where it gives none. |
| UinputLayout.UnshiftedKey | examples/voice-typing/uinput-text-input.cpp:19-84 | The unshifted table: the letters in keyboard order, the number row, whitespace and unshifted punctuation. |
| UinputLayout.ShiftedKey | examples/voice-typing/uinput-text-input.cpp:87-147 | The shifted table: the capitals on their letter's key and the shifted punctuation on its base key. |
| UinputLayout.Resolve | examples/voice-typing/uinput-text-input.cpp:418-430 | The lookup order: the unshifted table first, the shifted table only when the first has no entry. |
| UinputLayout.UnshiftedDomain | examples/voice-typing/uinput-text-input.cpp:19-84 | The unshifted table has an entry exactly for the lower-case letters, the digits, and space, newline, tab and `` -=[]\;'`,./ ``. |
| UinputLayout.ShiftedDomain | examples/voice-typing/uinput-text-input.cpp:87-147 | The shifted table has an entry exactly for the capitals and `!@#$%^&*()_+{}\|:"~<>?`. |
| UinputLayout.TablesDisjoint | examples/voice-typing/uinput-text-input.cpp:19-147 | No character is in both tables. |
| UinputLayout.ShiftedLetterSharesKey | examples/voice-typing/uinput-text-input.cpp:87-147 | A capital uses the key of its lower-case letter. |
| UinputLayout.ResolveShift | examples/voice-typing/uinput-text-input.cpp:418-430 | A character is typed without shift exactly when it is a lower-case letter, a digit or unshifted punctuation. It is typed with shift exactly when it is a capital or shifted punctuation. |
| UinputLayout.ResolveCoversPrintable | examples/voice-typing/uinput-text-input.cpp:418-430 | The lookup finds a key exactly for printable ASCII, newline and tab. |
| UinputLayout.UnshiftedKeyChar | examples/voice-typing/uinput-text-input.cpp:19-84 | The key the unshifted table gives a character types that character on a US layout. |
| UinputLayout.ShiftedKeyChar | examples/voice-typing/uinput-text-input.cpp:87-147 | The key the shifted table gives a character types that character when shift is held. |
| UinputLayout.KeyCharInvertsResolve | examples/voice-typing/uinput-text-input.cpp:418-430 | Reading back the key and shift state the lookup chose gives the character. |
| UinputLayout.KeyCharUnshifted | examples/voice-typing/uinput-text-input.cpp:19-84 | Every key that types a character without shift is that character's entry in the unshifted table. |
| UinputLayout.KeyCharShifted | examples/voice-typing/uinput-text-input.cpp:87-147 | Every key that types a character with shift is that character's entry in the shifted table. |
| UinputLayout.ResolveInvertsKeyChar | examples/voice-typing/uinput-text-input.cpp:418-430 | The lookup recovers every key/shift pair from the character it types, so it is a bijection between typeable characters and those pairs. |
| UinputLayout.RequestedKeysCoverLayout | examples/voice-typing/uinput-text-input.cpp:282-341 | Every key either table uses, and the left shift key, is enabled with UI_SET_KEYBIT. |
| UinputLayout.ResolveNeverShiftKey | examples/voice-typing/uinput-text-input.cpp:418-430 | No character is typed with a shift key itself. |
| UinputLayout.UnshiftedKeyInjective | examples/voice-typing/uinput-text-input.cpp:19-84 | Distinct characters of the unshifted table use distinct keys. |
| InputEvents.KeyEvent | examples/voice-typing/uinput-text-input.cpp:238-240 | A key event: type EV_KEY, value 1 for a press and 0 for a release. |
| InputEvents.KeySequence | examples/voice-typing/uinput-text-input.cpp:378-398 | type_key writes 4 events, or 8 when it brackets the key with shift. |
| InputEvents.TapEffect | examples/voice-typing/uinput-text-input.cpp:384-390 | Pressing and releasing a key that is not held leaves the held keys unchanged. It types the key's character for the shift state in force. |
| InputEvents.KeySequenceEffect | examples/voice-typing/uinput-text-input.cpp:378-398 | A complete key sequence leaves the held keys as it found them. It types exactly the key's character, shifted exactly when shift was asked for. |
| InputEvents.ShiftStaysHeld | examples/voice-typing/uinput-text-input.cpp:378-398 | A shifted sequence cut off after the shift press and before the shift release leaves shift held. |
| InputEvents.Accepted | examples/voice-typing/uinput-text-input.cpp:378-398 | The events written are a prefix of the sequence. Every write in it succeeded, and the write after it, if any, was refused. |
| UinputText.Plan | examples/voice-typing/uinput-text-input.cpp:414-430 | A codepoint gets a key exactly when its fold is nonzero and one of the tables has the folded character. |
| UinputText.Step | examples/voice-typing/uinput-text-input.cpp:410-441 | A character is skipped as untypeable exactly when it has no key. |
| UinputText.Warned | examples/voice-typing/uinput-text-input.cpp:432-437 | Warnings are never about codepoint 0, and there is at most one per character. |
| UinputText.StepPerfect | examples/voice-typing/uinput-text-input.cpp:378-398 | On a device that accepts every write, a character writes its full key sequence, one write per event, and does not fail. |
| UinputText.FaithfulRun | examples/voice-typing/uinput-text-input.cpp:410-441 | A typist that writes every character's intended events writes the concatenation of them, uses one write per event, and fails no character. |
| UinputText.PerfectDeviceRun | examples/voice-typing/uinput-text-input.cpp:410-441 | On a device that accepts every write, the loop writes exactly the intended key sequences, one write per event, and fails no character. |
| UinputText.IntendedObserved | examples/voice-typing/uinput-text-input.cpp:378-441 | Replaying the intended events on an idle keyboard types exactly the typeable characters, folded, in order, and leaves no key held. |
| UinputText.TypesTypeableText | examples/voice-typing/uinput-text-input.cpp:400-444 | End to end, on a device that accepts every write: a reader sees exactly the folded typeable characters of the text, in order, and every key is released at the end. |
| UinputText.TypesEncodedText | examples/voice-typing/uinput-text-input.cpp:400-444 | End to end for well-encoded text, on a device that accepts every write: a reader sees exactly the folded typeable characters among the encoded codepoints, in order, and no key stays held. |
| UinputText.Unsendable | examples/voice-typing/uinput-text-input.cpp:432-437 | The codepoints without a key, except 0. |
| UinputText.FaithfulWarnings | examples/voice-typing/uinput-text-input.cpp:432-437 | A typist that fails no write warns about exactly the nonzero codepoints without a key, in order. |
| UinputText.PerfectDeviceWarnings | examples/voice-typing/uinput-text-input.cpp:432-437 | On a device that accepts every write, the loop warns about exactly the nonzero codepoints without a key, in order. |
| UinputText.PrintableTypeable | examples/voice-typing/uinput-text-input.cpp:410-441 | Text made of printable ASCII, tab and newline is typeable character for character. |
| UinputText.PrintableTextVerbatim | examples/voice-typing/uinput-text-input.cpp:400-444 | On a device that accepts every write, a reader reads printable ASCII text back exactly, and no key stays held. |
| UinputText.OutcomesUntypeable | examples/voice-typing/uinput-text-input.cpp:410-441 | Every character gets an outcome whatever became of the characters before it. Only those without a key are skipped. |
| UinputText.Next | examples/voice-typing/uinput-text-input.cpp:410-441 | One iteration of the loop body on the state of the loop: the events and write attempts of the character at the current byte, and a warning when it was not sent and is nonzero. |
| UinputText.Finish | examples/voice-typing/uinput-text-input.cpp:410-441 | The state the loop ends in when it resumes at a byte: iterate the body until the end of the text. |
| UinputText.FinishRun | examples/voice-typing/uinput-text-input.cpp:410-441 | Iterating the loop body to the end of the text adds the events, write attempts and warnings of every remaining codepoint. |
| UinputText.WritesAppend | examples/voice-typing/uinput-text-input.cpp:410-441 | The write attempts for two pieces of text add up. |
| UinputText.EventsAppend | examples/voice-typing/uinput-text-input.cpp:410-441 | A failure in an earlier character does not stop the loop. The later characters are typed the same way from the next write on. |
| UinputText.OutcomesAppend | examples/voice-typing/uinput-text-input.cpp:410-441 | The outcomes for two pieces of text are the outcomes of each, the second typed from where the first stopped. |
| UinputDevice.PlannedKeysEnabled | examples/voice-typing/uinput-text-input.cpp:282-341 | When every UI_SET_KEYBIT succeeds, every key the loop can press, and the left shift key, is enabled on the device. |
| UinputDevice.VirtualKeyboard.constructor | examples/voice-typing/uinput-text-input.cpp:15-16 | The program starts with no descriptor, uninitialised, and with nothing written. |
| UinputDevice.VirtualKeyboard.Available | examples/voice-typing/uinput-text-input.cpp:248-375 | The set-up runs on the first call only. It succeeds exactly when open, both UI_SET_EVBIT calls, UI_DEV_SETUP and UI_DEV_CREATE succeed. A failure after open closes that descriptor. The key bits whose ioctl succeeded are enabled. Later calls only report whether a descriptor is held. |
| UinputDevice.VirtualKeyboard.SendEvent | examples/voice-typing/uinput-text-input.cpp:222-235 | One write attempt. The event joins the stream exactly when the device accepts that write. |
| UinputDevice.VirtualKeyboard.SendKeyEvent | examples/voice-typing/uinput-text-input.cpp:238-240 | A press or release event is written as the next event of its key sequence. On refusal, the stream holds the accepted prefix. |
| UinputDevice.VirtualKeyboard.SendSync | examples/voice-typing/uinput-text-input.cpp:243-245 | A report event is written as the next event of its key sequence. On refusal, the stream holds the accepted prefix. |
| UinputDevice.VirtualKeyboard.TypeKey | examples/voice-typing/uinput-text-input.cpp:378-398 | The stream gains exactly the accepted prefix of the key sequence, and the write attempts include the refused one. The answer is true exactly when the whole sequence was written. |
| UinputDevice.VirtualKeyboard.TypeCodepoint | examples/voice-typing/uinput-text-input.cpp:414-430 | Folding, the two lookups and type_key write exactly what Step gives. The character counts as sent exactly when its outcome is Sent. |
| UinputDevice.VirtualKeyboard.TypeAt | examples/voice-typing/uinput-text-input.cpp:410-441 | One loop iteration: the state it reaches is Next, and it advances by the decoded length. |
| UinputDevice.VirtualKeyboard.TypeAll | examples/voice-typing/uinput-text-input.cpp:410-441 | The loop appends the events, write attempts and warnings of every codepoint of the text under the device's answers. |
| UinputDevice.VirtualKeyboard.TypeText | examples/voice-typing/uinput-text-input.cpp:400-444 | When the device is unavailable, nothing is written and the answer is false. Otherwise the whole loop runs and the answer is true. |
| UinputDevice.VirtualKeyboard.Cleanup | examples/voice-typing/uinput-text-input.cpp:447-453 | A held descriptor is destroyed and closed, and then no descriptor is held. The initialised flag stays set. |
| UinputScenarios.CafeDecodes | examples/voice-typing/uinput-text-input.cpp:153-177 | The bytes of "café" decode to c, a, f, U+00E9. |
| UinputScenarios.CafeTypeable | examples/voice-typing/uinput-text-input.cpp:181-219 | "café" folds to the typeable text "cafe", with nothing to warn about. |
| UinputScenarios.CafePlanned | examples/voice-typing/uinput-text-input.cpp:414-430 | é is typed with the unshifted key of e. |
| UinputScenarios.CafeTypesCafe | examples/voice-typing/uinput-text-input.cpp:400-444 | On a device that accepts every write, a reader sees "cafe". |
| UinputScenarios.EuroIsWarned | examples/voice-typing/uinput-text-input.cpp:432-437 | "€" decodes to U+20AC, writes nothing, uses no write, and is warned about. |
| UinputScenarios.InvalidByteSkippedSilently | examples/voice-typing/uinput-text-input.cpp:174-176 | A lone 0xFF byte decodes to 0. Nothing is written and nothing is warned about. |
| UinputScenarios.StuckShiftFirst | examples/voice-typing/uinput-text-input.cpp:378-383 | With the third write refused, "A" writes only the shift press and its report, and fails. |
| UinputScenarios.StuckShiftSecond | examples/voice-typing/uinput-text-input.cpp:385-391 | The "b" after it is still typed in full from the next write. |
| UinputScenarios.StuckShiftRun | examples/voice-typing/uinput-text-input.cpp:410-441 | For "Ab", the loop writes the shift press and the full sequence for b, and warns about "A" only. |
| UinputScenarios.LeftOverShift | examples/voice-typing/uinput-text-input.cpp:378-398 | A reader of those events sees "B" and finds shift still held. |
| UinputScenarios.StuckShift | examples/voice-typing/uinput-text-input.cpp:400-444 | End to end: after one refused write, "Ab" reaches the reader as "B" with shift stuck down. |
| LibeiTables.AddRun | examples/voice-typing/libei-text-input.cpp:24-26 | A range loop enters each character of the range with the code counting up from the first, and keeps the other entries. |
| LibeiTables.AddUnshiftedPunctuation | examples/voice-typing/libei-text-input.cpp:34-47 | After the insertions, the map holds its old entries plus exactly the unshifted punctuation, each with its listed code. |
| LibeiTables.AddShiftedPunctuation | examples/voice-typing/libei-text-input.cpp:62-82 | After the insertions, the map holds its old entries plus exactly the shifted punctuation, each with its listed code. |
| LibeiTables.CreateKeycodeMap | examples/voice-typing/libei-text-input.cpp:20-50 | The map built has an entry exactly where the arithmetic description has one, with the same code. |
| LibeiTables.CreateShiftedKeycodeMap | examples/voice-typing/libei-text-input.cpp:53-85 | The map built has an entry exactly where the arithmetic description has one, with the same code. |
| LibeiTables.LibeiShiftedLetterSharesCode | examples/voice-typing/libei-text-input.cpp:57-59 | A capital gets the code of its lower-case letter. |
| LibeiTables.LibeiTablesDisjoint | examples/voice-typing/libei-text-input.cpp:20-85 | No character is in both tables. |
| LibeiTables.LibeiUnshiftedCovers | examples/voice-typing/libei-text-input.cpp:20-50 | The unshifted table covers exactly the characters of the uinput unshifted table. |
| LibeiTables.LibeiShiftedCovers | examples/voice-typing/libei-text-input.cpp:53-85 | The shifted table covers exactly the characters of the uinput shifted table. |
| LibeiTables.LibeiUnshiftedAgrees | examples/voice-typing/libei-text-input.cpp:24-31 | The code agrees with the uinput table exactly for the punctuation, 'a' and '0'. |
| LibeiTables.LibeiShiftedAgrees | examples/voice-typing/libei-text-input.cpp:57-59 | The code agrees with the uinput table exactly for the punctuation and 'A'. |
| LibeiTables.LibeiCodesCollide | examples/voice-typing/libei-text-input.cpp:24-31 | '1' gets the code of '-', 'm' gets KEY_LEFTSHIFT, and the key given to 'b' types 's'. |
| LibeiConnection.SocketPath | examples/voice-typing/libei-text-input.cpp:105-106 | The path is the runtime directory followed by the EIS socket suffix, cut to the 511 bytes the buffer holds. Each character of the directory stands for one byte. |
| LibeiConnection.SocketPathSuffix | examples/voice-typing/libei-text-input.cpp:105-106 | A short enough directory keeps the whole suffix. A longer one loses part of it. |
| LibeiConnection.SendKey | examples/voice-typing/libei-text-input.cpp:142-149 | No key is ever reported as sent. |
| LibeiConnection.LibeiInput.constructor | examples/voice-typing/libei-text-input.cpp:14-16 | The program starts uninitialised, with no context and no keyboard, and with the two tables built by their loops. |
| LibeiConnection.LibeiInput.Available | examples/voice-typing/libei-text-input.cpp:90-140 | The probe runs on the first call only, and succeeds exactly when the runtime directory is set, the socket exists, the sender is created and connecting succeeds. A failed connection releases the context. Every later call answers false, because no keyboard ever exists. |
| LibeiConnection.LibeiInput.TypeText | examples/voice-typing/libei-text-input.cpp:151-177 | Always answers false. On a first call the context is gone afterwards. On any later call the context is left as it was. |
| LibeiConnection.ProbeTwice | examples/voice-typing/libei-text-input.cpp:90-93 | The second probe fails whatever the first found, and the context of a successful first probe survives. |
| LibeiConnection.TypeWithoutProbe | examples/voice-typing/libei-text-input.cpp:151-177 | Typing first types nothing and leaves no context. The context is released once when one was created. |
| LibeiConnection.TypeAfterProbe | examples/voice-typing/libei-text-input.cpp:151-177 | Typing after a probe types nothing and never releases the context that probe connected. |

## Left out

- The text of the messages written to stderr. The model records only the codepoints warned about, not the message text and not the UTF-8 fragment it quotes.
- The `usleep` pauses after device creation and after connecting to the EIS socket. They affect only timing.
- The binary layout of `struct input_event`: the timestamp is left zero by the source, and `write` is modelled as accepting or refusing a whole event.
- The contents of `struct uinput_setup`: the bus type, vendor and product IDs and the device name. They are passed to UI_DEV_SETUP, whose success is a field of the host.
- That `cleanup_uinput` runs as a destructor at program exit. It is modelled as an ordinary method.
- The libei protocol itself. `ei_new_sender`, `ei_setup_backend_socket`, `ei_unref` and `access` are fields of the host, or counted calls.
- Signedness of `char` in the libei loops and the uinput lookups. Every character involved is ASCII, so it does not matter.
- The header files, the build switch `HAVE_LIBEI` and the program that chooses between the back ends. They are not part of this model.
- Threads and concurrent callers: the source keeps its state in unsynchronised globals.

## Findings

| source | as written | input that shows it | evidently intended | confidence | as-written member | corrected member |
|---|---|---|---|---|---|---|
| examples/voice-typing/libei-text-input.cpp:24-31 | Letter and digit codes count up from KEY_A and KEY_0, as if Linux numbered its keys alphabetically with KEY_0 before KEY_1. | '1' gets 12, which is KEY_MINUS, the same as '-'. 'm' gets 42, which is KEY_LEFTSHIFT. 'b' gets 31, the key that types 's'. | Each character's own key on a US layout, as the uinput back end's table gives it (its comment points out that the letter codes are in keyboard order, not alphabetical). | not executed | LibeiTables.LibeiCodesCollide | UinputLayout.UnshiftedKeyChar |
