# WaterRower S4 engines, modelled in Dafny

This project models the two engines of the WaterRower S4 monitor interface.

- **The live engine** (`s4/rower.js`, class `S4`):
  - it finds the console's USB serial port;
  - it queues outbound commands and writes one per 200 ms tick;
  - it decodes every inbound line: the `_WR_` handshake, the `IV` firmware report, the `ID` data values and the `S` strobe;
  - it keeps the memory-map table with change detection;
  - it emits `state` and `update` events, optionally recording each one with the time since the previous record;
  - it reconnects after port errors, closes and failed opens.
- **The playback engine** (`s4/playback.js`, class `S4`): it replays a recorded session by popping one entry per timer expiry, emitting it and copying update values into the table.

Modules:

- `JsText`: the JavaScript semantics the engines rely on. This covers `charAt`, `substring` (clamping and swapping its bounds), ASCII `toLowerCase`, and `parseInt(_, 16)` (leading white space, sign, `0x` prefix, longest digit run, `NaN`). It also covers multiplication by a truthy `multiple` and `!==` over `undefined`, `NaN` and numbers (`Reading`).
- `MemoryMap`: the table entries, lookup by address, the strobe's read commands, change detection (`ApplyReading`) and the zeroing reset.
- `Frames`: how one inbound line is classified and which fixed-position fields it carries. It also holds the console's encoding of a data line (`DataLine`), so that decoding is proved against encoding.
- `Events`: the event stream and the recorder as a value (`Bus`), and the recorder's invariant `Mirrors`: one record per event, with the same name and payload, and with delays that add up to the time since the recorder was attached.
- `Rower`: the port search and the live engine as a class whose methods change its fields. The timers and transport notifications are methods too: `Tick`, `FireReconnect`, `PortErrored`, `PortClosed`, `OpenSucceeded` and `OpenFailed`.
- `Playback`: the playback engine as a class, with the value-level step `StartStep` and its multi-step lemmas. These include `RecordThenReplay`: replaying what the recorder wrote delivers exactly the live event stream.

The transport is the flag `port` plus the list `written` of strings sent. Wall-clock time is the field `clock`, advanced by `Elapse`. A pending `port.open` call is counted by the ghost field `openRequests`.

## Model

| member | source | states |
|---|---|---|
| `JsText.CharAt` | s4/rower.js:128 | `charAt` is the one-character string at an index inside the string, and the empty string outside it |
| `JsText.Substring` | s4/rower.js:190-191 | an in-range `substring` is the slice between its bounds; the result is never longer than the string |
| `JsText.SubstringClampsAndSwaps` | s4/rower.js:190-191 | bounds below 0 act as 0, bounds past the end act as the length, and swapped bounds give the same slice |
| `JsText.ToLower` | s4/rower.js:33 | the result has the same length and folds exactly the letters A-Z onto a-z |
| `JsText.TrimStart` | s4/rower.js:226 | `parseInt` skips exactly the leading run of white space: every removed character is white space and the remaining suffix does not start with white space |
| `JsText.HexPrefixLength` | s4/rower.js:226 | the digits `parseInt` reads are the longest all-hexadecimal prefix |
| `JsText.Times` | s4/rower.js:227-229 | scaling a number gives the product, and scaling `NaN` or `undefined` gives `NaN` |
| `JsText.ParseHex` | s4/rower.js:226 | `parseInt(_, 16)` is never `undefined`; a string that is empty after white space gives NaN; a negative result comes only from a leading minus sign. Its value at each step is given by the `Frames` lemmas: leading white space (`ParseHexSkipsWhiteSpace`), a sign (`ParseHexSign`, and `SignThenNoDigitIsNaN` for a sign followed by white space or a second sign), a `0x`/`0X` prefix (`ParseHexRadixPrefix`), the digit run (`ParseHexReadsLeadingDigits`, `ParseHexOfPlainDigits`) and no digits (`NoDigitsIsNaN`) |
| `JsText.StrictlyDiffers` | s4/rower.js:230 | `a !== b` holds exactly when the readings differ or `a` is NaN |
| `JsText.StrictlyDiffersFacts` | s4/rower.js:230 | `!==` is symmetric, `NaN` differs from everything including itself, every other reading equals itself, and distinct readings differ |
| `MemoryMap.IndexOf` | s4/rower.js:225 | `find` by address yields the first entry with that address, and finds none exactly when the address is not in the table |
| `MemoryMap.ReadCommand` | s4/rower.js:183 | the command is `IR`, then the size code, then the address, and nothing else |
| `MemoryMap.Scaled` | s4/rower.js:227-229 | a number is multiplied by `multiple` when that is truthy and kept otherwise; NaN stays NaN; `undefined` becomes NaN when scaled and stays `undefined` otherwise |
| `MemoryMap.StrobeCommands` | s4/rower.js:145-148 | one `'IR' + size + address` command per table entry, in table order |
| `MemoryMap.ApplyReading` | s4/rower.js:230-235 | a reading that strictly differs moves `value` into `prevValue`, stores the reading and asks for an update; any other reading leaves the entry exactly as it was; the address never changes |
| `MemoryMap.Zeroed` | s4/rower.js:70-74 | a zeroing reset sets every `value` to 0 and changes nothing else, `prevValue` included |
| `MemoryMap.RepeatedReadingIsSilent` | s4/rower.js:230-235 | applying the same reading (other than NaN) a second time changes nothing and asks for no update |
| `MemoryMap.NaNReadingAlwaysChanges` | s4/rower.js:226-235 | a NaN reading is a change every time: it is stored, and the old value becomes `prevValue` |
| `MemoryMap.ApplyReadingKeepsKeys` | s4/rower.js:232-233 | storing a reading keeps every address of the table |
| `MemoryMap.ZeroedKeepsKeys` | s4/rower.js:71-73 | zeroing keeps every address of the table |
| `Frames.Width` | s4/rower.js:210-223 | S is worth 1 byte pair, D 2 and T 3, and no other string is a size code |
| `Frames.VersionString` | s4/rower.js:189-192 | on a line of at least 7 characters, the version is `S`, character 2, a space, characters 3-4, a dot, characters 5-6 |
| `Frames.Classify` | s4/rower.js:128-152 | exactly `_WR_` is a handshake, exactly the lines starting with `S` are strobes and with `O`, `E` or `P` chatter; every line starting with `I` is classified by `InformationFrame`, so a line is a version report exactly when it starts with `IV` and a data frame exactly when it starts with `ID` and a size code |
| `Frames.InformationFrame` | s4/rower.js:168-180 | an `I` line is a version report exactly when its second character is `V`, and then it carries `VersionString(line)`; a line with `D` there is decoded by `MemoryValueFrame`; any other is unrecognized |
| `Frames.MemoryValueFrame` | s4/rower.js:207-224 | a data frame exactly when character 2 is a size code, and unrecognized otherwise; it carries that size code, and on a line long enough for its width the address is characters 3-5 and the digits the next `2 * width` characters; on a shorter line the digits are whatever follows character 5, and with fewer than six characters the address is what follows character 2 and the digits are empty |
| `Frames.VersionMatchesExactly` | s4/rower.js:189-194 | the firmware string equals `S4 02.10` exactly when the line has at least 7 characters and characters 2 to 6 are `40210` |
| `Frames.SupportedFirmwareLine` | s4/rower.js:188-194 | `IV40210` is a version line reporting `S4 02.10` |
| `Frames.OtherFirmwareLine` | s4/rower.js:192-199 | `IV40200` reports `S4 02.00`, which is not the expected version |
| `Frames.BadSizeCodeIsUnrecognized` | s4/rower.js:210-222 | an `ID` line whose size character is not S, D or T is unrecognized |
| `Frames.TruncatedDataLine` | s4/rower.js:207-226 | an `ID` line that ends right after its address decodes with an empty digit field |
| `Frames.ClassifyDataLine` | s4/rower.js:206-224 | a data line long enough for its size code decodes to that size code, characters 3-5 as the address and the next `2 * width` characters as the digits |
| `Frames.ParseHexOfDigits` | s4/rower.js:226 | a non-empty run of hexadecimal digits parses to its value |
| `Frames.ParseHexReadsLeadingDigits` | s4/rower.js:226 | `parseInt` reads the leading digits and ignores whatever follows the first non-digit, except for the `0x` radix prefix |
| `Frames.ParseHexOfPlainDigits` | s4/rower.js:226 | a string that starts with a digit and no `0x`/`0X` prefix parses to the value of its leading digits |
| `Frames.NothingToStrip` | s4/rower.js:226 | before such a string's digits there is no white space, sign or radix prefix to skip |
| `Frames.NoDigitsIsNaN` | s4/rower.js:226 | a field that is empty, or starts with a character that is not a digit, white space or a sign, parses to NaN |
| `Frames.ParseHexSkipsWhiteSpace` | s4/rower.js:226 | any run of JavaScript white space and line terminators before the field is skipped: the result is that of the field without it |
| `Frames.ParseHexSign` | s4/rower.js:226 | one leading `-` negates the number that the rest of the field reads and one leading `+` keeps it; when the rest reads NaN, so does the signed field (for a rest that starts with neither white space nor another sign) |
| `Frames.SignThenNoDigitIsNaN` | s4/rower.js:226 | a sign followed by white space or by a second sign gives NaN: only one sign is taken, and it must come directly before the digits |
| `Frames.ParseHexRadixPrefix` | s4/rower.js:226 | after a `0x` or `0X` prefix the following run of digits is read; a prefix with no digit after it gives NaN |
| `Frames.ParseHexOfToHex` | s4/rower.js:226 | the digits the console writes for a value parse back to that value |
| `Frames.DataLineRoundTrip` | s4/rower.js:206-226 | decoding the console's data line recovers its size code, address and digits, whatever follows on the line, and the digits parse back to the value |
| `Events.Emit` | s4/rower.js:90-98 | the event is appended to the stream; when recording, one record with its name, payload and the time since the last record is appended and the last-record time becomes now; otherwise the recorder is untouched |
| `Events.EmitKeepsMirror` | s4/rower.js:90-98 | emitting appends exactly the event; when recording, it appends one record with the same name and payload and a non-negative delay, so the recorder keeps mirroring the stream |
| `Rower.RowingMachineIdentifiers` | s4/rower.js:29-33 | the match rule of `IsRowingMachine` (both identifiers are strings whose ASCII lower-case forms are `04d8` and `000a`) accepts exactly the vendor identifiers `04d8`/`04D8` and the product identifiers `000a`/`000A`; a missing identifier never matches |
| `Rower.LowerCaseEquals` | s4/rower.js:30-33 | a string folds to a given lower-case identifier exactly when each character is that identifier's character or its upper-case form |
| `Rower.ReconnectDetails` | s4/rower.js:244-256 | the details always end with `Attempting reconnect in 5s`; a non-empty cause comes first, followed by exactly two spaces and then the notice; with no cause the details are the notice alone |
| `Rower.FindPort` | s4/rower.js:26-40 | the path of the first port whose vendor and product identifiers are strings matching `04d8`/`000a` ignoring case; none exactly when no port matches |
| `Rower.UpperCaseIdentifiersMatch` | s4/rower.js:29-33 | one instance of that rule: upper-case identifiers match, and a port without a string vendor identifier does not |
| `Rower.RepeatedDataLineIsSilent` | s4/rower.js:224-236 | the same console data line decoded twice changes the entry at most once: the second decode is no change |
| `Rower.TruncatedDataLineAlwaysUpdates` | s4/rower.js:224-235 | a data line cut off after its address decodes to NaN, which is stored and reported as an update every time |
| `Rower.S4.constructor` | s4/rower.js:7-24 | no port, nothing queued, no writer, not connected, not reconnecting, not destroyed; the recorder is attached when configured and its timer starts at construction time |
| `Rower.S4.Elapse` | s4/rower.js:93-95 | time advances by the given amount and the engine's invariant holds |
| `Rower.S4.GetMemory` | s4/rower.js:62-64 | the table itself is returned |
| `Rower.S4.Emit` | s4/rower.js:90-98 | the event is delivered and, when recording, recorded with the time since the last record, keeping the engine's invariant |
| `Rower.S4.Write` | s4/rower.js:100-102 | the command goes to the back of the queue |
| `Rower.S4.ReadMemoryAddress` | s4/rower.js:182-185 | the command `'IR' + size + address` goes to the back of the queue |
| `Rower.S4.Reset` | s4/rower.js:66-75 | the queue becomes exactly `RESET`, one `reset` state is emitted, and the table is zeroed when so configured |
| `Rower.S4.Destroy` | s4/rower.js:77-88 | one `stopped` state, the queue is empty, the engine is marked destroyed, the flush timer is stopped and the recorder ended |
| `Rower.S4.FlushNext` | s4/rower.js:104-124 | an empty queue changes nothing; otherwise exactly the head leaves, and it is written with CRLF (emitting `started` iff it is `RESET`), or with no port dropped with one `error` naming it |
| `Rower.S4.Tick` | s4/rower.js:280 | the 200 ms interval, while it runs, performs one flush |
| `Rower.S4.ReadAndDispatch` | s4/rower.js:126-153 | a handshake queues `IV?`; a strobe queues one read command per entry in table order; `O`, `E`, `P` and unknown lines change nothing; `I` lines act as their frame says |
| `Rower.S4.WrHandler` | s4/rower.js:160-166 | exactly `_WR_` queues `IV?`; any other `_` line changes nothing |
| `Rower.S4.InformationHandler` | s4/rower.js:168-180 | `IV` lines are version reports, `ID` lines data values, other `I` lines change nothing |
| `Rower.S4.InformationVersionHandler` | s4/rower.js:187-204 | a version other than `S4 02.10` emits one `error` state naming it; the reset follows in both cases |
| `Rower.S4.MemoryValueHandler` | s4/rower.js:206-237 | an unknown size code changes nothing; otherwise the `2 * width` digits after the address are parsed, scaled, stored when they differ (one update) and the address is read again whether or not the value changed |
| `Rower.S4.UpdateDataPoint` | s4/rower.js:224-236 | the entry with the address takes the scaled reading through change detection, and the read command is queued in every case |
| `Rower.S4.StoreReading` | s4/rower.js:230-235 | a differing reading is stored and emitted as exactly one update; an equal one changes nothing |
| `Rower.S4.Reconnect` | s4/rower.js:243-260 | always disconnected; when no retry is scheduled yet, one `reconnecting` state with the cause and one retry; when one is already scheduled, nothing is emitted |
| `Rower.S4.PortErrored` | s4/rower.js:51-55 | a port error, possible only once the port object exists, reconnects with its message |
| `Rower.S4.PortClosed` | s4/rower.js:56-59 | a port close, possible only once the port object exists, reconnects with its message |
| `Rower.S4.Open` | s4/rower.js:262-266 | on the existing port object, the scheduled retry is cancelled and one open request is made |
| `Rower.S4.FireReconnect` | s4/rower.js:259 | the 5 s retry, while scheduled, opens the port again |
| `Rower.S4.OpenFailed` | s4/rower.js:266-271 | a failed open reconnects with the open-error message |
| `Rower.S4.OpenSucceeded` | s4/rower.js:273-285 | a successful open resets first only when a flush timer already existed and commands were queued; a flush timer runs, the engine is connected and `USB` is the last queued command |
| `Rower.S4.Start` | s4/rower.js:42-60 | without a truthy port path nothing happens; otherwise the port object exists and one open request is made |
| `Playback.CopyUpdate` | s4/playback.js:22-27 | the first entry with the payload's address takes the payload's `prevValue` and `value`, every other entry is unchanged, and every address is kept |
| `Playback.CopyUpdateTakesRecordedPrevValue` | s4/playback.js:22-27 | playback takes the recorded `prevValue` over the table's own value: when the two differ, the copied entry keeps the payload's `prevValue` and the table differs from the live update by the same reading |
| `Playback.StartStep` | s4/playback.js:17-35 | one start keeps every address of the table, always schedules a next start, removes the head of a non-empty queue and emits one event exactly when the queue was non-empty |
| `Playback.Replay` | s4/playback.js:17-35 | repeated starts keep every address, leave a start scheduled once any start has run, and consume one queued entry per start until the queue is empty |
| `Playback.StartStepPops` | s4/playback.js:19-21 | a start on a non-empty queue removes exactly the head and emits its event with its payload |
| `Playback.ReplayEmitsInOrder` | s4/playback.js:13-21 | `k` starts emit the first `k` loaded entries in load order and leave the rest queued |
| `Playback.ReplayPacing` | s4/playback.js:29-34 | after the start that emits entry `k`, the next start waits entry `k`'s own delay while entries remain, and 1000 ms once the queue is empty |
| `Playback.IdleStart` | s4/playback.js:19-34 | a start on an empty queue emits nothing, changes nothing and retries after 1000 ms |
| `Playback.ReplayMatchesLive` | s4/playback.js:22-27 | replaying an update leaves the table exactly as the live decode that emitted it did |
| `Playback.RecordThenReplay` | s4/playback.js:13-35 | loading a recording and starting once per entry delivers exactly the recorded live session's events, in order, with their payloads |
| `Playback.S4.constructor` | s4/playback.js:5-11 | empty queue, no timer, the given table |
| `Playback.S4.Load` | s4/playback.js:13-15 | the entry goes to the back of the queue and nothing else changes |
| `Playback.S4.Start` | s4/playback.js:17-35 | one start as `StartStep`: pop, emit, copy an update, schedule after the popped entry's delay or 1000 ms |
| `Playback.S4.Fire` | s4/playback.js:29-34 | the scheduled start, while scheduled, performs one start |
| `Playback.S4.Destroy` | s4/playback.js:41-45 | the scheduled start is cancelled |
| `Playback.S4.GetMemory` | s4/playback.js:37-39 | the table itself is returned |

## Behaviour of the code worth knowing

In these places the code behaves otherwise than a reader might expect, and the model follows the code:

- `_flushNext` tests `this.port`, which is set as soon as `start` creates the port object, whether or not the port is open. `_flushNext` runs from the 200 ms interval, which starts only after a successful open, and that needs the port object. So the `error` path for a dropped command (s4/rower.js:117-122) is reached only when `_flushNext` is called directly before `start` (`FlushNext` with `port == false`), and never while the console is disconnected.
- Playback waits after each start for the delay stored with the entry it just emitted (`part[1]`): the wait before emitting entry `k + 1` is entry `k`'s recorded delay, not entry `k + 1`'s. `Playback.ReplayPacing` states this pacing as written.
- `destroy` sets `destroyed` (read only by the singleton guard in `s4/index.js`, which this model leaves out) and stops the flush interval (`Destroy` clears `writerRunning`, and `Tick` needs it). It does not make the engine inert: inbound lines are still handled, a scheduled reconnect is not cancelled, and a reconnect's successful open starts the flush interval again, so ticks resume. The model keeps that behaviour.
- A data field without hexadecimal digits parses to NaN. Because NaN is never strictly equal to anything, every such line stores NaN and emits an update (`Rower.TruncatedDataLineAlwaysUpdates`).

## Left out

- The serial port, the line parser and the `port.open` call are foreign I/O. The model has bytes written as the list `written`, and open outcomes and port notifications as the methods `OpenSucceeded`, `OpenFailed`, `PortErrored` and `PortClosed`.
- `setInterval`/`setTimeout` are the methods `Tick`, `FireReconnect` and `Playback.S4.Fire`, not a scheduler. Node's clamping of delays (negative, too large, non-numeric) is not modelled.
- `new Date()` is the field `clock`, advanced by `Elapse`. The model assumes time does not go backwards.
- The recording sink is the list of `Record` values, not the `JSON.stringify` text. It does not capture that this text writes `NaN` as `null` and omits `undefined`, nor writing after the stream has ended.
- Fractional `multiple` values and floating-point arithmetic: readings are integers, and a multiple is an integer.
- `-0` is the number 0. That makes no difference to `!==`.
- Dafny strings are sequences of Unicode scalar values, while `charAt` and `substring` index UTF-16 code units. The fixed positions agree for lines of BMP characters, which covers the console's ASCII protocol, but not for lines containing characters outside the BMP.
- `toLowerCase` is modelled for ASCII only. Identifier strings with other letters are compared as if those letters had no lower-case form.
- A data line whose address is not in the table makes `find` return `undefined`, and the source then fails on `dataPoint.multiple`. This is a precondition of `ReadAndDispatch` (`Dispatchable`) and of the handlers.
- In playback, an `update` entry whose address is not in the table is likewise a precondition.
- A recorded entry is assumed to be an `[event, delay, payload]` triple.
- An `update` event carries a snapshot of the entry. The source passes the table element itself, which later decodes keep mutating, and the model does not capture that aliasing.
- `Playback.S4.Start` called directly while a start is already scheduled starts a second timer chain in the source. The model keeps a single timer field, so the first timer is lost rather than left running.
- `debug` logging, `_unknownHandler` (logging only) and `toString` are not modelled.
- `s4/index.js` (the singleton and port discovery wiring), `app.js`, the demo programs and the memory-map definition file are not part of this model. The table is a parameter of the constructors.
