# Red Pitaya instrument wrappers, modelled in Dafny

This project models three Python instrument wrapper classes of `rpnacs`. Each class drives a Red Pitaya board through an already-connected SCPI transport `rp`:

- `Scope` drives the oscilloscope. It handles acquisition, decimation, triggers and sample readout. It is the only class with state of its own: a cached trigger command.
- `DIOController` drives the LEDs and the `DIO<n>_P` / `DIO<n>_N` digital pins.
- `FuncGenerator` drives the two-channel signal generator.

Every wrapper method turns its arguments into an ordered list of text commands. It writes these with `rp.tx_txt` and reads replies with `rp.rx_txt`. A reply is usually passed through `utils.rm_err`, which yields an `(err_flag, val)` pair.

The model has five modules:

- `Text` models the Python string operations the wrappers use:
  - `str(int)` and `int(str)`;
  - `int(float)`, which truncates toward zero;
  - `strip`, `replace("  ", "")`, `split(',')` and `','.join`.
- `Transport` models the transport as the class `Link`:
  - a log of every command sent;
  - a cursor into a fixed stream of replies;
  - the shared reply decoding;
  - a reader for the header and arguments of a command line.
- `Scope`, `DIOController` and `FuncGenerator` each hold one wrapper class.

Every wrapper method's postcondition states exactly what it appends to the log and how many replies it consumes. The method that sends several commands is tied to a specification function, and lemmas state what that sequence means:

- the channel or pin it addresses, in which order;
- the guard under which nothing is sent;
- the first `TD` status at which polling stops;
- that each command decodes back to its arguments.

Python exceptions the wrappers let propagate become `Err` results. No command goes out after the exception. The exceptions are:

- `ValueError` from `int()` of a non-integer reply;
- `ZeroDivisionError` from a zero buffer size;
- `ValueError` from `np.linspace` when `get_time_points` reads a negative buffer size;
- `ValueError` from `int()` of NaN when `set_time_total` takes the logarithm of a negative stretch;
- `NameError` in `get_led`;
- `TypeError` in the burst setters.

## Model

| member | source | states |
|---|---|---|
| Text.IntToString | src/rpnacs/lib/scope.py:112 | `str(int)`: a non-empty string of decimal digits, apart from a leading `-` |
| Text.Strip | src/rpnacs/lib/scope.py:244 | `strip(chars)`: no longer than the text, and neither end is one of the stripped characters |
| Text.ParseIntOfString | src/rpnacs/lib/scope.py:107 | `int(str(n)) == n`: the decimal text of any integer reads back as that integer |
| Text.ParseInt | src/rpnacs/lib/scope.py:107 | `int(str)`: an optional sign and decimal digits between whitespace; its properties are `ParseIntOfString`, `ParseIntStrip`, `UnicodeSpaceIgnored` and `SeparatorRejected` |
| Text.ParseIntStrip | src/rpnacs/lib/scope.py:107 | `int()` ignores whitespace around the number: the six C-locale spaces (tab to carriage return, and space) and every non-ASCII character `str.isspace` accepts (U+0085, U+00A0, U+1680, U+2000-U+200A, U+2028, U+2029, U+202F, U+205F, U+3000) |
| Text.SeparatorRejected | src/rpnacs/lib/scope.py:107 | the ASCII information separators 0x1C-0x1F, which `str.isspace` accepts, are not ignored: `int()` of `\x1c5`, `\x1d5`, `5\x1e` or `5\x1f` raises `ValueError` |
| Text.UnicodeSpaceIgnored | src/rpnacs/lib/scope.py:107 | a no-break space (U+00A0) or an em space (U+2003) around the digits is ignored too |
| Text.Trunc | src/rpnacs/lib/scope.py:112 | `int(x)` of a real: the integer nearest x toward zero, at most one away from it |
| Text.StripKeeps | src/rpnacs/lib/scope.py:244 | stripping a set of characters from both ends keeps every character outside that set, so it removes no comma |
| Text.DeleteDoubleSpaces | src/rpnacs/lib/scope.py:244 | `replace("  ", "")`: removes adjacent pairs of spaces from left to right; its properties are `DeleteDoubleSpacesLeavesNone` and `DeleteDoubleSpacesKeeps` |
| Text.DeleteDoubleSpacesLeavesNone | src/rpnacs/lib/scope.py:244 | after `replace("  ", "")` no two spaces remain adjacent |
| Text.DeleteDoubleSpacesKeeps | src/rpnacs/lib/scope.py:244 | `replace("  ", "")` keeps every non-space character |
| Text.Split | src/rpnacs/lib/scope.py:244 | `split(sep)`: the pieces between separators; its properties are `SplitShape`, `JoinSplit` and `SplitJoin` |
| Text.Join | src/rpnacs/lib/FuncGenerator.py:136 | `sep.join(pieces)`: the pieces with one separator between neighbours; its properties are `JoinSplit`, `SplitJoin` and `JoinCount` |
| Text.SplitShape | src/rpnacs/lib/scope.py:244 | `split(sep)` gives one piece more than there are separators, and no piece holds one |
| Text.JoinSplit | src/rpnacs/lib/scope.py:244 | joining the pieces of a split gives back the text |
| Text.SplitJoin | src/rpnacs/lib/FuncGenerator.py:136 | splitting a join of separator-free pieces gives back the pieces |
| Text.JoinCount | src/rpnacs/lib/FuncGenerator.py:136 | a join of n separator-free pieces holds n - 1 separators (none for no pieces) |
| Transport.IntAnswer | src/rpnacs/lib/scope.py:104-107 | `err_flag, int(val)`: the integer value with the flag kept, or `ValueError` exactly when the text is not an integer |
| Transport.IntAnswerOfString | src/rpnacs/lib/scope.py:104-107 | a reply holding the decimal text of n reads as n |
| Transport.CommandAnatomy | src/rpnacs/lib/DIOController.py:86 | a command built as header, one space and comma-joined arguments reads back as that header and those arguments |
| Transport.IntCommandAnatomy | src/rpnacs/lib/scope.py:112 | a command with one integer argument carries exactly that integer |
| Transport.Link.Tx | src/rpnacs/lib/scope.py:92 | `rp.tx_txt`: appends the command to the log and consumes no reply |
| Transport.Link.Rx | src/rpnacs/lib/scope.py:227 | `rp.rx_txt`: returns the next reply of the stream and advances the cursor by one |
| Transport.Link.Query | src/rpnacs/lib/scope.py:159-161 | sends one command, then returns the decoded pair of the next reply |
| Transport.Link.QueryInt | src/rpnacs/lib/scope.py:104-107 | sends one command, then returns `int()` of the next reply's value |
| Scope.Scope.constructor | src/rpnacs/lib/scope.py:6-14 | a fresh wrapper caches `ACQ:TRIG NOW` (the immediate trigger), sends nothing and uses 125 MS/s |
| Scope.Scope.SetTrigger | src/rpnacs/lib/scope.py:17-26 | with an edge other than `PE`/`NE`, nothing is sent and the cache is kept; otherwise it sends level, delay and source commands in that order, and the source command becomes the cache |
| Scope.TrigSourceTable | src/rpnacs/lib/scope.py:136-155 | the trigger command for each source: -1 disabled, 0 now, 1/2 `CH<n>_<edge>`, 3 `EXT_<edge>`, 4 `AWG_<edge>`, anything else now |
| Scope.TrigSourceCommand | src/rpnacs/lib/scope.py:136-155 | the trigger command `set_trig_source` builds for a source and an edge; `TrigSourceTable`, `TrigSourceRoundTrip` and `TrigSourceInjective` state what it is |
| Scope.TrigSourceRoundTrip | src/rpnacs/lib/scope.py:136-156 | every trigger command decodes to the trigger that its source and edge select |
| Scope.TrigSourceInjective | src/rpnacs/lib/scope.py:136-156 | two source/edge choices send the same command exactly when they select the same trigger |
| Scope.Scope.SetTrigSource | src/rpnacs/lib/scope.py:127-156 | sends exactly one command and returns that same command, the one `TrigSourceCommand` defines |
| Scope.Pow2AtMost | src/rpnacs/lib/scope.py:39 | `2**floor(log2(n))`: a power of two p with p <= n < 2p |
| Scope.Pow2AtLeast | src/rpnacs/lib/scope.py:54 | `2**ceil(log2(n))`: the least power of two p >= n |
| Scope.DecimationForResolution | src/rpnacs/lib/scope.py:33-39 | a power-of-two decimation: 1 at or below one sample period, otherwise dec <= res * rate < 2 * dec |
| Scope.TimeResHonoured | src/rpnacs/lib/scope.py:28-42 | when the buffer-size reply is an integer, the instrument echoes the chosen decimation and the resolution asked for is at least one sample period (`res * rate >= 1`), `set_time_res` reports a resolution no coarser than asked and more than half of it |
| Scope.Scope.SetTimeRes | src/rpnacs/lib/scope.py:28-42 | sends and returns what `TimeResExchange` defines; a non-integer reply ends it with `ValueError` |
| Scope.DecimationForTotal | src/rpnacs/lib/scope.py:47-54 | the maximum 65536 beyond the longest window; otherwise a zero buffer divides by zero; above that, a negative stretch raises `ValueError`, a stretch of at most 1/2 truncates to 0, and a larger one rounds up to the least power of two |
| Scope.TimeTotalCovers | src/rpnacs/lib/scope.py:44-57 | when the buffer size is a positive integer, the instrument echoes the chosen decimation, and, for a total within the longest window, the stretch `total * rate / buf_size` is above 1/2, the reported window covers the requested total, or is the longest window when the total is beyond it |
| Scope.TimeTotalFallsShort | src/rpnacs/lib/scope.py:53-57 | with a positive buffer size and a positive total whose stretch is at most 1/2, `set_time_total` sends `ACQ:DEC 0` and, when the instrument echoes it, reports a window of 0 s, shorter than the total |
| Scope.TenMicrosecondsSendsZero | src/rpnacs/lib/scope.py:53-54 | a total of 10 microseconds with a 16384-sample buffer gives the decimation 0 |
| Scope.CoveringDecimation | src/rpnacs/lib/scope.py:47-54 | the decimation of `set_time_total` raised to at least 1; it fails exactly where the code's does |
| Scope.CoveringDecimationCovers | src/rpnacs/lib/scope.py:47-54 | for a positive buffer size and any total from 0 up to the longest window, the corrected decimation is a power of two whose window covers the total, and half of it (unless it is 1) does not |
| Scope.Scope.SetTimeTotal | src/rpnacs/lib/scope.py:44-57 | sends and returns what `TimeTotalExchange` defines |
| Scope.TimePoints | src/rpnacs/lib/scope.py:62-63 | one time point per sample, point i being i periods of the decimated clock; `ValueError` exactly for a negative count |
| Scope.TimePointsSpan | src/rpnacs/lib/scope.py:62-63 | the axis starts at 0, ends at `(buf_size - 1) / rate * dec` and is evenly spaced |
| Scope.Scope.GetTimePoints | src/rpnacs/lib/scope.py:59-64 | asks for the buffer size and then the decimation, and returns `TimePoints`; either reply failing `int()` ends it |
| Scope.SampleTokens | src/rpnacs/lib/scope.py:244 | the sample tokens of a reply: `strip('{}\n\r')`, `replace("  ", "")` and `split(',')`; `SampleTokensShape` states what they are |
| Scope.SampleTokensShape | src/rpnacs/lib/scope.py:244 | the cleaned reply keeps every comma and has no double space; there is one token per comma plus one, no token holds a comma, and they join back to the cleaned reply |
| Scope.SourceDataNames | src/rpnacs/lib/scope.py:84-85 | the channel reads ask for `ACQ:SOUR1:DATA?` and `ACQ:SOUR2:DATA?` |
| Scope.PollLoop | src/rpnacs/lib/scope.py:74-80 | the status poll of `acquire_trace`: how many status replies it reads and whether it saw `TD`; `PollLoopShape` and `PollStops` state what it does |
| Scope.PollLoopShape | src/rpnacs/lib/scope.py:74-80 | the poll fires exactly when a `TD` status comes within its budget, stops at the first `TD`, and otherwise uses every poll |
| Scope.PollStops | src/rpnacs/lib/scope.py:74-80 | the poll sends `ACQ:STOP` once when it sees `TD` and never otherwise |
| Scope.ReadoutNeverStops | src/rpnacs/lib/scope.py:82-85 | the readout starts with `ACQ:BUF:SIZE?` and never sends `ACQ:STOP` |
| Scope.AcquisitionStartsAndStops | src/rpnacs/lib/scope.py:66-87 | an acquisition sends `ACQ:START`, then the cached trigger; after that it sends `ACQ:STOP` once if a `TD` came within the budget, and never otherwise |
| Scope.TimePointsExchange | src/rpnacs/lib/scope.py:59-64 | the two queries and the time axis of `get_time_points`; `GetTimePoints` is tied to it and `TimePoints`/`TimePointsSpan` state the axis |
| Scope.ReadoutExchange | src/rpnacs/lib/scope.py:82-87 | the readout of `acquire_trace`: the time axis, then both channel reads; `ReadoutNeverStops` and `AcquisitionReadsBoth` state what it sends |
| Scope.AcquisitionExchange | src/rpnacs/lib/scope.py:66-87 | the whole of `acquire_trace`: start, trigger, poll, readout; `AcquisitionStartsAndStops` and `AcquisitionReadsBoth` state what it sends |
| Scope.AcquisitionReadsBoth | src/rpnacs/lib/scope.py:82-87 | when the size and decimation replies after the poll are integers and the size is non-negative, the acquisition ends with the buffer size, decimation and both channel reads, and its time axis has one point per sample |
| Scope.Scope.AwaitTrigger | src/rpnacs/lib/scope.py:74-80 | the poll loop sends and consumes what `PollLoop` defines |
| Scope.Scope.ReadOut | src/rpnacs/lib/scope.py:82-87 | the readout sends and returns what `ReadoutExchange` defines |
| Scope.Scope.AcquireTrace | src/rpnacs/lib/scope.py:66-87 | the whole acquisition sends, consumes and returns what `AcquisitionExchange` defines, starting from the cached trigger |
| Scope.Scope.StartAcq | src/rpnacs/lib/scope.py:91-93 | sends `ACQ:START` |
| Scope.Scope.StopAcq | src/rpnacs/lib/scope.py:95-97 | sends `ACQ:STOP` |
| Scope.Scope.ResetAcq | src/rpnacs/lib/scope.py:99-101 | sends `ACQ:RST` |
| Scope.Scope.GetDec | src/rpnacs/lib/scope.py:104-107 | sends `ACQ:DEC?` and returns `int()` of the reply |
| Scope.Scope.SetDec | src/rpnacs/lib/scope.py:109-113 | sends `ACQ:DEC <int(val)>` and nothing else |
| Scope.Scope.GetAvg | src/rpnacs/lib/scope.py:115-119 | sends `ACQ:AVG?` and returns the decoded reply |
| Scope.Scope.SetAvg | src/rpnacs/lib/scope.py:121-124 | sends `ACQ:AVG <val>` |
| Scope.Scope.GetTrigStatus | src/rpnacs/lib/scope.py:158-161 | sends `ACQ:TRIG:STAT?` and returns the decoded reply |
| Scope.Scope.GetTrigDelay | src/rpnacs/lib/scope.py:163-167 | sends `ACQ:TRIG:DLY?` and returns `int()` of the reply |
| Scope.Scope.SetTrigDelay | src/rpnacs/lib/scope.py:169-172 | sends `ACQ:TRIG:DLY <int(val)>` and nothing else |
| Scope.Scope.GetTrigDelayNs | src/rpnacs/lib/scope.py:174-178 | sends `ACQ:TRIG:DLY:NS?` and returns `int()` of the reply |
| Scope.Scope.SetTrigDelayNs | src/rpnacs/lib/scope.py:180-183 | sends `ACQ:TRIG:DLY:NS <int(val)>` |
| Scope.Scope.GetTrigHyst | src/rpnacs/lib/scope.py:185-189 | sends `ACQ:TRIG:HYST?` and returns the decoded reply |
| Scope.Scope.SetTrigHyst | src/rpnacs/lib/scope.py:191-194 | sends `ACQ:TRIG:HYST <val>` |
| Scope.Scope.GetTrigLev | src/rpnacs/lib/scope.py:196-200 | sends `ACQ:TRIG:LEV?` and returns the decoded reply |
| Scope.Scope.SetTrigLev | src/rpnacs/lib/scope.py:202-205 | sends `ACQ:TRIG:LEV <val>` |
| Scope.Scope.GetDataUnits | src/rpnacs/lib/scope.py:208-212 | sends `ACQ:DATA:UNITS?` and returns the decoded reply |
| Scope.Scope.SetDataUnits | src/rpnacs/lib/scope.py:214-217 | sends `ACQ:DATA:UNITS <val>` |
| Scope.Scope.SetDataFormat | src/rpnacs/lib/scope.py:219-222 | sends `ACQ:DATA:FORMAT <val>` |
| Scope.Scope.ReadSamplesStartEnd | src/rpnacs/lib/scope.py:224-230 | sends the start/end read and tokenises the raw reply, with no error-marker decoding |
| Scope.Scope.ReadSamplesFrom | src/rpnacs/lib/scope.py:232-238 | sends the start/count read and returns the flag with the tokens of the decoded reply |
| Scope.Scope.ReadAllSamples | src/rpnacs/lib/scope.py:240-246 | sends `ACQ:SOUR<n>:DATA?` and returns the flag with the tokens of the decoded reply |
| Scope.Scope.ReadSamplesFromTrig | src/rpnacs/lib/scope.py:248-254 | sends `ACQ:SOUR<n>:DATA:OLD:N? <count>` and returns the tokens |
| Scope.Scope.ReadSamplesBeforeTrig | src/rpnacs/lib/scope.py:256-262 | sends `ACQ:SOUR<n>:DATA:LAT:N? <count>` and returns the tokens |
| Scope.Scope.GetBufSize | src/rpnacs/lib/scope.py:264-268 | sends `ACQ:BUF:SIZE?` and returns `int()` of the reply |
| Scope.Scope.GetSourceGain | src/rpnacs/lib/scope.py:271-275 | sends `ACQ:SOUR<n>:GAIN?` and returns the decoded reply |
| Scope.Scope.SetSourceGain | src/rpnacs/lib/scope.py:277-280 | sends `ACQ:SOUR<n>:GAIN <val>` |
| DIOController.LedId | src/rpnacs/lib/DIOController.py:12 | the LED identifier `LED<num>`; `LedIdRoundTrip` and `IdsInjective` state what it names |
| DIOController.PinId | src/rpnacs/lib/DIOController.py:33 | the pin identifier `DIO<num>_<type>`; `PinIdRoundTrip`, `IdsInjective` and `CommaFreePinId` state what it names |
| DIOController.StateCommand | src/rpnacs/lib/DIOController.py:97 | the state command `DIG:PIN <id>,<state>`; `StateCommandRoundTrip` decodes it |
| DIOController.DirectionCommand | src/rpnacs/lib/DIOController.py:86 | the direction command `DIG:PIN:DIR <direction>,<id>`; `DirectionCommandRoundTrip` decodes it |
| DIOController.LedBatch | src/rpnacs/lib/DIOController.py:21-27 | the commands of `set_all_led`; `LedBatchDecodes` states them |
| DIOController.PinStateBatch | src/rpnacs/lib/DIOController.py:65-76 | the commands of `set_all_pin_states`; `PinStateBatchDecodes` states them |
| DIOController.PinDirectionBatch | src/rpnacs/lib/DIOController.py:42-52 | the commands of `set_all_pin_direction`; `PinDirectionBatchDecodes` states them |
| DIOController.LedIdRoundTrip | src/rpnacs/lib/DIOController.py:12 | an LED identifier `LED<num>` names exactly its number |
| DIOController.PinIdRoundTrip | src/rpnacs/lib/DIOController.py:33 | a pin identifier `DIO<num>_<type>` names exactly its number and pin type |
| DIOController.IdsInjective | src/rpnacs/lib/DIOController.py:12-56 | different LEDs, and different pins, have different identifiers (both directions) |
| DIOController.StateCommandRoundTrip | src/rpnacs/lib/DIOController.py:95-98 | a state command carries the identifier first and the integer state second |
| DIOController.DirectionCommandRoundTrip | src/rpnacs/lib/DIOController.py:84-87 | a direction command carries the direction first and the identifier second |
| DIOController.CommaFreePinId | src/rpnacs/lib/DIOController.py:33 | a pin identifier holds no comma unless its pin type does |
| DIOController.LedBatchDecodes | src/rpnacs/lib/DIOController.py:21-27 | nine states set `LED0` to `LED8` in order, state i going to `LED<i>`; any other count sends nothing |
| DIOController.PinStateBatchDecodes | src/rpnacs/lib/DIOController.py:65-76 | seven `P` states set pins 1 to 7, and eight `N` states set pins 0 to 7, value i going to pin first + i; anything else sends nothing |
| DIOController.PinDirectionBatchDecodes | src/rpnacs/lib/DIOController.py:42-52 | the same index mapping and all-or-nothing guard for directions |
| DIOController.DIOController.constructor | src/rpnacs/lib/DIOController.py:4-6 | keeps the transport and sends nothing |
| DIOController.DIOController.SetLed | src/rpnacs/lib/DIOController.py:9-14 | sends `DIG:PIN LED<num>,<state>` |
| DIOController.DIOController.GetLed | src/rpnacs/lib/DIOController.py:16-19 | always raises `NameError` (an undefined name is passed on) and sends nothing |
| DIOController.DIOController.SetAllLed | src/rpnacs/lib/DIOController.py:21-27 | sends exactly `LedBatch(states)`: nine LED commands, or nothing |
| DIOController.DIOController.SetPinDirection | src/rpnacs/lib/DIOController.py:29-35 | sends `DIG:PIN:DIR <direction>,DIO<num>_<type>` |
| DIOController.DIOController.GetPinDirection | src/rpnacs/lib/DIOController.py:37-40 | sends `DIG:PIN:DIR? DIO<num>_<type>` and returns the decoded reply |
| DIOController.DIOController.SetAllPinDirection | src/rpnacs/lib/DIOController.py:42-52 | sends exactly `PinDirectionBatch`, although the length check sits inside the loop |
| DIOController.DIOController.SetPinState | src/rpnacs/lib/DIOController.py:54-58 | sends `DIG:PIN DIO<num>_<type>,<state>` |
| DIOController.DIOController.GetPinState | src/rpnacs/lib/DIOController.py:60-63 | sends `DIG:PIN? DIO<num>_<type>` and returns `int()` of the reply |
| DIOController.DIOController.SetAllPinStates | src/rpnacs/lib/DIOController.py:65-76 | sends exactly `PinStateBatch`, with the length check outside the loop |
| DIOController.DIOController.Reset | src/rpnacs/lib/DIOController.py:79-82 | sends `DIG:RST` |
| DIOController.DIOController.SetDirection | src/rpnacs/lib/DIOController.py:84-87 | sends `DIG:PIN:DIR <direction>,<identifier>` |
| DIOController.DIOController.GetDirection | src/rpnacs/lib/DIOController.py:89-93 | sends `DIG:PIN:DIR? <identifier>` and returns the decoded reply |
| DIOController.DIOController.SetState | src/rpnacs/lib/DIOController.py:95-98 | sends `DIG:PIN <identifier>,<state>` |
| DIOController.DIOController.GetState | src/rpnacs/lib/DIOController.py:100-104 | sends `DIG:PIN? <identifier>` and returns `int()` of the reply, `ValueError` when it is not an integer |
| FuncGenerator.Setting | src/rpnacs/lib/FuncGenerator.py:76 | a channel setting `SOUR<n><keyword> <value>`; `SettingAnatomy` decodes it |
| FuncGenerator.OutputSettings | src/rpnacs/lib/FuncGenerator.py:11-19 | the five settings of `set_output`; `OutputSettingsAddressOneChannel` states them |
| FuncGenerator.EnableCommands | src/rpnacs/lib/FuncGenerator.py:21-31 | the commands of `enable_output`; `EnableShape` states them |
| FuncGenerator.DisableCommands | src/rpnacs/lib/FuncGenerator.py:33-41 | the commands of `disable_output`; `DisableShape` states them |
| FuncGenerator.StateCommand | src/rpnacs/lib/FuncGenerator.py:44-52 | the output state command for one channel or, for 0, all of them; `StateCommandChannel`, `StateCommandArgument` and `StateIsNoTrigger` state what it is |
| FuncGenerator.FreqCommand | src/rpnacs/lib/FuncGenerator.py:60-65 | the frequency command `SOUR<n>:FREQ:FIX <int(val)>`; `FreqCommandValue` states its argument |
| FuncGenerator.AwgDataCommand | src/rpnacs/lib/FuncGenerator.py:133-138 | the arbitrary-waveform data command; `AwgDataCommas` and `AwgDataHeader` state what it carries |
| FuncGenerator.TriggerCommand | src/rpnacs/lib/FuncGenerator.py:209-217 | the immediate trigger for one channel or, for 0, all of them; `TriggerCommandAnatomy` states what it is |
| FuncGenerator.ChannelRoundTrip | src/rpnacs/lib/FuncGenerator.py:51 | a command `<prefix><n>:...` addresses exactly channel n |
| FuncGenerator.NoChannel | src/rpnacs/lib/FuncGenerator.py:46 | a command `<prefix>:...` addresses no single channel |
| FuncGenerator.SettingAnatomy | src/rpnacs/lib/FuncGenerator.py:76 | a `SOUR<n><keyword> <value>` setting addresses channel n under the header `SOUR<n><keyword>` |
| FuncGenerator.OutputSettingsAddressOneChannel | src/rpnacs/lib/FuncGenerator.py:11-19 | the five settings of `set_output` all address the one channel, and come in the order waveform, frequency, amplitude, offset, phase |
| FuncGenerator.StateCommandChannel | src/rpnacs/lib/FuncGenerator.py:44-52 | a state command addresses channel `chn`, or every channel for 0 |
| FuncGenerator.StateCommandArgument | src/rpnacs/lib/FuncGenerator.py:44-52 | a state command carries its value as its only argument |
| FuncGenerator.TriggerCommandAnatomy | src/rpnacs/lib/FuncGenerator.py:209-217 | a trigger command is a trigger, addresses channel `chn` (every channel for 0) and has no arguments |
| FuncGenerator.StateIsNoTrigger | src/rpnacs/lib/FuncGenerator.py:44-52 | a state command whose value does not end in `T` is not a trigger |
| FuncGenerator.EnableShape | src/rpnacs/lib/FuncGenerator.py:21-31 | enabling sends `ON` and then a trigger, both for channel `chn` (every channel for 0) |
| FuncGenerator.DisableShape | src/rpnacs/lib/FuncGenerator.py:33-41 | disabling sends only `OFF` for channel `chn` (every channel for 0), and never a trigger |
| FuncGenerator.FreqCommandValue | src/rpnacs/lib/FuncGenerator.py:60-65 | the frequency command carries one integer argument, the frequency truncated toward zero (less than 1 Hz away) |
| FuncGenerator.AwgDataCommas | src/rpnacs/lib/FuncGenerator.py:133-138 | the data payload holds len(data) - 1 commas (none for no samples), and its arguments are the samples themselves |
| FuncGenerator.AwgDataHeader | src/rpnacs/lib/FuncGenerator.py:137 | the data command is the header `SOUR<n>:TRAC:DATA:DATA`, one space and the joined samples |
| FuncGenerator.FuncGenerator.constructor | src/rpnacs/lib/FuncGenerator.py:6-8 | keeps the transport and sends nothing |
| FuncGenerator.FuncGenerator.SetOutput | src/rpnacs/lib/FuncGenerator.py:11-19 | sends exactly `OutputSettings`: the five settings in order |
| FuncGenerator.FuncGenerator.EnableOutput | src/rpnacs/lib/FuncGenerator.py:21-31 | sends exactly `EnableCommands(chn)` |
| FuncGenerator.FuncGenerator.DisableOutput | src/rpnacs/lib/FuncGenerator.py:33-41 | sends exactly `DisableCommands(chn)` |
| FuncGenerator.FuncGenerator.SetAllStates | src/rpnacs/lib/FuncGenerator.py:44-47 | sends `OUTPUT:STATE <val>` |
| FuncGenerator.FuncGenerator.SetState | src/rpnacs/lib/FuncGenerator.py:49-52 | sends `OUTPUT<n>:STATE <val>` |
| FuncGenerator.FuncGenerator.GetState | src/rpnacs/lib/FuncGenerator.py:54-58 | sends `OUTPUT<n>:STATE?` and returns the decoded reply |
| FuncGenerator.FuncGenerator.SetFreq | src/rpnacs/lib/FuncGenerator.py:60-65 | sends `SOUR<n>:FREQ:FIX <int(val)>` |
| FuncGenerator.FuncGenerator.GetFreq | src/rpnacs/lib/FuncGenerator.py:67-71 | sends `SOUR<n>:FREQ:FIX?` and returns `int()` of the reply |
| FuncGenerator.FuncGenerator.SetWaveform | src/rpnacs/lib/FuncGenerator.py:73-77 | sends `SOUR<n>:FUNC <val>` |
| FuncGenerator.FuncGenerator.GetWaveform | src/rpnacs/lib/FuncGenerator.py:79-83 | sends `SOUR<n>:FUNC?` and returns the decoded reply |
| FuncGenerator.FuncGenerator.SetAmp | src/rpnacs/lib/FuncGenerator.py:85-89 | sends `SOUR<n>:VOLT <val>` |
| FuncGenerator.FuncGenerator.GetAmp | src/rpnacs/lib/FuncGenerator.py:91-95 | sends `SOUR<n>:VOLT?` and returns the decoded reply |
| FuncGenerator.FuncGenerator.SetOffset | src/rpnacs/lib/FuncGenerator.py:97-101 | sends `SOUR<n>:VOLT:OFFS <val>` |
| FuncGenerator.FuncGenerator.GetOffset | src/rpnacs/lib/FuncGenerator.py:103-107 | sends `SOUR<n>:VOLT:OFFS?` and returns the decoded reply |
| FuncGenerator.FuncGenerator.SetPhase | src/rpnacs/lib/FuncGenerator.py:109-113 | sends `SOUR<n>:PHAS <val>` |
| FuncGenerator.FuncGenerator.GetPhase | src/rpnacs/lib/FuncGenerator.py:115-119 | sends `SOUR<n>:PHAS?` and returns the decoded reply |
| FuncGenerator.FuncGenerator.SetDutyCycle | src/rpnacs/lib/FuncGenerator.py:121-125 | sends `SOUR<n>:DCYC <val>` |
| FuncGenerator.FuncGenerator.GetDutyCycle | src/rpnacs/lib/FuncGenerator.py:127-131 | sends `SOUR<n>:DCYC?` and returns the decoded reply |
| FuncGenerator.FuncGenerator.ImportAwgData | src/rpnacs/lib/FuncGenerator.py:133-138 | sends exactly `AwgDataCommand`: one command with the samples joined by commas |
| FuncGenerator.FuncGenerator.GetAwgData | src/rpnacs/lib/FuncGenerator.py:140-144 | sends `SOUR<n>:TRAC:DATA:DATA?` and returns the decoded reply |
| FuncGenerator.FuncGenerator.SetGenMode | src/rpnacs/lib/FuncGenerator.py:146-150 | sends `SOUR<n>:BURS:STAT <val>` |
| FuncGenerator.FuncGenerator.GetGenMode | src/rpnacs/lib/FuncGenerator.py:152-156 | sends `SOUR<n>:BURS:STAT?` and returns the decoded reply |
| FuncGenerator.FuncGenerator.SetBurstCycleNum | src/rpnacs/lib/FuncGenerator.py:158-162 | always raises `TypeError` (a string plus an int) and sends nothing |
| FuncGenerator.FuncGenerator.GetBurstCycleNum | src/rpnacs/lib/FuncGenerator.py:164-168 | sends `SOUR<n>:BURS:NCYC?` and returns `int()` of the reply |
| FuncGenerator.FuncGenerator.SetBurstRepeats | src/rpnacs/lib/FuncGenerator.py:170-175 | always raises `TypeError` and sends nothing |
| FuncGenerator.FuncGenerator.GetBurstRepeats | src/rpnacs/lib/FuncGenerator.py:177-181 | sends `SOUR<n>:BURS:NOR?` and returns `int()` of the reply |
| FuncGenerator.FuncGenerator.SetBurstInt | src/rpnacs/lib/FuncGenerator.py:183-187 | always raises `TypeError` and sends nothing |
| FuncGenerator.FuncGenerator.GetBurstInt | src/rpnacs/lib/FuncGenerator.py:189-193 | sends `SOUR<n>:BURS:INT:PER?` and returns `int()` of the reply |
| FuncGenerator.FuncGenerator.SetTrigSource | src/rpnacs/lib/FuncGenerator.py:195-201 | sends `SOUR<n>:TRIG:SOUR <val>` |
| FuncGenerator.FuncGenerator.GetTrigSource | src/rpnacs/lib/FuncGenerator.py:203-207 | sends `SOUR<n>:TRIG:SOUR?` and returns the decoded reply |
| FuncGenerator.FuncGenerator.TriggerAllNow | src/rpnacs/lib/FuncGenerator.py:209-212 | sends `SOUR:TRIG:INT` |
| FuncGenerator.FuncGenerator.TriggerChnNow | src/rpnacs/lib/FuncGenerator.py:214-217 | sends `SOUR<n>:TRIG:INT` |
| FuncGenerator.FuncGenerator.Reset | src/rpnacs/lib/FuncGenerator.py:219-222 | sends `GEN:RST` |
| FuncGenerator.FuncGenerator.AlignPhases | src/rpnacs/lib/FuncGenerator.py:224-227 | sends `PHAS:ALIGN` |

## Left out

- The socket transport (`redpitaya_scpi`) is not part of this model. `Link` stands in for it. Its reply stream never runs out and never fails, and sending never fails.
- `utils.rm_err` is not part of this model. Each reply carries an arbitrary `(err_flag, val)` pair, and the model states nothing about how that pair relates to the reply's text.
- Wall-clock time in `acquire_trace` (`time.time`, `time.sleep`, `timeout`, `holdoff`) becomes a fuel bound: the number of status polls that fit in the timeout.
- Floating point is modelled with exact reals. Rounding in `np.log2`, `2**x`, the divisions and `np.linspace` is not captured, nor are infinities and NaN beyond the negative-logarithm case of `set_time_total`.
- Scope.Scope.SetTimeRes: the decimation comes from the integer part of `res * rate`, which gives the same floor of the base-2 logarithm as the real value. Float rounding at exact powers of two is not modelled.
- `str(float)` formatting of levels, amplitudes, offsets, phases, duty cycles and samples is not modelled. These arguments are taken as already formatted text.
- Scope.Scope.GetTrigHyst: returns the reply's text instead of `float(val)`, because `float()` is not modelled.
- Scope.Scope.GetTrigLev: returns the reply's text instead of `float(val)`.
- Scope.Scope.ReadSamplesStartEnd: returns the sample tokens instead of `list(map(float, ...))`. So do `ReadSamplesFrom`, `ReadAllSamples`, `ReadSamplesFromTrig` and `ReadSamplesBeforeTrig`. The `ValueError` that `float()` raises on a malformed token is not modelled. In `acquire_trace` this also changes what is sent: a malformed channel-1 token raises at `scope.py:84`, so `ACQ:SOUR2:DATA?` never goes out, while the model always sends both channel reads.
- FuncGenerator.FuncGenerator.GetAmp: returns the reply's text instead of `float(val)`. `GetOffset` and `GetDutyCycle` do the same.
- Arguments that the source passes through `int()` (source numbers, channels, pin numbers, LED numbers, states, sample positions) are taken as integers. `int()` of a non-integer float or string argument is not modelled.
- `int(float)` of an infinite or NaN frequency, delay or decimation, which raises in Python, is not modelled.
- The default arguments (`pin_type='P'`, `delay=0`, `offset=0`, `phase=0`) are not modelled as defaults. Callers pass every argument.
- The GUI, plotting, worker-thread and hardware scripts under `test/` are not part of this model, and neither are the mutexes and queues they use.
- Text.ParseInt: Python's `int()` is modelled for ASCII digits with an optional sign, surrounded by the whitespace `int()` strips (the six C-locale spaces and the non-ASCII characters `str.isspace` accepts). Underscores between digits and non-ASCII digits (such as Arabic-Indic digits), which Python also accepts, are not.
- Scope.Scope.SetTimeTotal: models the code as written, so it sends `ACQ:DEC 0` for a short total (see Findings). The corrected `CoveringDecimation` is proved to cover every total but is not what the method sends.

## Findings

| source | as written | input that shows it | evidently intended | confidence | as-written member | corrected member |
|---|---|---|---|---|---|---|
| src/rpnacs/lib/scope.py:53-54 | `2**(np.ceil(np.log2(total * rate / buf_size)))` is 0.5 or less when the stretch is at most 1/2, and `int()` turns it into 0, so `ACQ:DEC 0` is sent and the reported window is 0 s | `set_time_total(0.00001)` with a 16384-sample buffer (stretch 1250/16384) | a decimation of at least 1, whose window covers every total up to the longest | not executed | Scope.TimeTotalFallsShort | Scope.CoveringDecimationCovers |
