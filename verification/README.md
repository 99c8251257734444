# K8 RGB IR remote: command dispatch and pattern engine

A Dafny model of the core of the K8 RGB IR remote firmware (ESP32). A browser
sends `/action?do=<name>`. The firmware sets three local indicator pins (R, G,
B) and sends one 32-bit NEC infrared code. The codes belong to two remotes: the
K8 remote (address `0x00FF`) and the second, "Chinese" remote (address
`0x00F7`). Six `extra_*` actions arm a two-colour pattern and send its first
colour. The main
loop polls that pattern and sends its next colour each time `color_pair_delay`
milliseconds have passed. `/set_speed?speed=<ms>` changes that delay.

The model is functional. `Device.State` holds the indicator levels, the
integers `currentPattern` and `patternState`, the time of the last firing and
the delay. Each handler and each poll is a pure step function. A step returns
the new state and the NEC frames it sent, in order. Handlers also return the
HTTP status and body.

Modules:

- `Uint32`: the target's 32-bit `unsigned long`, with the wrap-around written out.
  `millis()` timestamps and the delay use it. The elapsed-time test is unsigned
  subtraction modulo 2^32, as in the firmware.
- `Nec`: the NEC frame layout. The layout is two address bytes, a command byte,
  then the complement of the command byte.
- `Indicator`: the pins and single-pin writes. Last write wins.
- `Commands`: the thirty one-shot commands. Each has a code, the pin writes it
  performs, and a reference `EffectOf` (keep the indicator, or show a fixed
  mask).
- `Patterns`: the six colour pairs, and the integer ids 1 to 6 the firmware
  stores for them.
- `Device`: running a command, arming a pattern, and one poll (`Tick`), plus the
  reachable-state invariants.
- `Actions`: the `/action` handler. It tries its name comparisons in the
  firmware's order.
- `Speed`: the `/set_speed` handler and Arduino's `String::toInt`.
- `ContentTypes`: the suffix-to-MIME table of `getContentType`. The firmware
  defines it but no handler calls it; the static handlers send fixed types.
- `Firmware`: runs of atomic steps, and two timelines of the pattern engine.

The model follows the code as written in these places:

- **Arming repeats the first colour.** `extra_*` sends the pair's first colour
  but leaves `patternState` at 0. The first firing poll therefore sends that
  colour again. Arming red/blue and polling at 0, 1, 2 and 3 delays sends red,
  red, blue, red, not red, blue, red, blue (`Firmware.PatternTimeline`,
  `Firmware.GreenWhiteSession`). So the colours do not strictly alternate
  after arming.
- **The disarm fallback.** A firing poll with an unknown pattern id disarms
  without sending. In the sequential model, where every step is atomic, no
  reachable state takes that branch (`Device.TickPreserves`,
  `Firmware.ReachableFromBoot`). On the device it can be taken: an `/action`
  request that writes 0 to `currentPattern` between the test at
  `src/main.cpp:140` and the `switch` at `src/main.cpp:146` sends the poll into
  `default`. The branch is modelled as written.
- **Two 400 replies.** `/action` without a `do` parameter gets 400 "Missing 'do'
  parameter"; an unknown name gets 400 "Invalid action".
- **`ChineseOFF` keeps the indicator.** It sends its code but does not clear the
  indicator, unlike `Off`. `White` sets all three pins without clearing first;
  the result is still exactly white.
- **No locking.** The firmware has no lock between the web task and the main
  loop. The model treats each handler call and each poll as one atomic step and
  claims no mutual exclusion.
- **Ten K8 effect commands.** fade, strobeplus, rgbstrobe, rainbow, halfstrobe,
  bgstrobe, grstrobe, next, demo and previous send their code and leave the
  indicator as it was.

## Model

| member | source | states |
|---|---|---|
| Indicator.Write | src/main.cpp:212-214 | one digital write drives its own pin to the written level and leaves the other two pins as they were |
| Indicator.LastWriteWins | src/main.cpp:216-261 | after a sequence of pin writes, each pin shows the level of its last write, or its earlier level if nothing wrote it |
| Indicator.CoveringWritesForget | src/main.cpp:255-260 | writes that touch all three pins leave the same levels whatever the indicator showed before |
| Indicator.Clear | src/main.cpp:210-215 | Clear leaves all three pins low, from any indicator state |
| Indicator.ClearIdempotent | src/main.cpp:210-215 | clearing twice is the same as clearing once |
| Commands.ShowMatchesEffect | src/main.cpp:216-365 | every colour command leaves exactly its RGB mask from any prior state (White included, though it skips Clear); Off leaves all pins low; effect commands and the non-colour second-remote commands, ChineseOFF included, leave the indicator unchanged |
| Commands.IndicatorAfter | src/main.cpp:216-365 | the indicator after any command is its mask when it shows one, and the prior indicator otherwise |
| Commands.CodeIsNecFrame | src/main.cpp:220-364 | every code's lowest byte is the bitwise complement of its command byte; its address is its remote's (0x00FF for K8, 0x00F7 for the second remote); K8 codes also carry the complemented address byte; a NEC receiver decodes every code to its remote's address and its command byte |
| Commands.CodesDistinct | src/main.cpp:220-364 | no two of the thirty commands send the same code, so codes are distinct within each remote and across remotes |
| Patterns.Id | src/main.cpp:367-408 | arming stores an id from 1 to 6 |
| Patterns.FromId | src/main.cpp:146-204 | exactly the ids 1 to 6 name a pattern, and the named pattern has that id |
| Patterns.FromIdOfId | src/main.cpp:22 | storing a pattern's id and reading it back gives the same pattern |
| Patterns.First | src/main.cpp:146-200 | a pattern's first colour is a second-remote colour command |
| Patterns.Second | src/main.cpp:146-200 | a pattern's second colour is a second-remote colour command that differs from its first and shows a different mask |
| Device.Execute | src/main.cpp:216-365 | a command sends exactly one frame (its 32-bit code, NEC MSB-first, no repeat) and changes only the indicator, as its effect says |
| Device.Arm | src/main.cpp:367-408 | arming stores the pattern's id, sets patternState to 0 and lastPatternTime to now, keeps the delay, and sends and shows the first colour |
| Device.Tick | src/main.cpp:139-207 | a poll with no pattern armed, or before the interval has passed, changes nothing and sends nothing. A firing poll sets lastPatternTime to now and sends at most one frame. For ids 1 to 6 it sends the first colour when patternState is 0 and the second otherwise, flips patternState and keeps the pattern. Any other id disarms (pattern and phase reset to 0) without sending |
| Device.DueIsWrapSafe | src/main.cpp:142-143 | the unsigned elapsed-time test fires exactly when the true elapsed time reaches the delay, even across the 32-bit millis() wrap |
| Device.ArmThenTickRepeatsFirst | src/main.cpp:367-373 | the first firing poll after arming sends the same first-colour frame that arming sent, and only then moves to the second colour |
| Device.BootIsValid | src/main.cpp:19-24 | the start-up state satisfies the reachable-state invariants |
| Device.ArmPreserves | src/main.cpp:367-408 | arming keeps the invariants: id in 0..6, phase 0 or 1, delay in [100, 5000], and an armed indicator showing one of its pattern's colours |
| Device.TickPreserves | src/main.cpp:139-207 | a poll keeps the invariants, and from a valid state every firing poll sends exactly one colour, so in the sequential model the disarm fallback is never taken |
| Actions.LookupK8 | src/tasks.cpp:123-140 | the first eighteen comparisons find only K8 commands, by their own names, and never match a name containing an underscore |
| Actions.LookupChinese | src/tasks.cpp:141-152 | the next twelve comparisons find only second-remote commands, by their own names |
| Actions.LookupExtra | src/tasks.cpp:153-158 | the last six comparisons find only patterns, by their own names |
| Actions.Lookup | src/tasks.cpp:123-162 | whatever the comparison chain finds carries the requested name |
| Actions.LookupName | src/tasks.cpp:123-158 | each of the 36 actions is found by its own name; no earlier comparison shadows a later one |
| Actions.UnknownNames | src/tasks.cpp:159-162 | a name is rejected exactly when no action carries it |
| Actions.HandleAction | src/tasks.cpp:113-164 | a missing do parameter or an unknown name gets 400, sends nothing and changes nothing. A one-shot name disarms (pattern and phase 0), then sends its one code and applies its indicator effect; time and delay are kept. An extra_* name arms its pattern. Status is 200 exactly when the name is recognised. The replies are 200 "OK", 400 "Missing 'do' parameter" and 400 "Invalid action" |
| Actions.OffTwice | src/tasks.cpp:130 | requesting off twice leaves the indicator dark and the pattern disarmed both times |
| Actions.HandleActionPreserves | src/tasks.cpp:113-164 | an /action request keeps the reachable-state invariants |
| Speed.SkipSpaces | src/tasks.cpp:174 | toInt skips only leading white space and stops at the first other character |
| Speed.LeadingDigits | src/tasks.cpp:174 | toInt reads the longest run of decimal digits at the front, and nothing after it |
| Speed.ToInt | src/tasks.cpp:174 | String::toInt always returns a value in the 32-bit long range |
| Speed.HandleSetSpeed | src/tasks.cpp:166-185 | the delay becomes the parsed value exactly when the parameter is present and non-empty and the value is in [100, 5000]; otherwise the reply is 400 and the delay is unchanged. No frame is sent and the indicator, pattern, phase and lastPatternTime never change. The replies are 200 "OK", 400 "Missing 'speed' parameter", 400 "Missing speed parameter" for empty text, and 400 "Speed must be between 100 and 5000ms" |
| Speed.HandleSetSpeedPreserves | src/tasks.cpp:166-185 | a /set_speed request keeps the reachable-state invariants |
| Speed.DecimalValueOfDecimal | src/tasks.cpp:174 | the value of a number's decimal text is the number |
| Speed.LeadingDigitsOfDigits | src/tasks.cpp:174 | a run of digits is read in full |
| Speed.ToIntOfDigits | src/tasks.cpp:174 | toInt of a run of digits is its decimal value, saturated to long |
| Speed.ToIntUnspaced | src/tasks.cpp:174 | text not starting with white space is read from its first character |
| Speed.ToIntOfNegatedDigits | src/tasks.cpp:174 | toInt of a minus sign and digits is the negated value, saturated to long |
| Speed.ToIntOfDecimal | src/tasks.cpp:174 | toInt reads a number's decimal text back as the number, saturated |
| Speed.SetSpeedOfDecimal | src/tasks.cpp:172-181 | the decimal text of n is accepted exactly when 100 <= n <= 5000 (both bounds inclusive), and the delay then becomes n |
| Speed.SetSpeedRefusesNegative | src/tasks.cpp:174-181 | a minus sign followed by digits is always refused with the range message, and the state is kept |
| ContentTypes.FirstMatch | src/tasks.cpp:37-52 | for getContentType (ContentTypes.ContentType, which applies FirstMatch to the table) the result is the type of the first suffix in table order that the name ends with, or text/plain when none matches |
| ContentTypes.MimeTableSuffixes | src/tasks.cpp:38-50 | every listed suffix is a dot followed by non-dot characters, each occurs once, and no listed type is text/plain |
| ContentTypes.DottedSuffixesAgree | src/tasks.cpp:38-50 | a name that ends with two dot-led suffixes ends with the same suffix twice |
| ContentTypes.SuffixDecides | src/tasks.cpp:37-52 | any name ending with a listed suffix gets that suffix's type; no entry hides a later one |
| ContentTypes.FallbackIffNoMatch | src/tasks.cpp:51 | a name gets text/plain exactly when it ends with no listed suffix |
| ContentTypes.GzipAndScript | src/tasks.cpp:41-49 | any name ending .gz is application/x-gzip and any name ending .js is application/javascript |
| Firmware.Handle | src/tasks.cpp:113-185 | one step (a poll of the main loop at src/main.cpp:121-136, an /action request or a /set_speed request) sends at most one frame; a speed request sends none and keeps the indicator |
| Firmware.Run | src/tasks.cpp:113-185 | a run of steps (polls of the main loop at src/main.cpp:121-136, /action and /set_speed requests) never sends more frames than it has steps, however much time passes between polls |
| Firmware.HandlePreserves | src/tasks.cpp:113-185 | every kind of step (a poll of src/main.cpp:139-207, an /action or a /set_speed request) keeps the reachable-state invariants |
| Firmware.RunPreserves | src/tasks.cpp:113-185 | a run of steps (polls of src/main.cpp:139-207, /action and /set_speed requests) keeps the invariants from any valid state |
| Firmware.ReachableFromBoot | src/main.cpp:19-24 | every state reachable from start-up satisfies the invariants |
| Firmware.PatternTimeline | src/main.cpp:139-207 | arming at t0, then polling at t0, t0+d, t0+2d and t0+3d, sends first, first, second, first, and the pattern stays armed |
| Firmware.GreenWhiteSession | src/main.cpp:395-401 | from start-up with a 500 ms delay: arm green/white at 0, poll at 500 and 1000, off at 1200, poll at 1700. The indicator shows green, green, white, then dark; the pattern is disarmed and the last poll sends nothing |

## Left out

- Wi-Fi access-point bring-up, the Wi-Fi event logger, the DNS captive-portal service and the captive redirects: network plumbing in libraries not shown.
- LittleFS helpers (`initLittleFS`, `readFile`, `writeFile`) and the static file handlers (`handleRoot`, `handleStyle`, `handleScript`): filesystem I/O. They send fixed content types and do not call `getContentType`, which is modelled on its own.
- ElegantOTA callbacks, the web-server route registration and service loop of `elegantOTATask`, and the `/info` JSON endpoint: OTA and server plumbing.
- Serial logging and the 30-second status print in `loop()`: output with no effect on state. The 10 ms `delay(10)` in `loop()` only spaces out polls; the model lets any time pass between steps.
- Physical pin output and IR bit timing: the indicator is modelled as three booleans and each IR send as one logged frame (code, bit count, repeat flag).
- Concurrency between the web task and `loop()`: each handler call and each poll is one atomic step. Interleavings inside a step are not modelled, so neither is the interleaving that drives a poll into the disarm fallback (an `/action` one-shot landing between `src/main.cpp:140` and `src/main.cpp:146`).
- URL decoding of request parameters, and strings with embedded NUL characters: names and speed texts are plain character sequences, compared in full.
- Speed.ToInt: assumes `String::toInt` behaves like C `atol` with saturation on overflow (newlib's `strtol`), with white space as in the C locale. The C library is not part of this model.
- Response headers: the `text/plain` content type of the handlers' replies is not modelled; status and body are.
- Firmware.Handle: its contract states only the one-frame bound. What each step does is stated on Device.Tick, Actions.HandleAction and Speed.HandleSetSpeed.
- The web page's script: browser-side UI, not device behaviour.
