# RgbLed — a verified model of the RGB LED driver

This project models `RgbLed`, the Meadow.Foundation driver for an RGB LED wired to
three digital output ports. The driver keeps a stored colour (`Color`), a wiring
polarity (`Common`: common cathode or common anode), an on flag (`isOn`) and a
cancellation token source that stops the blink animation. It writes the three ports
from a fixed colour table.

Everything is in `rgb_led.dfy`, module `RgbLeds`:

- `Colors`, `CommonType`, `Levels` (the three port levels) and `Channel` are the data.
  `Channels` is an independent reference table that defines each colour by additive
  mixing of light.
- `Pattern(color, common)` is the switch of `SetColor`. The lit level is high under
  common cathode and low under common anode.
- `LedState` is a snapshot of a driver. `AfterSetColor`, `AfterSetIsOn`, `AfterStop` and
  `AfterStartBlink` say what each operation does to it. The lemmas state the driver's
  properties on these functions.
- Class `RgbLed` has the ports as three `bool` fields and the token source as the flag
  `cancelRequested`. Its constructor, `SetColor`, `SetIsOn` (the `IsOn` setter), `Stop`
  and `StartBlink` update the fields in place. The `ensures` of `Stop`, `SetColor`,
  `SetIsOn` and `StartBlink` ties the new state to the matching `After…` function of
  the old state; the constructor's ties it to `Initial`, and `BlinkLoop`'s ties its
  calls to `BlinkTrace` and its final state to `AfterSetColor`. The `IsOn` getter is the
  field `isOn`.
- `BlinkLoop` is the loop of `StartBlinkAsync` as a trace without delays.
  `observed[i]` is the cancellation flag read at the top of round `i`. The source loop is
  `while (true)` and ends only when it reads a set flag, or when a `Task.Delay` call
  throws; `observed` is a finite prefix of
  the flags it reads, so a model run with no set flag in `observed` describes the first
  `|observed|` rounds of a loop that goes on. `FirstCancel`, `Rounds` and `BlinkTrace`
  specify the calls the loop makes.

The model follows the code where the code and its documentation disagree. The doc
comment of `SetColor` says it sets the LED's colour. But line 122 overwrites the
argument with the stored `Color` before the switch. Within `RgbLed.cs`, `Color` is
assigned only in the constructor, where it becomes White. So for the code in that file
every `SetColor` call writes the White row, including `SetColor(Colors.Black)` in the
`IsOn` setter and in `StartBlink`. The intended table is proved on `Pattern`. See "## Findings".

## Model

| member | source | states |
|---|---|---|
| RgbLeds.Pattern | Source/Meadow.Foundation.Core/Leds/RgbLed.cs:124-168 | a port is at the lit level (high for common cathode, low for common anode) exactly when its channel is part of the colour by additive mixing |
| RgbLeds.CathodeTruthTable | Source/Meadow.Foundation.Core/Leds/RgbLed.cs:126-167 | under common cathode the eight colours give (R,G,B) = Red TFF, Green FTF, Blue FFT, Yellow TTF, Magenta TFT, Cyan FTT, White TTT, Black FFF |
| RgbLeds.AnodeInvertsCathode | Source/Meadow.Foundation.Core/Leds/RgbLed.cs:124-167 | under common anode every port level is the negation of the common-cathode level for the same colour |
| RgbLeds.PatternInjective | Source/Meadow.Foundation.Core/Leds/RgbLed.cs:126-167 | under one polarity two colours give the same port levels only if they are the same colour |
| RgbLeds.OperationsKeepColorInvariant | Source/Meadow.Foundation.Core/Leds/RgbLed.cs:20-182 | `SetColor`, the `IsOn` setter, `Stop` and `StartBlink` all keep the stored colour White, so, for the code in `RgbLed.cs`, `Color == White` holds in every reachable state |
| RgbLeds.SetColorWritesStoredColor | Source/Meadow.Foundation.Core/Leds/RgbLed.cs:120-169 | in a reachable state `SetColor(c)` writes the White row whatever `c` is, and changes only the three ports |
| RgbLeds.TurnOffStaysLit | Source/Meadow.Foundation.Core/Leds/RgbLed.cs:48-61 | setting `IsOn = false` clears the flag, requests cancellation and leaves the ports on the White row, which is not the Black row |
| RgbLeds.TurnOnShowsStoredColor | Source/Meadow.Foundation.Core/Leds/RgbLed.cs:48-61 | setting `IsOn = true` sets the flag, shows the stored colour and leaves cancellation alone; off then on ends in the stored colour's row |
| RgbLeds.StopIdempotent | Source/Meadow.Foundation.Core/Leds/RgbLed.cs:111-114 | `Stop` sets the cancellation flag, changes nothing else, and a second `Stop` changes nothing |
| RgbLeds.StartBlinkCancelsPrevious | Source/Meadow.Foundation.Core/Leds/RgbLed.cs:177-182 | after the synchronous part of `StartBlink` cancellation is requested whatever it was before, and the ports hold what `SetColor(Black)` writes; `isOn` is unchanged |
| RgbLeds.Initial | Source/Meadow.Foundation.Core/Leds/RgbLed.cs:92-106 | the state right after construction: the given port levels, the stored colour White, the given polarity, `isOn` false and no cancellation requested |
| RgbLeds.AfterSetColor | Source/Meadow.Foundation.Core/Leds/RgbLed.cs:120-169 | the state after `SetColor(c)`: the ports take the stored colour's row under the polarity, `c` is not read, and nothing else changes |
| RgbLeds.AfterSetIsOn | Source/Meadow.Foundation.Core/Leds/RgbLed.cs:48-61 | the state after `IsOn = v`: `isOn` is `v`; for true the stored colour is written, for false cancellation is requested and then `SetColor(Black)` is applied |
| RgbLeds.AfterStop | Source/Meadow.Foundation.Core/Leds/RgbLed.cs:111-114 | the state after `Stop`: cancellation requested, nothing else changed |
| RgbLeds.AfterStartBlink | Source/Meadow.Foundation.Core/Leds/RgbLed.cs:177-182 | the state after the synchronous part of `StartBlink`: cancellation requested if it was not, then `SetColor(Black)` applied |
| RgbLeds.BlinkTrace | Source/Meadow.Foundation.Core/Leds/RgbLed.cs:193-202 | the `SetColor` arguments of the loop: `FirstCancel(observed)` rounds of the blink colour then Black |
| RgbLeds.FirstCancel | Source/Meadow.Foundation.Core/Leds/RgbLed.cs:193-197 | the loop runs exactly the rounds before the first round whose flag is set: every earlier flag is clear, and the one at the stopping round is set |
| RgbLeds.Rounds | Source/Meadow.Foundation.Core/Leds/RgbLed.cs:193-202 | `n` uncancelled rounds make exactly `2n` `SetColor` calls, alternating the blink colour and Black |
| RgbLeds.BlinkStopsAtCancel | Source/Meadow.Foundation.Core/Leds/RgbLed.cs:193-202 | when the flag is first set at round `j`, the loop has made exactly `2j` calls and the flags after round `j` do not matter |
| RgbLeds.BlinkIgnoresLaterFlags | Source/Meadow.Foundation.Core/Leds/RgbLed.cs:193-197 | once the loop has read a set flag, no later flag adds a call to the trace |
| RgbLeds.FirstCancelOfPrefix | Source/Meadow.Foundation.Core/Leds/RgbLed.cs:193-197 | the round count depends only on the flags up to the first set one |
| RgbLeds.RgbLed.constructor | Source/Meadow.Foundation.Core/Leds/RgbLed.cs:92-106 | after construction the ports are the given ones, the polarity is the given one (common cathode by default), the colour is White, cancellation is not requested and `isOn` is false; the colour invariant holds |
| RgbLeds.RgbLed.Stop | Source/Meadow.Foundation.Core/Leds/RgbLed.cs:111-114 | the new state is the old one with cancellation requested |
| RgbLeds.RgbLed.SetColor | Source/Meadow.Foundation.Core/Leds/RgbLed.cs:120-169 | the ports become the table row of the stored colour under the polarity, for any stored colour; colour, polarity, `isOn` and the cancellation flag are unchanged; from a valid state (colour White) the ports get the White row and the state stays valid |
| RgbLeds.RgbLed.SetIsOn | Source/Meadow.Foundation.Core/Leds/RgbLed.cs:48-61 | `isOn` becomes the value; on true the stored colour is written, on false cancellation is requested and `SetColor(Black)` runs |
| RgbLeds.RgbLed.StartBlink | Source/Meadow.Foundation.Core/Leds/RgbLed.cs:177-182 | cancellation is requested if it was not, then `SetColor(Black)` runs |
| RgbLeds.RgbLed.BlinkLoop | Source/Meadow.Foundation.Core/Leds/RgbLed.cs:191-203 | the `SetColor` calls are the blink colour then Black, once per round until the first set flag; every port write is the White row; the ports change only if a round ran |
| RgbLeds.TurnOffAfterConstruction | Source/Meadow.Foundation.Core/Leds/RgbLed.cs:48-61 | a common-cathode driver over dark ports that is switched off ends with all three ports high, not low |

## Left out

- The device and pin constructor (`RgbLed.cs:73-83`). It only obtains the ports from `IIODevice.CreateDigitalOutputPort`, which is not part of this model.
- Port objects. Each port is a `bool` field of the driver. Two channels that share one port object, and writes to a port from outside the driver, are not captured.
- Values of `Colors` beyond the eight the switch names. The enum's declaration is not part of this model.
- `Task` creation and start, `async`/`await` and `Task.Delay` (`RgbLed.cs:184-189`, `199`, `201`). These are concurrency and timing. The durations are accepted by `StartBlink` and not used. The cast of a `uint` duration to `int` at lines 199 and 201 is not modelled. A duration of 2^31 or more wraps to a negative `int`, on which `Task.Delay` waits forever (-1) or throws (any other negative value). With `onDuration` that large the first round makes one call, `color`; with only `offDuration` that large it makes both calls, `color` then Black. Either way the loop then hangs or ends, so the trace stops after that first round whatever `observed` holds, unlike `BlinkTrace` and `Rounds`.
- The new cancellation token source that the animation task installs (`RgbLed.cs:186`). It races with foreground calls. `BlinkLoop` takes the flags it reads as the input `observed` instead. Interleavings of foreground writes with the loop are not modelled.
- RgbLeds.RgbLed.StartBlink: does not start `BlinkLoop`. After it returns the model's flag stays set, because the token replacement of line 186 is left out.
- Subclasses of `RgbLed` and other parts of the `partial` class (`RgbLed.cs:12`), which can assign any colour through the `protected` setter of `Color` (`RgbLed.cs:20`). The invariant `Color == White` holds for the code in `RgbLed.cs` only; `RgbLed.SetColor` itself is stated for any stored colour.
- The GPS FeatherWing class (`GPSWing.cs`). Its only code is a constructor that passes its arguments to `Mt3339`, which is not part of this model.

## Findings

| source | as written | input that shows it | evidently intended | confidence | as-written member | corrected member |
|---|---|---|---|---|---|---|
| Source/Meadow.Foundation.Core/Leds/RgbLed.cs:122 | `SetColor` replaces its argument with the stored `Color`, which the code in `RgbLed.cs` only ever sets to White, so it always writes the White row | a common-cathode driver over dark ports, then `IsOn = false`: all three ports end high (White) instead of low (Black); the blink loop likewise writes White in its off phase | `SetColor(c)` writes the row of `c`, so switching off and the blink's off phase drive the Black row | not executed | RgbLeds.TurnOffStaysLit | RgbLeds.Pattern |
