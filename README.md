# HC-SR04 echo timing, modelled in Dafny

This project models the Node.js driver of an HC-SR04 ultrasonic range finder
on a Raspberry Pi (`Firmware/nodejsDriver/driver.js`). Once per second the
driver asks the GPIO library for a 10 µs trigger pulse. The sensor then
raises its echo pin for as long as the sound takes to travel out and back.
The driver's `alert` callback sees each change of the echo pin with a
microsecond tick:

- a change to level 1 stores the tick in `pulseStart`;
- a change to any other level stores the tick in `pulseEnd`,
  computes `diff = pulseEnd - pulseStart`,
  and converts it to `resCm = diff / 58` and `resInch = diff / 148`.

The five variables are module-level `let`s without an initialiser. A falling
edge before any rising edge therefore subtracts `undefined`, and the result
is `NaN`, not a number.

Files:

- `values.dfy` (module `Values`): `Option` for the timestamps. `JsNum`
  holds `diff` and the distances, which are `Undefined` (never assigned),
  `NaN` (computed from an unset start) or `Num(x)`. `Minus` is JavaScript
  subtraction on those values.
- `conversion.dfy` (module `Conversion`): `Cm` and `Inch` over exact `real`
  division, and their lifting to `JsNum`.
- `echo.dfy` (module `EchoTimer`): the callback as a pure transition `Step`
  on the five variables, `Run` for a sequence of callbacks, and the
  invariant `Consistent`. It also gives reference definitions that read an
  event sequence backwards from its last event (`StartAfter`, `EndAfter`,
  `DiffAfter`), and the lemmas.
- `driver.dfy` (module `Driver`): class `EchoDriver`, whose fields are the
  five variables. `OnAlert` assigns them as the callback does and is proved
  equal to `Step`. `Tick` returns the trigger request and changes nothing.
  The client method `OnePulse` checks, from the contracts of `Tick` and
  `OnAlert` alone, that one tick followed by a 58 µs echo reads 1 cm.

The code has no range check, no timeout, no guard against overlapping
measurements and no handling of a stuck-high echo. A second rising edge
simply overwrites `pulseStart`. A falling edge never clears it, so two
falling edges both measure from the same start. The model follows the code
and proves these behaviours as they are.

## Model

| member | source | states |
|---|---|---|
| `Values.Minus` | Firmware/nodejsDriver/driver.js:89 | `pulseEnd - pulseStart` is a number exactly when both timestamps are assigned, and then adding it to the start gives the end; otherwise it is `NaN`, never `undefined` |
| `Conversion.Cm` | Firmware/nodejsDriver/driver.js:91 | the centimetre reading times 58 is the echo width in µs |
| `Conversion.Inch` | Firmware/nodejsDriver/driver.js:92 | the inch reading times 148 is the echo width in µs |
| `Conversion.ToCm` | Firmware/nodejsDriver/driver.js:91 | `diff / 58` is a number exactly when `diff` is one (and then 58 times it is `diff`); `NaN` otherwise |
| `Conversion.ToInch` | Firmware/nodejsDriver/driver.js:92 | `diff / 148` is a number exactly when `diff` is one (and then 148 times it is `diff`); `NaN` otherwise |
| `Conversion.CmInchAgree` | Firmware/nodejsDriver/driver.js:91-92 | for every width, 58 times the centimetres equals 148 times the inches |
| `Conversion.ConversionMonotone` | Firmware/nodejsDriver/driver.js:91-92 | a wider echo gives a strictly larger distance in both units, and conversely |
| `Conversion.ConversionSign` | Firmware/nodejsDriver/driver.js:91-92 | in both units, the distance is positive exactly when the width is positive, and zero exactly when the width is zero |
| `Conversion.UnitWidths` | Firmware/nodejsDriver/driver.js:91-92 | a 58 µs echo reads exactly 1 cm, and a 148 µs echo reads exactly 1 inch |
| `Conversion.ConversionInjective` | Firmware/nodejsDriver/driver.js:91-92 | equal readings in either unit come from equal widths |
| `EchoTimer.RisingRecordsStart` | Firmware/nodejsDriver/driver.js:86 | a level-1 event sets `pulseStart` to its tick and leaves `pulseEnd`, `diff`, `resCm`, `resInch` unchanged |
| `EchoTimer.FallingMeasures` | Firmware/nodejsDriver/driver.js:87-92 | any other level keeps `pulseStart`, sets `pulseEnd` to its tick, and yields numeric `diff`, `resCm`, `resInch` exactly when a start was recorded, namely end − start and its two conversions |
| `EchoTimer.FallingReadingsAgree` | Firmware/nodejsDriver/driver.js:91-92 | after a falling event with a recorded start, both readings are numbers and `resCm * 58 == resInch * 148` |
| `EchoTimer.FallingWithoutStartIsNaN` | Firmware/nodejsDriver/driver.js:88-92 | a falling event with no recorded start leaves `diff`, `resCm` and `resInch` all `NaN` |
| `EchoTimer.StepConsistent` | Firmware/nodejsDriver/driver.js:85-96 | the callback preserves the invariant: `pulseEnd` and `diff` are assigned together, the distances are always the conversions of `diff`, and a numeric `diff` implies a recorded start |
| `EchoTimer.RunSnoc` | Firmware/nodejsDriver/driver.js:85-96 | delivering a sequence of callbacks and then one more is one more callback |
| `EchoTimer.RunLast` | Firmware/nodejsDriver/driver.js:85-96 | a non-empty run is the run of its prefix followed by its last callback |
| `EchoTimer.RunMatchesReference` | Firmware/nodejsDriver/driver.js:85-96 | after any event sequence, `pulseStart` is the tick of the latest rising edge (else the old start), `pulseEnd` the tick of the latest other edge (else the old end), and `diff` is that end minus the start recorded just before it |
| `EchoTimer.RunDistances` | Firmware/nodejsDriver/driver.js:85-96 | after any sequence containing a falling edge the distances are the conversions of that reference width; without one they are unchanged |
| `EchoTimer.RunConsistent` | Firmware/nodejsDriver/driver.js:85-96 | the invariant holds after any sequence of callbacks from a state that has it |
| `EchoTimer.FallingKeepsStart` | Firmware/nodejsDriver/driver.js:86-89 | a sequence of falling events never changes `pulseStart` |
| `EchoTimer.NoRisingNoDistance` | Firmware/nodejsDriver/driver.js:49-92 | from start-up, while no rising edge has arrived, the start stays unset and neither `diff` nor either distance is ever a number |
| `EchoTimer.RisingOverwritesStart` | Firmware/nodejsDriver/driver.js:86 | of two rising edges before a falling edge, the later one is the start, and the width and distance are measured from it |
| `EchoTimer.RepeatedFallingSameStart` | Firmware/nodejsDriver/driver.js:86-89 | two consecutive falling edges both measure from the same recorded start |
| `EchoTimer.OneCentimetrePulse` | Firmware/nodejsDriver/driver.js:85-92 | rising at 1000 µs and falling at 1058 µs gives `diff == 58`, exactly 1 cm and 58/148 inch |
| `Driver.EchoDriver.constructor` | Firmware/nodejsDriver/driver.js:49-53 | all five variables start unassigned, and the invariant holds |
| `Driver.EchoDriver.OnAlert` | Firmware/nodejsDriver/driver.js:85-96 | the fields become `Step` of the old fields, and the invariant is kept. Level 1 sets only `pulseStart`. Any other level sets `pulseEnd` and keeps `pulseStart`. `diff` is then a number exactly when a start was recorded, with start + `diff` = tick and the two conversions; otherwise all three are `NaN` |
| `Driver.EchoDriver.Tick` | Firmware/nodejsDriver/driver.js:99-101 | requests a 10 µs pulse at level 1 on the trigger pin and leaves every measurement variable unchanged |

## Left out

- The Python driver (`Firmware/pythonDriver/driver.py`): it busy-waits on the echo pin, times with float seconds and rounds its results; that is hardware polling and floating point.
- GPIO access through pigpio (`new Gpio`, `digitalWrite`, `TRIG.trigger`): foreign library calls. `Tick` returns the pulse it requests instead of performing it.
- The `exit` and `SIGINT` handlers that force the trigger low and end the process: process lifecycle.
- The two `console.log` lines: output only; the values they print are the fields `resCm` and `resInch`.
- `setInterval` scheduling and any interleaving of timer and alert callbacks: the model delivers callbacks one at a time, in order, as sequential method calls.
- `Conversion.Cm`, `Conversion.Inch`: exact `real` division, not IEEE-754 doubles; JavaScript's results only approximate these values.
- `Driver.EchoDriver.OnAlert`: ticks are unbounded `int`s, while pigpio's ticks are 32-bit and wrap around. Given the device's own tick values the model computes the same `diff` as the JavaScript, including the negative width of a pulse that spans a wrap; what it does not capture is that ticks only range over 32 bits.
- `Driver.EchoDriver.OnAlert`: pigpio reports levels as numbers. The model takes any `int`, treats 1 as rising (the callback's `state == 1`) and every other value as a falling edge.
