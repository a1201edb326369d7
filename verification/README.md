# Dimmable LED with push-button: a Dafny model

This project models the control logic of the `DEV_DimmableLED_WithButton`
lighting service of an ESP32 lamp retrofit (`DEV_LED.h`). The service holds
two committed values, the On flag (`power`) and the Brightness percentage
(`level`, declared range 5..100, step 1, initially 50), and drives one PWM
pin. Two paths write the pin:

- `update()`: a remote controller changed one or both values; the pin gets
  `power × level` of the new values.
- `button()`: the push-button produced a press that the button driver has
  already classified. SINGLE toggles power, DOUBLE switches on at the
  favourite 75 %, LONG switches on and jumps the level to the next of the
  buckets 25/50/75/100, wrapping from 100 (or above) to 5. Any other press
  code is ignored.

Modules:

- `Wrappers` (`wrappers.dfy`): the `Option` type.
- `DimmableLed` (`dimmable_led.dfy`): the state (`Light`, `Device` = light +
  last pin value), the output projection `Output`, the long-press bucket
  jump `NextBucket`, the two write paths `Update` and `Step` as pure
  functions returning the new state and the pin write (if any), their
  device-level forms `ExternalUpdate` and `Button`, and `Run`, which handles
  a sequence of events in order as the single control loop delivers them.
- `LedProperties` (`led_properties.dfy`): properties relating several
  events: the five-step long-press cycle (long presses walk the buckets
  5, 25, 50, 75, 100 in a ring, `LongsAdvanceCycle`) and its periodicity, the power
  toggle undoing itself, idempotence of DOUBLE and of a repeated remote
  write, agreement of the two write paths, and the invariant of every
  reachable state.

The central invariant is `Consistent`: the pin always shows
`power ? level : 0` of the committed state. Every handled event
re-establishes it and an ignored press leaves both state and pin untouched.

`DEV_LED.h` is a single-channel dimmer: its long press jumps between fixed
brightness buckets rather than ramping.

## Model

| member | source | states |
|---|---|---|
| DimmableLed.Output | DEV_LED.h:30 | The drive level is 0 when the light is off and exactly the level when it is on; with the level in [5,100] it is within [0,100]. |
| DimmableLed.Initial | DEV_LED.h:12-16 | The constructed service is off at brightness 50, inside the declared range, with the pin at 0, which agrees with its state. |
| DimmableLed.NextBucket | DEV_LED.h:59-67 | A long press lands in {5,25,50,75,100}; below 100 it lands on the smallest threshold strictly above the old level (so the level strictly rises); at 100 or above it wraps to 5. |
| DimmableLed.Update | DEV_LED.h:27-34 | A remote write takes each field from the request when present and keeps the current value otherwise, and always writes `power ? level : 0` of the resulting state. |
| DimmableLed.Step | DEV_LED.h:36-78 | A press writes the pin exactly when it is SINGLE, DOUBLE or LONG, and the value written is `power ? level : 0` of the new state; SINGLE negates power and keeps the level; DOUBLE ends on at 75 writing 75; LONG ends on at the level `NextBucket` gives (the smallest threshold above the old level, or 5 from 100 and above), so the level rises unless it was at least 100; an unrecognised press changes nothing; a level in [5,100] stays in [5,100]. |
| DimmableLed.ExternalUpdate | DEV_LED.h:27-34 | After a remote write the pin agrees with the committed state, whatever it showed before; an in-range write keeps the level in range. |
| DimmableLed.Button | DEV_LED.h:36-78 | A handled press leaves the pin agreeing with the state from any prior device; an unrecognised press leaves the device unchanged; the level range is preserved. |
| DimmableLed.Handle | DEV_LED.h:27-78 | The framework's dispatch of one event to `button()` or `update()`: after a remote write the pin agrees with the state whatever it showed before; a consistent device stays consistent; an in-range event keeps the level in range. |
| DimmableLed.Run | DEV_LED.h:27-78 | Over any sequence of presses and remote writes, consistency of the pin and the level range are preserved, the pin stays within [0,100], and a sequence of unrecognised presses changes nothing. |
| LedProperties.LongFromBucket | DEV_LED.h:59-70 | From a lit bucket state, a long press moves 5→25, 25→50, 50→75, 75→100 and 100→5, and ends in a lit, consistent bucket state. |
| LedProperties.RunRepeat | DEV_LED.h:36-78 | Handling k copies of one press as a sequence of events is the same as delivering that press k times to `button()`. |
| LedProperties.LongAdvancesOne | DEV_LED.h:59-74 | A long press from the j-th bucket of the ring 5, 25, 50, 75, 100 lands, lit and with the pin at that level, on the next bucket, and from 100 back on 5. |
| LedProperties.LongLandsOnCycle | DEV_LED.h:59-74 | Whatever the device was, a long press leaves it lit on one of the five buckets with the pin showing that level. |
| LedProperties.LongsAdvanceCycle | DEV_LED.h:59-74 | k long presses from the j-th bucket land on the ((j + k) mod 5)-th bucket, lit, with the pin showing that level. |
| LedProperties.LongCycleFromFull | DEV_LED.h:63-74 | Starting at level 100, the k-th of five long presses leaves the light on at 5, 25, 50, 75, 100 in that order, with the pin showing that level. |
| LedProperties.FiveLongsFromBucket | DEV_LED.h:63-74 | Five long presses from any lit bucket state return to exactly that state. |
| LedProperties.LongPressesPeriodic | DEV_LED.h:59-74 | After at least one long press, five more long presses return the device to exactly the same state and pin. |
| LedProperties.LongPressPeriodic | DEV_LED.h:59-74 | From any device, after at least one long press, further long presses repeat with period 5. |
| LedProperties.SingleTwiceRestores | DEV_LED.h:40-48 | A single press flips power and keeps the level; two single presses restore the device. |
| LedProperties.SingleOffRemembersLevel | DEV_LED.h:40-48 | Switching off by a single press drives the pin to 0 but remembers the level, and switching back on drives the pin at that level again. |
| LedProperties.DoubleIdempotent | DEV_LED.h:50-57 | From any device a double press ends on at 75 with pin 75, and a second double press changes nothing. |
| LedProperties.UpdateIdempotent | DEV_LED.h:27-34 | Applying the same remote write twice leaves the same state and pin as applying it once. |
| LedProperties.ButtonAgreesWithUpdate | DEV_LED.h:30-75 | Whatever a handled press leaves behind, a remote write of the same power and level leaves exactly the same device: both write paths compute the same output. |
| LedProperties.ReachableInvariant | DEV_LED.h:12-78 | Every state reachable from construction through presses and in-range remote writes has its level in [5,100] and a pin value in [0,100] that agrees with its state. |

## Left out

- `DEV_DHT11.h` (temperature and humidity polling): periodic sensor reads over a clock with floating-point values from a library that is not part of this model.
- Logging through `Serial.printf` / `Serial.println`: no effect on state or output.
- The `LedPin` PWM driver: a write is modelled only as the value recorded for the pin. The driver's initial duty is not part of this model; the constructed service is taken to start with the pin at 0.
- `SpanButton` debounce and timing parameters and `pinMode`: presses arrive already classified. The numeric press codes are not modelled; every code other than SINGLE, DOUBLE and LONG is `Other(code)`.
- The accessory framework's characteristic storage and notification: `getVal`, `getNewVal` and `setVal` are plain fields. A remote write reaches `update()` with only the changed fields, the others reading their current values. `update()` always returns true, so every remote write is committed.
- DimmableLed.ExternalUpdate: the framework's enforcement of the declared range (`setRange`) is not modelled; a remote level outside [5,100] is taken as is, so the range invariant is stated only for remote writes inside the range.
