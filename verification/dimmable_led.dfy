/**
 * The single-channel dimmable LED service with a push-button (DEV_LED.h).
 *
 * The light's committed state is an on/off flag and a brightness percentage.
 * Two paths write the PWM pin: the accessory framework's `update()` (a remote
 * controller changed one or both fields) and `button()` (the push-button
 * produced an already classified press). Both write `power × level`.
 */
module DimmableLed {
  import opened Wrappers

  /** Declared brightness range of the Brightness characteristic (step 1: levels are integers). */
  const MinLevel: int := 5
  const MaxLevel: int := 100

  /** Brightness given to the characteristic at construction. */
  const InitialLevel: int := 50

  /** The "favourite" brightness a double press switches to. */
  const FavouriteLevel: int := 75

  /** The long-press thresholds, ascending: the level jumps to the first one above it. */
  const Thresholds: seq<int> := [25, 50, 75, 100]

  /** Where a long press lands once the level is already at or above the last threshold. */
  const WrapLevel: int := 5

  /** Every level a long press can land on: the wrap level and the thresholds. */
  const Buckets: set<int> := {WrapLevel} + set t | t in Thresholds

  /** A press as classified by the button driver; `Other` is any other press code. */
  datatype Press = Single | Double | Long | Other(code: int)

  /** The committed values of the On and Brightness characteristics. */
  datatype Light = Light(power: bool, level: int)

  /** The service: its committed light state and the value last written to the PWM pin. */
  datatype Device = Device(light: Light, pwm: int)

  /** The result of handling one event: the new state and the pin write, if any. */
  datatype Effect = Effect(light: Light, written: Option<int>)

  /** A remote write: a field is present only when the controller changed it. */
  datatype Request = Request(power: Option<bool>, level: Option<int>)

  predicate InRange(level: int) {
    MinLevel <= level <= MaxLevel
  }

  /** C++ promotes a `bool` operand of `*` to 0 or 1. */
  function BoolToInt(b: bool): int {
    if b then 1 else 0
  }

  /** The drive level of a light state, computed as the source does: power × level. */
  function Output(l: Light): (r: int)
    ensures !l.power ==> r == 0
    ensures l.power ==> r == l.level
    ensures InRange(l.level) ==> 0 <= r <= MaxLevel
  {
    BoolToInt(l.power) * l.level
  }

  /** The pin shows exactly what the committed state asks for. */
  predicate Consistent(d: Device) {
    d.pwm == Output(d.light)
  }

  /** A freshly constructed service: off, at the initial brightness, pin dark. */
  function Initial(): (d: Device)
    ensures d.light == Light(false, InitialLevel) && d.pwm == 0
    ensures Consistent(d)
    ensures InRange(d.light.level)
    ensures Output(d.light) == 0
  {
    Device(Light(false, InitialLevel), 0)
  }

  /** The level a long press jumps to from `level`. */
  function NextBucket(level: int): (r: int)
    ensures r in Buckets
    ensures InRange(r)
    ensures level < MaxLevel ==> level < r && r in Thresholds
    ensures forall i :: 0 <= i < |Thresholds| && level < Thresholds[i] ==> r <= Thresholds[i]
    ensures MaxLevel <= level ==> r == WrapLevel
  {
    if level < Thresholds[0] then Thresholds[0]
    else if level < Thresholds[1] then Thresholds[1]
    else if level < Thresholds[2] then Thresholds[2]
    else if level < Thresholds[3] then Thresholds[3]
    else WrapLevel
  }

  /**
   * The framework's `update()`: each field takes its new value when the request
   * carries one and keeps its current value otherwise; the pin is always written,
   * and the update is always accepted.
   */
  function Update(l: Light, req: Request): (e: Effect)
    ensures req.power.Some? ==> e.light.power == req.power.value
    ensures req.power.None? ==> e.light.power == l.power
    ensures req.level.Some? ==> e.light.level == req.level.value
    ensures req.level.None? ==> e.light.level == l.level
    ensures e.written == Some(if e.light.power then e.light.level else 0)
  {
    var newPower := req.power.GetOr(l.power);
    var newLevel := req.level.GetOr(l.level);
    Effect(Light(newPower, newLevel), Some(BoolToInt(newPower) * newLevel))
  }

  /** The framework's `button()`: one classified press. */
  function Step(l: Light, p: Press): (e: Effect)
    ensures p.Other? <==> e.written.None?
    ensures e.written.Some? ==> e.written.value == (if e.light.power then e.light.level else 0)
    ensures p.Other? ==> e.light == l
    ensures p.Single? ==> e.light.power == !l.power && e.light.level == l.level
    ensures p.Double? || p.Long? ==> e.light.power
    ensures p.Double? ==> e.light.level == FavouriteLevel && e.written == Some(FavouriteLevel)
    ensures p.Long? ==> e.light.level == NextBucket(l.level)
    ensures p.Long? ==> e.light.level in Buckets && (l.level < MaxLevel ==> l.level < e.light.level)
    ensures p.Long? && MaxLevel <= l.level ==> e.light.level == WrapLevel
    ensures InRange(l.level) ==> InRange(e.light.level)
  {
    match p
    case Single =>
      var newPower := !l.power;
      Effect(Light(newPower, l.level), Some(BoolToInt(newPower) * l.level))
    case Double =>
      Effect(Light(true, FavouriteLevel), Some(FavouriteLevel))
    case Long =>
      var newLevel := NextBucket(l.level);
      Effect(Light(true, newLevel), Some(newLevel))
    case Other(_) =>
      Effect(l, None)
  }

  /** Commits an effect: the pin keeps its last value when nothing was written. */
  function Apply(d: Device, e: Effect): Device {
    Device(e.light, e.written.GetOr(d.pwm))
  }

  /** A remote write to the service. */
  function ExternalUpdate(d: Device, req: Request): (d': Device)
    ensures Consistent(d')
    ensures InRange(d.light.level) && (req.level.Some? ==> InRange(req.level.value)) ==> InRange(d'.light.level)
  {
    Apply(d, Update(d.light, req))
  }

  /** A button press delivered to the service. */
  function Button(d: Device, p: Press): (d': Device)
    ensures Consistent(d) ==> Consistent(d')
    ensures !p.Other? ==> Consistent(d')
    ensures p.Other? ==> d' == d
    ensures InRange(d.light.level) ==> InRange(d'.light.level)
  {
    Apply(d, Step(d.light, p))
  }

  /** One event of the control loop: a button press or a remote write. */
  datatype Event = Pressed(press: Press) | Remote(request: Request)

  /** A remote write whose brightness, if any, respects the declared range. */
  predicate InRangeEvent(ev: Event) {
    ev.Remote? && ev.request.level.Some? ==> InRange(ev.request.level.value)
  }

  /** Dispatches one event to `button()` or `update()`. */
  function Handle(d: Device, ev: Event): (d': Device)
    ensures ev.Remote? ==> Consistent(d')
    ensures Consistent(d) ==> Consistent(d')
    ensures InRange(d.light.level) && InRangeEvent(ev) ==> InRange(d'.light.level)
  {
    match ev
    case Pressed(p) => Button(d, p)
    case Remote(req) => ExternalUpdate(d, req)
  }

  /** Events handled one at a time, in order, as the single control loop delivers them. */
  function Run(d: Device, events: seq<Event>): (d': Device)
    ensures Consistent(d) ==> Consistent(d')
    ensures InRange(d.light.level) && (forall i :: 0 <= i < |events| ==> InRangeEvent(events[i]))
      ==> InRange(d'.light.level)
    ensures Consistent(d) && InRange(d.light.level)
      && (forall i :: 0 <= i < |events| ==> InRangeEvent(events[i]))
      ==> 0 <= d'.pwm <= MaxLevel
    ensures (forall i :: 0 <= i < |events| ==> events[i].Pressed? && events[i].press.Other?)
      ==> d' == d
    decreases |events|
  {
    if |events| == 0 then d
    else Run(Handle(d, events[0]), events[1..])
  }
}
