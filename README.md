# Fireflies timing model

A Dafny model of a CircuitPython program that makes eight LEDs flash like
fireflies. Each firefly owns one LED pin, a name and three timing fields. Every tick
reads the clock and makes at most one transition:

- DARK to LIT once `now - trigger_time >= trigger_delay`;
- LIT to DARK once `now - trigger_time >= LIGHT_TIME`.

On going dark, the delay is redrawn as `LIGHT_TIME + uniform(MIN_DARK_TIME, MAX_DARK_TIME)`.
The main routine configures one firefly per pin and then sweeps over all of
them forever.

- `timing.dfy`, module `Timing`: the constants (0.5 s, 5.0 s, 10.0 s) and the
  state of one firefly as a value. `Tick` specifies one call of
  `process_firefly`, and `Run` is a sequence of ticks. The lemmas cover what
  holds over any number of ticks: the pin mirror, the delay bounds, the
  minimum lit time, the minimum gap between lightings, and idempotence.
- `fireflies.dfy`, module `Fireflies`: the objects. A `Pin` holds the value
  written to it. A `Firefly` class has the source's fields and constructor
  defaults. `ProcessFirefly` updates one firefly and its pin in place, and is
  proved to do exactly what `Tick` says. `Configure` is the setup loop of
  `main`, `Sweep` one pass of its endless loop, and `RunSweeps` a bounded
  number of passes. `Simulate` is the two together.

Time is a `real` number of seconds. The clock reading is a parameter `now`,
and each random draw is a parameter `r` with `MIN_DARK_TIME <= r <= MAX_DARK_TIME`.

Two behaviours of the code are easy to miss:

- A firefly's `trigger_time` starts at 0, the constructor default. It is not
  set to the time of construction.
- A second tick at the same time is not always a no-op. A LIT to DARK tick can
  come late, with the elapsed time since lighting already at least
  `LIGHT_TIME + r`. Then the next tick at the same time lights the firefly
  again. `Timing.SecondTickAtSameTime` states exactly when a repeated tick
  changes nothing. So the docstring of `MIN_DARK_TIME`, "the minimum time that a firefly is not lit", holds only when measured from the last lighting (`Timing.LightingGap`). After a late LIT to DARK tick the dark spell can be shorter, even zero.

## Model

| member | source | states |
|---|---|---|
| `Timing.Tick` | fireflies.py:126-150 | The state flips iff the guard of the current state holds. Without a flip nothing changes. DARK to LIT sets the pin high and `triggerTime := now`, and keeps the delay. LIT to DARK sets the pin low, keeps `triggerTime` and sets the delay to `LIGHT_TIME + r`. Pin mirroring and the delay bounds are preserved. |
| `Timing.Initial` | fireflies.py:105-112 | A configured firefly is dark, its pin is low, `triggerTime` is 0 and the delay is the drawn value. With a valid draw it satisfies the reachable-state invariant. |
| `Timing.RunPreservesInv` | fireflies.py:136-150 | After any number of ticks the pin still mirrors `isLit`, and the delay stays in `[MIN_DARK_TIME, LIGHT_TIME + MAX_DARK_TIME]`. |
| `Timing.LitHoldsForLightTime` | fireflies.py:144 | A lit firefly is left unchanged by every tick before `LIGHT_TIME` has passed since it was lit. |
| `Timing.DarkHoldsForDelay` | fireflies.py:136 | A dark firefly is left unchanged by every tick before its delay has passed since it was last lit. |
| `Timing.AfterLighting` | fireflies.py:136-150 | After a firefly is lit at `t0`, later ticks keep its last lit time at or after `t0`. Whenever it is dark, its delay is at least `LIGHT_TIME + MIN_DARK_TIME`. |
| `Timing.LightingGap` | fireflies.py:136-150 | Two lightings of one firefly are at least `LIGHT_TIME + MIN_DARK_TIME` apart, because the delay counts from the last lit time and that time is not reset on going dark. |
| `Timing.LightingDue` | fireflies.py:136 | A reachable dark firefly lights at any tick `LIGHT_TIME + MAX_DARK_TIME` or more after it was last lit. |
| `Timing.SecondTickAtSameTime` | fireflies.py:136-150 | A second tick at the same `now` leaves the state unchanged iff the first tick was not a LIT to DARK tick with elapsed time at least `LIGHT_TIME + r`. |
| `Timing.TickIdempotentAfterLighting` | fireflies.py:63 | Right after lighting, a tick at the same time changes nothing. |
| `Fireflies.Firefly.constructor` | fireflies.py:105-112 | Stores the pin, the name, `is_lit`, `trigger_time` and `trigger_delay`, with defaults "Unknown", false, 0 and 0. |
| `Fireflies.ProcessFirefly` | fireflies.py:126-150 | Updates the firefly's fields and its pin in place to `Tick` of their old values, and modifies nothing else. |
| `Fireflies.Configure` | fireflies.py:160-162 | Drives each pin low and appends, in order, a fresh firefly for it. Each firefly is named `LEDS[i]` (`Fireflies.LedName`, the f-string at line 162), is dark with `triggerTime` 0, has the drawn delay and satisfies the invariant. The fireflies and their pins are distinct. |
| `Fireflies.Sweep` | fireflies.py:166-167 | Ticks every firefly exactly once, the i-th at its own clock reading. Each ends at `Tick` of its own old state, whatever the others do. |
| `Fireflies.RunSweeps` | fireflies.py:165-167 | After n passes each firefly is at `Run` of its own old state over its own column of clock readings and draws. |
| `Fireflies.Simulate` | fireflies.py:160-167 | Setup followed by n passes leaves every pin mirroring its firefly, and every delay within its bounds. |

## Left out

- The hardware pins (`board`, `DigitalInOut`, `switch_to_output`) are foreign bindings. A pin is a `Pin` object with a boolean `value`. Driving it low at setup is modelled by writing `false`. The pin direction is not modelled.
- `time.monotonic()` is a hardware clock. Its readings are the parameters `now` and `times`.
- `random.uniform` is a pseudo-random generator. Each draw is a parameter constrained to `[MIN_DARK_TIME, MAX_DARK_TIME]`. Its distribution is not modelled.
- The endless `while True` loop of `main` never ends. `RunSweeps` and `Simulate` take a finite number of passes instead.
- The DEBUG printing and `__str__` only write to the console.
- Time is exact `real` arithmetic. IEEE floating-point rounding of the time values is not modelled.
- The global `LEDS` and `fireflies` lists are replaced by a parameter and a result. `Configure` returns the list that `main` appends to.
- Timing.LightingDue: gives the upper bound on the gap between lightings only per tick. The lighting happens at the first tick at or after `LIGHT_TIME + MAX_DARK_TIME`, and how late that tick comes depends on the sweep rate, which is not modelled.
- A firefly listed twice, or two fireflies sharing a pin, are excluded by `Disjoint`. `main` builds one firefly per distinct pin.
