/** The fireflies as objects: each firefly owns one LED pin and its
    timing fields, which `ProcessFirefly` updates in place; `Configure`
    and `RunSweeps` are the two halves of the program's main routine. */
module Fireflies {
  import opened Timing

  /** A digital output pin; only the value written to it is modelled. */
  class Pin {
    var value: bool
  }

  class Firefly {
    const pin: Pin
    const name: string
    var isLit: bool
    var triggerTime: real
    var triggerDelay: real

    constructor (pin: Pin, name: string := "Unknown", isLit: bool := false,
                 triggerTime: real := 0.0, triggerDelay: real := 0.0)
      ensures this.pin == pin && this.name == name
      ensures this.isLit == isLit && this.triggerTime == triggerTime
      ensures this.triggerDelay == triggerDelay
    {
      this.pin := pin;
      this.name := name;
      this.isLit := isLit;
      this.triggerTime := triggerTime;
      this.triggerDelay := triggerDelay;
    }

    /** The firefly's fields and its pin's value as a `Timing.State`. */
    function Snapshot(): State
      reads this, pin
    {
      State(pin.value, isLit, triggerTime, triggerDelay)
    }
  }

  /** Distinct fireflies driving distinct pins. */
  ghost predicate Disjoint(fireflies: seq<Firefly>) {
    forall i, j :: 0 <= i < j < |fireflies| ==>
      fireflies[i] != fireflies[j] && fireflies[i].pin != fireflies[j].pin
  }

  /** The objects a sweep over `fireflies` may change. */
  ghost function Footprint(fireflies: seq<Firefly>): set<object> {
    (set f | f in fireflies :: f as object) + (set f | f in fireflies :: f.pin as object)
  }

  /** One call of `process_firefly` with the clock reading `now` and the
      random draw `r`: it changes that firefly and its pin, nothing else. */
  method ProcessFirefly(firefly: Firefly, now: real, r: real)
    requires IsDraw(r)
    modifies firefly, firefly.pin
    ensures firefly.Snapshot() == Tick(old(firefly.Snapshot()), now, r)
  {
    if !firefly.isLit && now - firefly.triggerTime >= firefly.triggerDelay {
      firefly.pin.value := true;
      firefly.isLit := true;
      firefly.triggerTime := now;
    } else if firefly.isLit && now - firefly.triggerTime >= LIGHT_TIME {
      firefly.pin.value := false;
      firefly.isLit := false;
      firefly.triggerDelay := LIGHT_TIME + r;
    }
  }

  /** The diagnostic name `main` gives the firefly on `LEDS[index]`. */
  function LedName(index: nat): string {
    "LEDS[" + DecimalString(index) + "]"
  }

  function DecimalString(n: nat): string {
    if n < 10 then ["0123456789"[n]] else DecimalString(n / 10) + ["0123456789"[n % 10]]
  }

  /** The configuration loop of `main`: each LED pin is driven low and
      gets a fresh firefly, appended in order, with a random initial delay. */
  method Configure(leds: seq<Pin>, draws: seq<real>) returns (fireflies: seq<Firefly>)
    requires |draws| == |leds| && AllDraws(draws)
    requires forall i, j :: 0 <= i < j < |leds| ==> leds[i] != leds[j]
    modifies set p | p in leds
    ensures |fireflies| == |leds| && Disjoint(fireflies)
    ensures forall i :: 0 <= i < |fireflies| ==>
              fresh(fireflies[i]) && fireflies[i].pin == leds[i] && fireflies[i].name == LedName(i)
    ensures forall i :: 0 <= i < |fireflies| ==>
              fireflies[i].Snapshot() == Initial(draws[i]) && Inv(fireflies[i].Snapshot())
  {
    fireflies := [];
    for index := 0 to |leds|
      invariant |fireflies| == index && Disjoint(fireflies)
      invariant forall i :: 0 <= i < index ==>
                  fresh(fireflies[i]) && fireflies[i].pin == leds[i] && fireflies[i].name == LedName(i)
      invariant forall i :: 0 <= i < index ==> fireflies[i].Snapshot() == Initial(draws[i])
    {
      var led := leds[index];
      led.value := false;
      var firefly := new Firefly(led, name := LedName(index), triggerDelay := draws[index]);
      fireflies := fireflies + [firefly];
    }
  }

  /** One pass of the main loop: every firefly is ticked exactly once, in
      order, the i-th at the clock reading `times[i]`. */
  method Sweep(fireflies: seq<Firefly>, times: seq<real>, draws: seq<real>)
    requires |times| == |fireflies| && |draws| == |fireflies|
    requires Disjoint(fireflies) && AllDraws(draws)
    modifies Footprint(fireflies)
    ensures forall i :: 0 <= i < |fireflies| ==>
              fireflies[i].Snapshot() == Tick(old(fireflies[i].Snapshot()), times[i], draws[i])
  {
    for i := 0 to |fireflies|
      invariant forall k :: 0 <= k < i ==>
                  fireflies[k].Snapshot() == Tick(old(fireflies[k].Snapshot()), times[k], draws[k])
      invariant forall k :: i <= k < |fireflies| ==>
                  fireflies[k].Snapshot() == old(fireflies[k].Snapshot())
    {
      ProcessFirefly(fireflies[i], times[i], draws[i]);
    }
  }

  /** The clock readings (or draws) one firefly sees across several sweeps. */
  function Column(rows: seq<seq<real>>, i: nat): seq<real>
    requires forall n :: 0 <= n < |rows| ==> i < |rows[n]|
  {
    seq(|rows|, n requires 0 <= n < |rows| => rows[n][i])
  }

  /** A bounded number of passes of the main loop: `times[n][i]` is the
      clock reading when firefly i is ticked in pass n. Each firefly ends
      where `Run` takes it over its own readings, whatever the others do. */
  method RunSweeps(fireflies: seq<Firefly>, times: seq<seq<real>>, draws: seq<seq<real>>)
    requires Disjoint(fireflies) && |times| == |draws|
    requires forall n :: 0 <= n < |times| ==>
               |times[n]| == |fireflies| && |draws[n]| == |fireflies| && AllDraws(draws[n])
    modifies Footprint(fireflies)
    ensures forall i :: 0 <= i < |fireflies| ==>
              fireflies[i].Snapshot() ==
                Run(old(fireflies[i].Snapshot()), Column(times, i), Column(draws, i))
  {
    for n := 0 to |times|
      invariant forall i :: 0 <= i < |fireflies| ==>
                  fireflies[i].Snapshot() ==
                    Run(old(fireflies[i].Snapshot()), Column(times[..n], i), Column(draws[..n], i))
    {
      Sweep(fireflies, times[n], draws[n]);
      forall i | 0 <= i < |fireflies|
        ensures fireflies[i].Snapshot() ==
                  Run(old(fireflies[i].Snapshot()), Column(times[..n + 1], i), Column(draws[..n + 1], i))
      {
        assert Column(times[..n + 1], i)[..n] == Column(times[..n], i);
        assert Column(draws[..n + 1], i)[..n] == Column(draws[..n], i);
      }
    }
    assert times[..|times|] == times && draws[..|draws|] == draws;
  }

  /** `main` with its endless loop cut to a given number of passes: after
      configuration and any number of sweeps every pin still mirrors its
      firefly and every delay stays within its bounds. */
  method Simulate(leds: seq<Pin>, initialDraws: seq<real>,
                  times: seq<seq<real>>, draws: seq<seq<real>>) returns (fireflies: seq<Firefly>)
    requires |initialDraws| == |leds| && AllDraws(initialDraws)
    requires forall i, j :: 0 <= i < j < |leds| ==> leds[i] != leds[j]
    requires |times| == |draws|
    requires forall n :: 0 <= n < |times| ==>
               |times[n]| == |leds| && |draws[n]| == |leds| && AllDraws(draws[n])
    modifies set p | p in leds
    ensures |fireflies| == |leds| && Disjoint(fireflies)
    ensures forall i :: 0 <= i < |fireflies| ==>
              fireflies[i].Snapshot() == Run(Initial(initialDraws[i]), Column(times, i), Column(draws, i))
    ensures forall i :: 0 <= i < |fireflies| ==> Inv(fireflies[i].Snapshot())
  {
    fireflies := Configure(leds, initialDraws);
    RunSweeps(fireflies, times, draws);
    forall i | 0 <= i < |fireflies|
      ensures Inv(fireflies[i].Snapshot())
    {
      RunPreservesInv(Initial(initialDraws[i]), Column(times, i), Column(draws, i));
    }
  }
}
