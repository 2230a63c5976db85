/** The timing state machine of one firefly, as values.
    `Tick` is what one call of `process_firefly` does to a firefly;
    `Run` is a sequence of such calls. The lemmas state what the two
    transitions guarantee over any number of ticks. */
module Timing {

  /** Seconds a firefly stays lit. */
  const LIGHT_TIME: real := 0.5
  /** Bounds of the random dark interval, in seconds. */
  const MIN_DARK_TIME: real := 5.0
  const MAX_DARK_TIME: real := 10.0

  /** A value `uniform(MIN_DARK_TIME, MAX_DARK_TIME)` can return. */
  predicate IsDraw(r: real) {
    MIN_DARK_TIME <= r <= MAX_DARK_TIME
  }

  predicate AllDraws(draws: seq<real>) {
    forall k :: 0 <= k < |draws| ==> IsDraw(draws[k])
  }

  /** Everything about a firefly that a tick reads or writes: the value
      of its LED pin, whether it is lit, the time it was last lit and
      the delay (measured from that time) before it may light again. */
  datatype State = State(pinValue: bool, isLit: bool, triggerTime: real, triggerDelay: real)

  /** The LED shows what the firefly believes its state is. */
  predicate Mirrors(s: State) {
    s.pinValue == s.isLit
  }

  /** Holds of every state a configured firefly can reach: the pin mirrors
      the state and the delay lies between the smallest initial draw and
      the largest redrawn one. */
  predicate Inv(s: State) {
    Mirrors(s) && MIN_DARK_TIME <= s.triggerDelay <= LIGHT_TIME + MAX_DARK_TIME
  }

  /** A firefly as `main` configures it: pin driven low, not lit,
      `trigger_time` left at its default 0 and the delay drawn at random. */
  function Initial(delay: real): (s: State)
    ensures !s.isLit && !s.pinValue && s.triggerTime == 0.0 && s.triggerDelay == delay
    ensures IsDraw(delay) ==> Inv(s)
  {
    State(false, false, 0.0, delay)
  }

  /** One tick at time `now`; `r` is the value the random draw would
      return if the firefly goes dark. */
  function Tick(s: State, now: real, r: real): (t: State)
    // the guard of the current state alone decides whether the state flips
    ensures t.isLit != s.isLit <==>
              if s.isLit then now - s.triggerTime >= LIGHT_TIME
              else now - s.triggerTime >= s.triggerDelay
    // at most one transition; without one nothing changes
    ensures t.isLit == s.isLit ==> t == s
    // DARK to LIT: pin high, lit time recorded, delay kept
    ensures !s.isLit && t.isLit ==>
              t.pinValue && t.triggerTime == now && t.triggerDelay == s.triggerDelay
    // LIT to DARK: pin low, lit time kept, delay redrawn past the lit time
    ensures s.isLit && !t.isLit ==>
              !t.pinValue && t.triggerTime == s.triggerTime && t.triggerDelay == LIGHT_TIME + r
    ensures Mirrors(s) ==> Mirrors(t)
    ensures Inv(s) && IsDraw(r) ==> Inv(t)
  {
    if !s.isLit && now - s.triggerTime >= s.triggerDelay then
      s.(pinValue := true, isLit := true, triggerTime := now)
    else if s.isLit && now - s.triggerTime >= LIGHT_TIME then
      s.(pinValue := false, isLit := false, triggerDelay := LIGHT_TIME + r)
    else
      s
  }

  /** The state after ticking at each of `times` in turn, with `draws[k]`
      the random value available to the k-th tick. */
  function Run(s: State, times: seq<real>, draws: seq<real>): State
    requires |times| == |draws|
    decreases |times|
  {
    if |times| == 0 then s
    else
      var n := |times| - 1;
      Tick(Run(s, times[..n], draws[..n]), times[n], draws[n])
  }

  /** No number of ticks breaks the pin mirror or the delay bounds. */
  lemma {:induction false} RunPreservesInv(s: State, times: seq<real>, draws: seq<real>)
    requires |times| == |draws|
    requires Inv(s) && AllDraws(draws)
    ensures Inv(Run(s, times, draws))
  {
    if |times| > 0 {
      var n := |times| - 1;
      RunPreservesInv(s, times[..n], draws[..n]);
    }
  }

  /** A lit firefly stays lit, untouched, until LIGHT_TIME has passed
      since it was lit. */
  lemma {:induction false} LitHoldsForLightTime(s: State, times: seq<real>, draws: seq<real>)
    requires |times| == |draws|
    requires s.isLit
    requires forall k :: 0 <= k < |times| ==> times[k] - s.triggerTime < LIGHT_TIME
    ensures Run(s, times, draws) == s
  {
    if |times| > 0 {
      var n := |times| - 1;
      LitHoldsForLightTime(s, times[..n], draws[..n]);
    }
  }

  /** A dark firefly stays dark, untouched, until its delay has passed
      since it was last lit. */
  lemma {:induction false} DarkHoldsForDelay(s: State, times: seq<real>, draws: seq<real>)
    requires |times| == |draws|
    requires !s.isLit
    requires forall k :: 0 <= k < |times| ==> times[k] - s.triggerTime < s.triggerDelay
    ensures Run(s, times, draws) == s
  {
    if |times| > 0 {
      var n := |times| - 1;
      DarkHoldsForDelay(s, times[..n], draws[..n]);
    }
  }

  /** What is known of a firefly at any point after it was lit at `t0`:
      its last lit time is no earlier, and while dark it waits at least
      LIGHT_TIME + MIN_DARK_TIME from that last lit time. */
  predicate SinceLighting(x: State, t0: real) {
    x.triggerTime >= t0 && (!x.isLit ==> x.triggerDelay >= LIGHT_TIME + MIN_DARK_TIME)
  }

  lemma {:induction false} AfterLighting(s: State, times: seq<real>, draws: seq<real>)
    requires |times| == |draws|
    requires s.isLit && AllDraws(draws)
    requires forall k :: 0 <= k < |times| ==> times[k] >= s.triggerTime
    ensures SinceLighting(Run(s, times, draws), s.triggerTime)
  {
    if |times| > 0 {
      var n := |times| - 1;
      AfterLighting(s, times[..n], draws[..n]);
    }
  }

  /** Two lightings are at least LIGHT_TIME + MIN_DARK_TIME apart: a
      firefly lit at `s.triggerTime`, ticked at later times, lights again
      (at `now`) no sooner than that. */
  lemma LightingGap(s: State, times: seq<real>, draws: seq<real>, now: real, r: real)
    requires |times| == |draws|
    requires s.isLit && AllDraws(draws)
    requires forall k :: 0 <= k < |times| ==> times[k] >= s.triggerTime
    ensures !Run(s, times, draws).isLit && Tick(Run(s, times, draws), now, r).isLit ==>
              now - s.triggerTime >= LIGHT_TIME + MIN_DARK_TIME
  {
    AfterLighting(s, times, draws);
  }

  /** A reachable dark firefly is certain to light at any tick
      LIGHT_TIME + MAX_DARK_TIME or more after it was last lit. */
  lemma LightingDue(s: State, now: real, r: real)
    requires Inv(s) && !s.isLit
    requires now - s.triggerTime >= LIGHT_TIME + MAX_DARK_TIME
    ensures Tick(s, now, r).isLit && Tick(s, now, r).triggerTime == now
  {
  }

  /** A second tick at the same time changes nothing, except after a
      late LIT to DARK tick whose elapsed time already exceeds the
      redrawn delay: then the firefly lights again at once. */
  lemma SecondTickAtSameTime(s: State, now: real, r: real, r2: real)
    requires IsDraw(r)
    ensures Tick(Tick(s, now, r), now, r2) == Tick(s, now, r) <==>
              !(s.isLit && now - s.triggerTime >= LIGHT_TIME + r)
  {
  }

  /** In particular ticking again right after lighting changes nothing. */
  lemma TickIdempotentAfterLighting(s: State, now: real, r: real, r2: real)
    requires !s.isLit && Tick(s, now, r).isLit
    ensures Tick(Tick(s, now, r), now, r2) == Tick(s, now, r)
  {
  }
}
