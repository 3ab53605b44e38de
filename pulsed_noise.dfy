/** The pulsed-noise jammer: a timed state machine over the start of the next
    pulse and the end of the current one. While a pulse is active the jamming
    probability is raised by 0.5 (capped at 1). */
module PulsedNoise {
  import opened Reals
  import opened Generator
  import opened Telemetry
  import opened Jamming

  // The constructor's defaults: jamming_probability, noise_intensity,
  // jamming_power_dbm, pulse_interval_range and pulse_duration.
  const DefaultJammingProbability: real := 0.3
  const DefaultNoiseIntensity: real := 0.9
  const DefaultJammingPowerDbm: real := -60.0
  const DefaultPulseIntervalMin: real := 1.0
  const DefaultPulseIntervalMax: real := 3.0
  const DefaultPulseDuration: real := 0.5

  /** The jammer's timing state: next_pulse_time and pulse_active_until. */
  datatype PulseState = PulseState(nextPulseTime: real, pulseActiveUntil: Option<real>)

  /** is_pulse_active: a pulse end is set and t has not passed it. */
  predicate IsPulseActive(s: PulseState, t: real) {
    s.pulseActiveUntil.Some? && t <= s.pulseActiveUntil.value
  }

  /** Python truthiness of pulse_active_until: None and 0.0 both count as unset. */
  predicate IsSet(until: Option<real>) {
    until.Some? && until.value != 0.0
  }

  /** First half of the update: at or after the scheduled time, with no pulse
      active, a pulse starts that lasts pulseDuration. */
  function StartPulse(s: PulseState, t: real, pulseDuration: real): (r: PulseState)
    ensures t >= s.nextPulseTime && !IsPulseActive(s, t) ==>
      r == s.(pulseActiveUntil := Some(t + pulseDuration))
    ensures !(t >= s.nextPulseTime && !IsPulseActive(s, t)) ==> r == s
  {
    if t >= s.nextPulseTime && !IsPulseActive(s, t) then s.(pulseActiveUntil := Some(t + pulseDuration))
    else s
  }

  /** Second half: a pulse whose end (set, by truthiness) t has passed is
      cleared, and the next one is scheduled uniform(min, max) after t (one
      draw). A non-negative interval puts the next pulse strictly after the end
      of the one that ended. */
  function EndPulse(s: PulseState, t: real, intervalMin: real, intervalMax: real, g: Rng): (r: Drawn<PulseState>)
    requires Valid(g)
    ensures Valid(r.rest)
    ensures IsSet(s.pulseActiveUntil) && t > s.pulseActiveUntil.value ==>
      && r.value.pulseActiveUntil == None
      && Min(intervalMin, intervalMax) <= r.value.nextPulseTime - t <= Max(intervalMin, intervalMax)
      && r.rest == Skip(g, 1)
      && (Min(intervalMin, intervalMax) >= 0.0 ==> r.value.nextPulseTime > s.pulseActiveUntil.value)
    ensures !(IsSet(s.pulseActiveUntil) && t > s.pulseActiveUntil.value) ==> r.value == s && r.rest == g
  {
    if IsSet(s.pulseActiveUntil) && t > s.pulseActiveUntil.value then
      var gap := Uniform(g, intervalMin, intervalMax);
      Drawn(PulseState(t + gap.value, None), gap.rest)
    else
      Drawn(s, g)
  }

  /** _update_pulse_status(t): start, then end. */
  function PulseUpdate(s: PulseState, t: real, pulseDuration: real,
                       intervalMin: real, intervalMax: real, g: Rng): Drawn<PulseState>
    requires Valid(g)
  {
    EndPulse(StartPulse(s, t, pulseDuration), t, intervalMin, intervalMax, g)
  }

  /** The reachable-state invariant that makes the truthiness test harmless: a
      pulse end of exactly 0.0 (which the test reads as unset) can only have
      been started at -pulseDuration, at or after the scheduled time. */
  ghost predicate Consistent(s: PulseState, pulseDuration: real) {
    s.pulseActiveUntil == Some(0.0) ==> s.nextPulseTime <= -pulseDuration
  }

  /** The update keeps Consistent, and with a non-negative duration it leaves no
      stale pulse: afterwards either no pulse end is set or t has not passed it. */
  lemma UpdateLeavesNoStalePulse(s: PulseState, t: real, pulseDuration: real,
                                 intervalMin: real, intervalMax: real, g: Rng)
    requires Valid(g) && Consistent(s, pulseDuration)
    ensures Consistent(PulseUpdate(s, t, pulseDuration, intervalMin, intervalMax, g).value, pulseDuration)
    ensures pulseDuration >= 0.0 ==>
      var r := PulseUpdate(s, t, pulseDuration, intervalMin, intervalMax, g).value;
      r.pulseActiveUntil.None? || t <= r.pulseActiveUntil.value
  {
    var s1 := StartPulse(s, t, pulseDuration);
    var r := EndPulse(s1, t, intervalMin, intervalMax, g);
    if t >= s.nextPulseTime && !IsPulseActive(s, t) {
      assert s1.pulseActiveUntil == Some(t + pulseDuration);
    } else {
      assert s1 == s;
    }
  }

  /** The invariant of every reachable state: a pulse end that is set was set
      by a start at or after the scheduled time, so it lies at least
      pulseDuration past next_pulse_time. It implies Consistent. */
  ghost predicate Scheduled(s: PulseState, pulseDuration: real) {
    s.pulseActiveUntil.Some? ==> s.nextPulseTime <= s.pulseActiveUntil.value - pulseDuration
  }

  /** The update, in the order the code runs its two rules, keeps Scheduled;
      with a non-negative duration the end rule never fires: next_pulse_time is
      never rescheduled and no draw is taken, and from the scheduled time on
      the jammer is active at every call. A call after the end of a pulse
      starts a new one instead of ending the old one. */
  lemma PulseNeverEnds(s: PulseState, t: real, pulseDuration: real,
                       intervalMin: real, intervalMax: real, g: Rng)
    requires Valid(g) && Scheduled(s, pulseDuration)
    ensures Scheduled(PulseUpdate(s, t, pulseDuration, intervalMin, intervalMax, g).value, pulseDuration)
    ensures pulseDuration >= 0.0 ==>
      var r := PulseUpdate(s, t, pulseDuration, intervalMin, intervalMax, g);
      && r.rest == g
      && r.value.nextPulseTime == s.nextPulseTime
      && (t >= s.nextPulseTime ==> IsPulseActive(r.value, t))
  {
  }

  /** The state after a run of updates at the given times, in order. */
  function PulseRun(s: PulseState, pulseDuration: real, intervalMin: real, intervalMax: real,
                    times: seq<real>, g: Rng): (r: Drawn<PulseState>)
    requires Valid(g)
    ensures Valid(r.rest)
    decreases |times|
  {
    if times == [] then Drawn(s, g)
    else
      var step := PulseUpdate(s, times[0], pulseDuration, intervalMin, intervalMax, g);
      PulseRun(step.value, pulseDuration, intervalMin, intervalMax, times[1..], step.rest)
  }

  /** Over any run of calls with a non-negative duration, next_pulse_time keeps
      its initial value, no draw is taken, and at a last call at or after that
      time the jammer is active: it jams with the raised probability from the
      first scheduled pulse on. */
  lemma {:induction false} PulseRunNeverEnds(s: PulseState, pulseDuration: real,
                                             intervalMin: real, intervalMax: real,
                                             times: seq<real>, g: Rng)
    requires Valid(g) && Scheduled(s, pulseDuration) && pulseDuration >= 0.0
    ensures var r := PulseRun(s, pulseDuration, intervalMin, intervalMax, times, g);
      && Scheduled(r.value, pulseDuration)
      && r.rest == g
      && r.value.nextPulseTime == s.nextPulseTime
      && (times != [] && times[|times| - 1] >= s.nextPulseTime ==> IsPulseActive(r.value, times[|times| - 1]))
    decreases |times|
  {
    if times != [] {
      var step := PulseUpdate(s, times[0], pulseDuration, intervalMin, intervalMax, g);
      PulseNeverEnds(s, times[0], pulseDuration, intervalMin, intervalMax, g);
      PulseRunNeverEnds(step.value, pulseDuration, intervalMin, intervalMax, times[1..], step.rest);
      if |times| == 1 {
        assert times[1..] == [];
      } else {
        assert times[1..][|times[1..]| - 1] == times[|times| - 1];
      }
    }
  }

  /** The discrepancy on one input: with pulse_duration 0.5 and the first
      pulse due at 10, calls at 10 and at 20 leave a pulse ending at 20.5 and
      next_pulse_time still 10, with no draw taken. */
  lemma StuckPulseExample(g: Rng)
    requires Valid(g)
    ensures var first := PulseUpdate(PulseState(10.0, None), 10.0, 0.5, 1.0, 3.0, g);
            var second := PulseUpdate(first.value, 20.0, 0.5, 1.0, 3.0, first.rest);
            && first.value == PulseState(10.0, Some(10.5))
            && second.value == PulseState(10.0, Some(20.5))
            && second.rest == g
            && IsPulseActive(second.value, 20.0)
  {
  }

  /** The update with the end rule checked before the start rule, so that a
      pulse whose duration is over ends and the next one is rescheduled. */
  function PulseUpdateEndFirst(s: PulseState, t: real, pulseDuration: real,
                               intervalMin: real, intervalMax: real, g: Rng): (r: Drawn<PulseState>)
    requires Valid(g)
    ensures Valid(r.rest)
  {
    var ended := EndPulse(s, t, intervalMin, intervalMax, g);
    Drawn(StartPulse(ended.value, t, pulseDuration), ended.rest)
  }

  /** With the end rule first, a pulse whose (set) end t has passed is over:
      one draw reschedules the next pulse between the interval bounds after t,
      and for a positive lower bound no pulse end is set and the jammer is
      inactive at t. */
  lemma PulseEndsWhenOver(s: PulseState, t: real, pulseDuration: real,
                          intervalMin: real, intervalMax: real, g: Rng)
    requires Valid(g) && IsSet(s.pulseActiveUntil) && t > s.pulseActiveUntil.value
    ensures var r := PulseUpdateEndFirst(s, t, pulseDuration, intervalMin, intervalMax, g);
      && r.rest == Skip(g, 1)
      && Min(intervalMin, intervalMax) <= r.value.nextPulseTime - t <= Max(intervalMin, intervalMax)
      && (Min(intervalMin, intervalMax) > 0.0 ==> r.value.pulseActiveUntil == None && !IsPulseActive(r.value, t))
  {
    var ended := EndPulse(s, t, intervalMin, intervalMax, g);
    assert ended.value.pulseActiveUntil == None;
  }

  /** With the end rule first, a pulse started at t stays on through its
      window: a call at any t2 in [t, t + pulseDuration] changes nothing, takes
      no draw, and finds the jammer active. */
  lemma PulseActiveThroughWindow(s: PulseState, t: real, t2: real, pulseDuration: real,
                                 intervalMin: real, intervalMax: real, g: Rng)
    requires Valid(g) && s.pulseActiveUntil == Some(t + pulseDuration) && t <= t2 <= t + pulseDuration
    ensures var r := PulseUpdateEndFirst(s, t2, pulseDuration, intervalMin, intervalMax, g);
      r.value == s && r.rest == g && IsPulseActive(r.value, t2)
  {
  }

  /** The same input as StuckPulseExample under the corrected order: the call
      at 20 ends the pulse, reschedules the next one 1 to 3 seconds later, and
      leaves the jammer inactive. */
  lemma EndedPulseExample(g: Rng)
    requires Valid(g)
    ensures var first := PulseUpdateEndFirst(PulseState(10.0, None), 10.0, 0.5, 1.0, 3.0, g);
            var second := PulseUpdateEndFirst(first.value, 20.0, 0.5, 1.0, 3.0, first.rest);
            && first.value == PulseState(10.0, Some(10.5))
            && second.value.pulseActiveUntil == None
            && 21.0 <= second.value.nextPulseTime <= 23.0
            && second.rest == Skip(g, 1)
            && !IsPulseActive(second.value, 20.0)
  {
    var first := PulseUpdateEndFirst(PulseState(10.0, None), 10.0, 0.5, 1.0, 3.0, g);
    assert first.value == PulseState(10.0, Some(10.5)) && first.rest == g;
    PulseEndsWhenOver(first.value, 20.0, 0.5, 1.0, 3.0, g);
  }

  /** A pulse that starts at t keeps the jammer active for exactly the window
      [t, t + pulseDuration]. */
  lemma PulseWindow(s: PulseState, t: real, t2: real, pulseDuration: real,
                    intervalMin: real, intervalMax: real, g: Rng)
    requires Valid(g) && pulseDuration >= 0.0
    requires t >= s.nextPulseTime && !IsPulseActive(s, t)
    ensures PulseUpdate(s, t, pulseDuration, intervalMin, intervalMax, g).value
            == s.(pulseActiveUntil := Some(t + pulseDuration))
    ensures IsPulseActive(s.(pulseActiveUntil := Some(t + pulseDuration)), t2) <==> t2 <= t + pulseDuration
  {
  }

  /** The probability used for the hit draw: raised by 0.5, capped at 1, while a
      pulse is active; never below the base probability nor above 1 for a base
      in [0, 1]. */
  function EffectiveProbability(jammingProbability: real, active: bool): (p: real)
    ensures active ==> p == Min(1.0, jammingProbability + 0.5)
    ensures !active ==> p == jammingProbability
    ensures 0.0 <= jammingProbability <= 1.0 ==> jammingProbability <= p <= 1.0
  {
    if active then Min(1.0, jammingProbability + 0.5) else jammingProbability
  }

  class PulsedNoiseJammer {
    const jammingProbability: real
    const noiseIntensity: real
    const jammingPowerDbm: real
    const pulseIntervalMin: real
    const pulseIntervalMax: real
    const pulseDuration: real
    var nextPulseTime: real
    var pulseActiveUntil: Option<real>

    function State(): PulseState
      reads this
    {
      PulseState(nextPulseTime, pulseActiveUntil)
    }

    ghost predicate Valid()
      reads this
    {
      Scheduled(State(), pulseDuration)
    }

    /** The first pulse is scheduled uniform(min, max) after now (one draw: the
        caller's generator continues at Skip(g, 1)); no pulse is active. */
    constructor (jammingProbability: real, noiseIntensity: real, jammingPowerDbm: real,
                 pulseIntervalMin: real, pulseIntervalMax: real, pulseDuration: real,
                 now: real, g: Rng)
      requires Generator.Valid(g)
      ensures Valid()
      ensures this.jammingProbability == jammingProbability && this.noiseIntensity == noiseIntensity
      ensures this.jammingPowerDbm == jammingPowerDbm && this.pulseDuration == pulseDuration
      ensures this.pulseIntervalMin == pulseIntervalMin && this.pulseIntervalMax == pulseIntervalMax
      ensures nextPulseTime == now + Uniform(g, pulseIntervalMin, pulseIntervalMax).value
      ensures Min(pulseIntervalMin, pulseIntervalMax) <= nextPulseTime - now <= Max(pulseIntervalMin, pulseIntervalMax)
      ensures pulseActiveUntil == None
    {
      this.jammingProbability := jammingProbability;
      this.noiseIntensity := noiseIntensity;
      this.jammingPowerDbm := jammingPowerDbm;
      this.pulseIntervalMin := pulseIntervalMin;
      this.pulseIntervalMax := pulseIntervalMax;
      this.pulseDuration := pulseDuration;
      nextPulseTime := now + Uniform(g, pulseIntervalMin, pulseIntervalMax).value;
      pulseActiveUntil := None;
    }

    function IsPulseActiveAt(t: real): bool
      reads this
    {
      IsPulseActive(State(), t)
    }

    /** _update_pulse_status(now): the two rules applied to the fields in turn. */
    method UpdatePulseStatus(now: real, g: Rng) returns (rest: Rng)
      requires Valid() && Generator.Valid(g)
      modifies this
      ensures Valid() && Generator.Valid(rest)
      ensures Drawn(State(), rest)
           == PulseUpdate(old(State()), now, pulseDuration, pulseIntervalMin, pulseIntervalMax, g)
      ensures pulseDuration >= 0.0 ==> pulseActiveUntil.None? || now <= pulseActiveUntil.value
      ensures pulseDuration >= 0.0 ==> rest == g && nextPulseTime == old(nextPulseTime)
    {
      UpdateLeavesNoStalePulse(State(), now, pulseDuration, pulseIntervalMin, pulseIntervalMax, g);
      PulseNeverEnds(State(), now, pulseDuration, pulseIntervalMin, pulseIntervalMax, g);
      rest := g;
      if now >= nextPulseTime && !IsPulseActiveAt(now) {
        pulseActiveUntil := Some(now + pulseDuration);
      }
      if IsSet(pulseActiveUntil) && now > pulseActiveUntil.value {
        var gap := Uniform(g, pulseIntervalMin, pulseIntervalMax);
        nextPulseTime := now + gap.value;
        rest := gap.rest;
        pulseActiveUntil := None;
      }
    }

    /** jam_signal at time now: update the pulse state, then strike with the
        effective probability and the ±0.05 degree, ±50 metre perturbation. */
    method JamSignal(now: real, message: Message, g: Rng) returns (r: JamOutcome<Message>)
      requires Valid() && Generator.Valid(g)
      modifies this
      ensures Valid() && Generator.Valid(r.rest)
      ensures
        var u := PulseUpdate(old(State()), now, pulseDuration, pulseIntervalMin, pulseIntervalMax, g);
        && State() == u.value
        && r == Strike(EffectiveProbability(jammingProbability, IsPulseActive(u.value, now)),
                       noiseIntensity, message, u.rest, 0.05, 50.0)
    {
      var afterUpdate := UpdatePulseStatus(now, g);
      var p := EffectiveProbability(jammingProbability, IsPulseActiveAt(now));
      r := Strike(p, noiseIntensity, message, afterUpdate, 0.05, 50.0);
    }
  }
}
