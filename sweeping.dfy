/** The sweeping (frequency-hopping) jammer: it hops to a frequency chosen from
    its list once hop_interval has elapsed since the last hop. The hit decision
    uses the fixed jamming_probability whatever the current frequency. */
module Sweeping {
  import opened Reals
  import opened Generator
  import opened Telemetry
  import opened Jamming

  // The constructor's defaults: jamming_probability, noise_intensity,
  // jamming_power_dbm and hop_interval.
  const DefaultJammingProbability: real := 0.3
  const DefaultNoiseIntensity: real := 0.7
  const DefaultJammingPowerDbm: real := -70.0
  const DefaultHopInterval: real := 2.0

  /** The list used when none, or an empty one, is given. */
  const DefaultFrequencies: seq<real> := [907e6, 915e6, 920e6, 925e6]

  /** `frequency_list or [907e6, 915e6, 920e6, 925e6]`: never empty. */
  function FrequencyListOrDefault(frequencyList: Option<seq<real>>): (fs: seq<real>)
    ensures |fs| > 0
    ensures frequencyList.Some? && frequencyList.value != [] ==> fs == frequencyList.value
    ensures frequencyList.None? || frequencyList.value == [] ==> fs == DefaultFrequencies
  {
    if frequencyList.Some? && frequencyList.value != [] then frequencyList.value else DefaultFrequencies
  }

  /** The hopping state: current_frequency and last_hop_time. */
  datatype HopState = HopState(currentFrequency: real, lastHopTime: real)

  /** _maybe_hop_frequency at time now: once hop_interval has elapsed, choose a
      new frequency from the list (one draw) and restart the interval at now;
      before that nothing changes and nothing is drawn. */
  function MaybeHop(s: HopState, frequencyList: seq<real>, hopInterval: real, now: real, g: Rng): (r: Drawn<HopState>)
    requires Valid(g) && |frequencyList| > 0
    ensures Valid(r.rest)
    ensures now - s.lastHopTime >= hopInterval ==>
      && r.value.lastHopTime == now
      && r.value.currentFrequency in frequencyList
      && r.value.currentFrequency == Choice(g, frequencyList).value
      && r.rest == Skip(g, 1)
    ensures now - s.lastHopTime < hopInterval ==> r.value == s && r.rest == g
    ensures s.currentFrequency in frequencyList ==> r.value.currentFrequency in frequencyList
  {
    if now - s.lastHopTime >= hopInterval then
      var pick := Choice(g, frequencyList);
      Drawn(HopState(pick.value, now), pick.rest)
    else
      Drawn(s, g)
  }

  /** The state after a run of calls at the given times, in order. */
  function HopRun(s: HopState, frequencyList: seq<real>, hopInterval: real, times: seq<real>, g: Rng): (r: Drawn<HopState>)
    requires Valid(g) && |frequencyList| > 0
    ensures Valid(r.rest)
    decreases |times|
  {
    if times == [] then Drawn(s, g)
    else
      var step := MaybeHop(s, frequencyList, hopInterval, times[0], g);
      HopRun(step.value, frequencyList, hopInterval, times[1..], step.rest)
  }

  /** However many calls are made and whenever, the current frequency stays a
      member of the list, and the last hop time is either the original one or
      one of the call times. */
  lemma {:induction false} HopRunStaysInList(s: HopState, frequencyList: seq<real>, hopInterval: real,
                                            times: seq<real>, g: Rng)
    requires Valid(g) && |frequencyList| > 0 && s.currentFrequency in frequencyList
    ensures HopRun(s, frequencyList, hopInterval, times, g).value.currentFrequency in frequencyList
    ensures var t := HopRun(s, frequencyList, hopInterval, times, g).value.lastHopTime;
            t == s.lastHopTime || t in times
    decreases |times|
  {
    if times != [] {
      var step := MaybeHop(s, frequencyList, hopInterval, times[0], g);
      HopRunStaysInList(step.value, frequencyList, hopInterval, times[1..], step.rest);
      var t := HopRun(step.value, frequencyList, hopInterval, times[1..], step.rest).value.lastHopTime;
      assert t == step.value.lastHopTime || t in times[1..];
    }
  }

  class SweepingJammer {
    const jammingProbability: real
    const noiseIntensity: real
    const jammingPowerDbm: real
    const hopInterval: real
    const frequencyList: seq<real>
    var currentFrequency: real
    var lastHopTime: real

    function State(): HopState
      reads this
    {
      HopState(currentFrequency, lastHopTime)
    }

    ghost predicate Valid()
      reads this
    {
      |frequencyList| > 0 && currentFrequency in frequencyList
    }

    /** The list defaults as above; the first frequency is a choice from it (one
        draw: the caller's generator continues at Skip(g, 1)); the last hop is now. */
    constructor (jammingProbability: real, noiseIntensity: real, jammingPowerDbm: real,
                 hopInterval: real, frequencyList: Option<seq<real>>, now: real, g: Rng)
      requires Generator.Valid(g)
      ensures Valid()
      ensures this.jammingProbability == jammingProbability && this.noiseIntensity == noiseIntensity
      ensures this.jammingPowerDbm == jammingPowerDbm && this.hopInterval == hopInterval
      ensures this.frequencyList == FrequencyListOrDefault(frequencyList)
      ensures currentFrequency == Choice(g, this.frequencyList).value && lastHopTime == now
    {
      this.jammingProbability := jammingProbability;
      this.noiseIntensity := noiseIntensity;
      this.jammingPowerDbm := jammingPowerDbm;
      this.hopInterval := hopInterval;
      var fs := FrequencyListOrDefault(frequencyList);
      this.frequencyList := fs;
      currentFrequency := Choice(g, fs).value;
      lastHopTime := now;
    }

    /** _maybe_hop_frequency, with the clock reading now. */
    method MaybeHopFrequency(now: real, g: Rng) returns (rest: Rng)
      requires Valid() && Generator.Valid(g)
      modifies this
      ensures Valid() && Generator.Valid(rest)
      ensures Drawn(State(), rest) == MaybeHop(old(State()), frequencyList, hopInterval, now, g)
      ensures now - old(lastHopTime) < hopInterval ==> currentFrequency == old(currentFrequency) && lastHopTime == old(lastHopTime)
    {
      rest := g;
      if now - lastHopTime >= hopInterval {
        var pick := Choice(g, frequencyList);
        currentFrequency := pick.value;
        lastHopTime := now;
        rest := pick.rest;
      }
    }

    /** jam_signal at time now: maybe hop, then strike with the fixed
        jamming_probability and the ±0.1 degree, ±100 metre perturbation. */
    method JamSignal(now: real, message: Message, g: Rng) returns (r: JamOutcome<Message>)
      requires Valid() && Generator.Valid(g)
      modifies this
      ensures Valid() && Generator.Valid(r.rest)
      ensures
        var h := MaybeHop(old(State()), frequencyList, hopInterval, now, g);
        && State() == h.value
        && r == Strike(jammingProbability, noiseIntensity, message, h.rest, 0.1, 100.0)
    {
      var afterHop := MaybeHopFrequency(now, g);
      r := Strike(jammingProbability, noiseIntensity, message, afterHop, 0.1, 100.0);
    }
  }
}
