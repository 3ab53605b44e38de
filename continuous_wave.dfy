/** The continuous-wave jammer: a hit always loses the message outright. */
module ContinuousWave {
  import opened Generator
  import opened Telemetry
  import opened Jamming

  /** Configuration only; noiseIntensity is stored and never read.
      jamming_signal_power() is the field jammingPowerDbm. */
  datatype ContinuousWaveJammer = ContinuousWaveJammer(
    jammingProbability: real,
    noiseIntensity: real,
    jammingPowerDbm: real)

  const Default := ContinuousWaveJammer(0.5, 0.7, -70.0)

  /** One draw against jamming_probability: (None, True) on a hit, the message itself and False otherwise. */
  function JamSignal(j: ContinuousWaveJammer, m: Message, g: Rng): (r: JamOutcome<Message>)
    requires Valid(g)
    ensures r.jammed <==> Peek(g, 0) < j.jammingProbability
    ensures r.jammed <==> r.message == None
    ensures !r.jammed ==> r.message == Some(m)
    ensures r.rest == Skip(g, 1) && Valid(r.rest)
  {
    var hit := Random(g);
    if hit.value < j.jammingProbability then JamOutcome(None, true, hit.rest)
    else JamOutcome(Some(m), false, hit.rest)
  }

  /** With jamming_probability at least 1 every message is lost. */
  lemma CertainJamming(j: ContinuousWaveJammer, m: Message, g: Rng)
    requires Valid(g) && j.jammingProbability >= 1.0
    ensures JamSignal(j, m, g).message == None && JamSignal(j, m, g).jammed
  {
    assert Peek(g, 0) < 1.0 by { var _ := Random(g); }
  }

  /** With jamming_probability at most 0 every message passes untouched. */
  lemma NoJamming(j: ContinuousWaveJammer, m: Message, g: Rng)
    requires Valid(g) && j.jammingProbability <= 0.0
    ensures JamSignal(j, m, g).message == Some(m) && !JamSignal(j, m, g).jammed
  {
    assert Peek(g, 0) >= 0.0 by { var _ := Random(g); }
  }

  /** The stored noise intensity never affects the outcome. */
  lemma NoiseIntensityUnused(j: ContinuousWaveJammer, noise: real, m: Message, g: Rng)
    requires Valid(g)
    ensures JamSignal(j.(noiseIntensity := noise), m, g) == JamSignal(j, m, g)
  {
  }
}
