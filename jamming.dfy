/** What every jammer returns, and the strike rule that the directional, pulsed
    and sweeping jammers share: one draw against the effective probability
    decides a hit; on a hit a second draw against noise_intensity chooses total
    loss over a bounded perturbation of the position. */
module Jamming {
  import opened Generator
  import opened Telemetry

  /** (message or loss, jammed) and the generator state after the call. */
  datatype JamOutcome<M> = JamOutcome(message: Option<M>, jammed: bool, rest: Rng)

  function Strike(probability: real, noiseIntensity: real, m: Message, g: Rng,
                  latLonBound: real, altBound: real): (r: JamOutcome<Message>)
    requires Valid(g) && latLonBound >= 0.0 && altBound >= 0.0
    ensures Valid(r.rest)
    // a hit exactly when the first draw is below the effective probability
    ensures r.jammed <==> Peek(g, 0) < probability
    // a miss passes the message through and consumes one draw
    ensures !r.jammed ==> r.message == Some(m) && r.rest == Skip(g, 1)
    // a hit with the second draw below noise_intensity loses the message
    ensures r.jammed && Peek(g, 1) < noiseIntensity ==> r.message == None && r.rest == Skip(g, 2)
    // any other hit returns a bounded perturbation of the message
    ensures r.jammed && Peek(g, 1) >= noiseIntensity ==>
      && r.message.Some?
      && Perturbed(m, r.message.value, latLonBound, altBound)
      && r.message.value == Perturb(m, Skip(g, 2), latLonBound, altBound).value
      && r.rest == Skip(g, 5)
    // a lost message is always reported as jammed
    ensures r.message.None? ==> r.jammed
  {
    var hit := Random(g);
    if hit.value < probability then
      var loss := Random(hit.rest);
      if loss.value < noiseIntensity then
        JamOutcome(None, true, loss.rest)
      else
        var noisy := Perturb(m, loss.rest, latLonBound, altBound);
        JamOutcome(Some(noisy.value), true, noisy.rest)
    else
      JamOutcome(Some(m), false, hit.rest)
  }
}
