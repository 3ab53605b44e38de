/** The propagation formulas shared by both channel models: free-space path
    loss with its zero-distance guard, thermal noise, the signal-to-noise ratio,
    the propagation delay and the corruption of a received message. */
module Propagation {
  import opened Reals
  import opened Generator
  import opened GeoMath
  import opened Telemetry

  const LightSpeed: real := 3e8        // metres per second
  const Boltzmann: real := 1.38e-23    // joules per kelvin
  const ReferenceTemperature: real := 290.0   // kelvin

  /** Free-space path loss in dB: 20 log10(4 pi d / wavelength), and 0 for a
      distance that is not positive. */
  function FreeSpacePathLoss(lib: MathLib, frequency: real, distance: real): (loss: real)
    requires frequency != 0.0 || distance <= 0.0
    ensures distance <= 0.0 ==> loss == 0.0
  {
    if distance <= 0.0 then 0.0
    else
      var wavelength := LightSpeed / frequency;
      20.0 * lib.log10(4.0 * 3.141592653589793 * distance / wavelength)
  }

  /** For a positive carrier frequency and a non-decreasing log10, path loss does
      not decrease as a positive distance grows. */
  lemma PathLossMonotone(lib: MathLib, frequency: real, d1: real, d2: real)
    requires Log10Monotone(lib) && frequency > 0.0 && 0.0 < d1 <= d2
    ensures FreeSpacePathLoss(lib, frequency, d1) <= FreeSpacePathLoss(lib, frequency, d2)
  {
    var wavelength := LightSpeed / frequency;
    DivMonotone(LightSpeed, LightSpeed, frequency);
    DivMonotone(4.0 * 3.141592653589793 * d1, 4.0 * 3.141592653589793 * d2, wavelength);
  }

  /** Thermal noise power in dBm over the given bandwidth: 10 log10(k T B) + 30. */
  function ThermalNoisePower(lib: MathLib, bandwidthHz: real): real {
    10.0 * lib.log10(Boltzmann * ReferenceTemperature * bandwidthHz) + 30.0
  }

  /** SNR in dB: received power (transmit power less path loss) less the noise
      floor raised by the receiver's noise figure. */
  function Snr(txPowerDbm: real, pathLossDb: real, noisePowerDbm: real, noiseFigureDb: real): real {
    var rxPowerDbm := txPowerDbm - pathLossDb;
    rxPowerDbm - (noisePowerDbm + noiseFigureDb)
  }

  /** With everything else fixed, the SNR does not increase as a positive distance grows. */
  lemma SnrNonIncreasing(lib: MathLib, frequency: real, d1: real, d2: real,
                         txPowerDbm: real, noisePowerDbm: real, noiseFigureDb: real)
    requires Log10Monotone(lib) && frequency > 0.0 && 0.0 < d1 <= d2
    ensures Snr(txPowerDbm, FreeSpacePathLoss(lib, frequency, d2), noisePowerDbm, noiseFigureDb)
         <= Snr(txPowerDbm, FreeSpacePathLoss(lib, frequency, d1), noisePowerDbm, noiseFigureDb)
  {
    PathLossMonotone(lib, frequency, d1, d2);
  }

  /** The propagation delay distance / c, in nanoseconds and rounded to two
      decimals: never negative for a non-negative distance, and within 0.005 ns
      of the exact value. */
  function DelayNs(distance: real): (ns: real)
    ensures distance >= 0.0 ==> ns >= 0.0
    ensures Abs(ns - distance / LightSpeed * 1e9) <= 0.005
  {
    var delaySeconds := distance / LightSpeed;
    Round2(delaySeconds * 1e9)
  }

  /** corrupt_message: a copy of m with latitude and longitude moved by at most
      0.01 degrees and altitude by at most 10 metres (three draws). */
  function CorruptMessage(m: Message, g: Rng): (r: Drawn<Message>)
    requires Valid(g)
    ensures Perturbed(m, r.value, 0.01, 10.0)
    ensures r.rest == Skip(g, 3) && Valid(r.rest)
  {
    Perturb(m, g, 0.01, 10.0)
  }
}
