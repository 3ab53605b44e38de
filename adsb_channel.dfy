/** The ADS-B channel: distance, delay, path loss and thermal noise give an SNR;
    a negative SNR, or failing that a draw below error_rate, corrupts the message. */
module Adsb {
  import opened Reals
  import opened Generator
  import opened GeoMath
  import opened Telemetry
  import opened Propagation

  /** Configuration; the speed of light is Propagation.LightSpeed. */
  datatype AdsbChannel = AdsbChannel(errorRate: real, frequency: real, noiseFigureDb: real)

  const Default := AdsbChannel(0.01, 1090e6, 5.0)
  const DefaultTxPowerDbm: real := 50.0
  const DefaultBandwidthHz: real := 1e6

  /** transmit(message, gcs_position, tx_power_dbm, bandwidth_hz), returning
      (message, delay_ns, corrupted) and the generator state after the call. */
  method Transmit(ch: AdsbChannel, lib: MathLib, message: Message, gcs: GeoPosition,
                  txPowerDbm: real, bandwidthHz: real, g: Rng)
    returns (received: Message, delayNs: real, corrupted: bool, rest: Rng)
    requires Valid(g)
    // the wavelength divides by the frequency only at a positive distance
    requires ch.frequency != 0.0 || Haversine(lib, message.latitude, message.longitude, gcs.latitude, gcs.longitude) <= 0.0
    ensures Valid(rest)
    ensures delayNs == DelayNs(Haversine(lib, message.latitude, message.longitude, gcs.latitude, gcs.longitude))
    ensures Haversine(lib, message.latitude, message.longitude, gcs.latitude, gcs.longitude) >= 0.0 ==> delayNs >= 0.0
    ensures corrupted <==> SnrAt(ch, lib, message, gcs, txPowerDbm, bandwidthHz) < 0.0 || Peek(g, 0) < ch.errorRate
    // a negative SNR corrupts without consulting error_rate: the three draws are the corruption's
    ensures SnrAt(ch, lib, message, gcs, txPowerDbm, bandwidthHz) < 0.0 ==>
      corrupted && received == CorruptMessage(message, g).value && rest == Skip(g, 3)
    // otherwise one draw is compared with error_rate, then three more corrupt on a hit
    ensures SnrAt(ch, lib, message, gcs, txPowerDbm, bandwidthHz) >= 0.0 ==>
      if corrupted then received == CorruptMessage(message, Skip(g, 1)).value && rest == Skip(g, 4)
      else received == message && rest == Skip(g, 1)
    ensures corrupted ==> Perturbed(message, received, 0.01, 10.0)
    ensures !corrupted ==> received == message
    ensures ch.errorRate >= 1.0 ==> corrupted
    ensures ch.errorRate <= 0.0 && SnrAt(ch, lib, message, gcs, txPowerDbm, bandwidthHz) >= 0.0 ==> !corrupted
  {
    var distance := Haversine(lib, message.latitude, message.longitude, gcs.latitude, gcs.longitude);
    delayNs := DelayNs(distance);
    var pathLossDb := FreeSpacePathLoss(lib, ch.frequency, distance);
    var noisePowerDbm := ThermalNoisePower(lib, bandwidthHz);
    var snrDb := Snr(txPowerDbm, pathLossDb, noisePowerDbm, ch.noiseFigureDb);
    received, corrupted, rest := message, false, g;
    if snrDb < 0.0 {
      var noisy := CorruptMessage(message, g);
      received, corrupted, rest := noisy.value, true, noisy.rest;
    } else {
      var draw := Random(g);
      rest := draw.rest;
      if draw.value < ch.errorRate {
        var noisy := CorruptMessage(message, rest);
        received, corrupted, rest := noisy.value, true, noisy.rest;
      }
    }
  }

  /** The SNR that transmit computes for this message and ground station. */
  function SnrAt(ch: AdsbChannel, lib: MathLib, message: Message, gcs: GeoPosition,
                 txPowerDbm: real, bandwidthHz: real): real
    requires ch.frequency != 0.0 || Haversine(lib, message.latitude, message.longitude, gcs.latitude, gcs.longitude) <= 0.0
  {
    var distance := Haversine(lib, message.latitude, message.longitude, gcs.latitude, gcs.longitude);
    Snr(txPowerDbm, FreeSpacePathLoss(lib, ch.frequency, distance),
        ThermalNoisePower(lib, bandwidthHz), ch.noiseFigureDb)
  }
}
