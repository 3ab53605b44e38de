# Drone telemetry channel and adversarial-effects engine, in Dafny

This project models the part of the drone simulator that acts on a telemetry
report `(drone_id, latitude, longitude, altitude, timestamp)` on its way to the
ground station. There are two channel models (`ADSBChannel` and `Channel`), four
jammers (continuous-wave, directional, pulsed-noise, sweeping) and the position
spoofer. Each one returns the message unchanged, a perturbed copy, or a loss
(`None`), together with a flag.

Modelling choices:

- **Randomness.** Python's global generator is made explicit as
  `Generator.Rng`: an infinite stream of `random()` draws, each in [0, 1), and a
  cursor. `uniform(a, b)` uses one draw, `u`, and gives `a + (b - a) * u`, as
  CPython computes it. `choice(xs)` is modelled as one draw, `u`, giving
  `xs[floor(u * |xs|)]`. This one draw is a convention of the model; only the
  membership of the result is meant to match CPython (see "## Left out").
  Every operation returns the generator state it leaves.
  So the contracts state how many draws were used and which ones. One example is
  the short-circuit `or` in `transmit`: no `error_rate` draw is taken when the
  SNR is negative.
- **Clock.** Each `time.time()` reading is a `now` parameter.
- **Transcendental functions.** `sin`, `cos`, `atan2`, `sqrt` and `log10` are
  not modelled. A `GeoMath.MathLib` value supplies them. A property that needs a
  fact about one of them takes that fact as a precondition, for example
  `GeoMath.Log10Monotone`.
- **Members without a contract of their own.** These are stated through the members that use them:
  the formulas `GeoMath.Haversine`, `GeoMath.Bearing`,
  `Propagation.ThermalNoisePower` and `Propagation.Snr`, and the predicates
  `PulsedNoise.IsPulseActive` (`is_pulse_active`) and `PulsedNoise.IsSet`. The
  predicates model a truth test on `pulse_active_until`, under which `0.0`
  counts as unset. Also these members:
  - the update `PulsedNoise.PulseUpdate` (`_update_pulse_status`, pls_ns_jammer.py:66-79), which runs the start rule and then the end rule. It is stated through `PulseNeverEnds`, `PulseRunNeverEnds` and `UpdateLeavesNoStalePulse`;
  - `Directional.AngularDifference` (`_angular_difference`, direc_jammer.py:69-80), stated through `BeamProbability` and `AimPointInBeam`;
  - `Adsb.SnrAt` and `RadioChannel.SnrAt`, the SNR assembly of adsbchannel.py:60-65 and channel.py:66-71, stated through the `Transmit` contracts.
- **Defaults.** Each constructor's default arguments are module constants:
  - `Default` in `ContinuousWave`, `Adsb` and `RadioChannel`;
  - `Directional.Default(target)`;
  - the `Default…` constants of `PulsedNoise`, `Sweeping` and `Spoofing`.
- **Stateful components.** `PulsedNoiseJammer`, `SweepingJammer` and `Spoofer`
  are classes with the source's fields. Configuration fields are `const`, so no
  method can change them. `jamming_signal_power()` is the `const` field
  `jammingPowerDbm` of each jammer; for the two stateless jammers it is the
  datatype field. Each state-changing method is tied to a pure step function:
  `PulseUpdate`, `MaybeHop` or `Spoof`. The lemmas are proved about that
  function.

Where a docstring and the code say different things, this model follows the
code:

- `_angular_difference` is documented as a "bearing difference"
  (direc_jammer.py:71), but it returns the initial bearing from the aim point to
  the report (direc_jammer.py:73-80), which is compared with half the beam width.
- `_maybe_hop_frequency` is documented as switching "to a different frequency"
  (swp_jammer.py:57), but `random.choice` may return the frequency already in
  use (swp_jammer.py:62).
- `_update_pulse_status` is documented as ending a pulse when its duration is
  complete and then rescheduling the next one (pls_ns_jammer.py:67-70). As written,
  with a non-negative duration the end rule never fires; see "## Findings".

Two further facts about the code:

- `transmit` evaluates `snr_db < 0 or random.random() < self.error_rate`
  left to right and stops at a true first operand, so no draw is taken when the
  SNR is negative.
- No constructor validates its arguments.
- `PulsedNoiseJammer`'s test of `pulse_active_until` treats `0.0` as unset. The
  invariant `PulsedNoise.Scheduled` holds in every reachable state. It implies
  `PulsedNoise.Consistent`, under which, for a non-negative `pulse_duration`,
  this test never leaves a pulse end that the clock has already passed.

## Model

| member | source | states |
|---|---|---|
| Generator.Random | cw_jammer.py:23 | `random()`: the next draw, in [0, 1); exactly one draw is used |
| Generator.Uniform | pls_ns_jammer.py:52 | `uniform(a, b)`: one draw, scaled to lie between a and b, in either order |
| Generator.Choice | swp_jammer.py:29 | `choice(xs)` on a non-empty list: one draw; the result is a member of the list |
| Telemetry.Perturb | pls_ns_jammer.py:52-54 | latitude, then longitude, then altitude get a uniform shift within the bounds; identity and timestamp are kept; exactly three draws are used |
| Jamming.Strike | pls_ns_jammer.py:46-56 | hit iff the first draw is below the probability; on a miss, the message itself and False, after one draw; on a hit with the second draw below noise_intensity, loss and True, after two draws; otherwise a bounded perturbation and True, after five draws; a loss always reports jammed |
| ContinuousWave.JamSignal | cw_jammer.py:19-27 | jammed iff the draw is below jamming_probability, iff the message is lost; otherwise the message itself and False; one draw |
| ContinuousWave.CertainJamming | cw_jammer.py:23-26 | with jamming_probability at least 1, every message gives (None, True) |
| ContinuousWave.NoJamming | cw_jammer.py:23-27 | with jamming_probability at most 0, every message passes unchanged with False |
| ContinuousWave.NoiseIntensityUnused | cw_jammer.py:9-27 | the stored noise_intensity never changes the result |
| Directional.BeamProbability | direc_jammer.py:58-67 | within half the beam width the probability is min(1, 2p), outside it is p; for p in [0, 1] the result lies in [p, 1] |
| Directional.AimPointInBeam | direc_jammer.py:58-80 | given sin 0 = 0, cos 0 = 1 and atan2(0, 0) = 0, a report at the aim point faces min(1, 2p) for any non-negative beam width |
| GeoMath.BearingSamePoint | direc_jammer.py:69-80 | from the same point values, the bearing from a point to itself is 0 |
| Directional.JamSignal | direc_jammer.py:32-52 | a missing latitude or longitude gives (message, False) with no draw used; otherwise the hit uses the beam probability, a second draw below noise_intensity loses the message, and a partial hit moves latitude and longitude by at most 0.05 and altitude by at most 50 with the other fields kept; a miss returns the message unchanged |
| PulsedNoise.StartPulse | pls_ns_jammer.py:72-74 | at or after next_pulse_time with no pulse active, pulse_active_until becomes t + pulse_duration; otherwise nothing changes |
| PulsedNoise.EndPulse | pls_ns_jammer.py:76-79 | the end rule on its own: a set pulse end that t has passed is cleared, and next_pulse_time becomes t + u with u between the interval bounds (one draw); with non-negative bounds the next pulse is strictly after the ended one; otherwise nothing changes and no draw is used. In the code's order this branch is reached only for a negative duration (see PulseNeverEnds) |
| PulsedNoise.UpdateLeavesNoStalePulse | pls_ns_jammer.py:66-79 | the update preserves the reachable-state invariant; with pulse_duration >= 0, afterwards pulse_active_until is None or t is at most pulse_active_until |
| PulsedNoise.PulseWindow | pls_ns_jammer.py:62-74 | a call at or after next_pulse_time with no pulse active starts a pulse ending at t + pulse_duration and nothing else changes; read on that state alone, is_pulse_active(t2) holds iff t2 <= t + pulse_duration. A later call re-starts the pulse (PulseNeverEnds), so this is not the jammer's active window |
| PulsedNoise.PulseNeverEnds | pls_ns_jammer.py:72-79 | the update keeps the invariant Scheduled; for a non-negative duration it takes no draw, never changes next_pulse_time, and at any t >= next_pulse_time leaves the jammer active |
| PulsedNoise.PulseRunNeverEnds | pls_ns_jammer.py:66-79 | over any run of calls with a non-negative duration: no draw, next_pulse_time keeps its initial value, and a last call at or after it finds the jammer active |
| PulsedNoise.StuckPulseExample | pls_ns_jammer.py:72-79 | duration 0.5, first pulse due at 10: calls at 10 and 20 give pulse_active_until 20.5, next_pulse_time still 10, no draw, active at 20 |
| PulsedNoise.PulseUpdateEndFirst | pls_ns_jammer.py:66-79 | the update with the end rule before the start rule; the generator stays valid |
| PulsedNoise.PulseEndsWhenOver | pls_ns_jammer.py:67-70 | in the corrected order a set pulse end that t has passed ends the pulse: one draw, the next pulse between the interval bounds after t, and for a positive lower bound no pulse end set and the jammer inactive at t |
| PulsedNoise.PulseActiveThroughWindow | pls_ns_jammer.py:67-70 | in the corrected order a pulse started at t stays on through its window: a call at any t2 in [t, t + pulse_duration] changes nothing, takes no draw and finds the jammer active |
| PulsedNoise.EndedPulseExample | pls_ns_jammer.py:67-70 | the same two calls in the corrected order: the call at 20 ends the pulse, the next one is due in [21, 23], one draw, inactive at 20 |
| PulsedNoise.EffectiveProbability | pls_ns_jammer.py:41-44 | min(1, p + 0.5) while a pulse is active, p otherwise; for p in [0, 1] it lies in [p, 1] |
| PulsedNoise.PulsedNoiseJammer.constructor | pls_ns_jammer.py:9-31 | configuration is stored; the first pulse is scheduled between the interval bounds after now; no pulse is active |
| PulsedNoise.PulsedNoiseJammer.UpdatePulseStatus | pls_ns_jammer.py:66-79 | the fields become PulseUpdate of the old fields; the invariant Scheduled is kept; for a non-negative duration no stale pulse is left, no draw is taken and next_pulse_time is unchanged |
| PulsedNoise.PulsedNoiseJammer.JamSignal | pls_ns_jammer.py:33-56 | the pulse state is updated at now; then a strike with the effective probability for that state and the 0.05 / 50 perturbation |
| Sweeping.FrequencyListOrDefault | swp_jammer.py:28 | a missing or empty list becomes [907e6, 915e6, 920e6, 925e6]; the result is never empty |
| Sweeping.MaybeHop | swp_jammer.py:55-63 | once hop_interval has elapsed, the new frequency is a member of the list, last_hop_time becomes now, and one draw is used; before that nothing changes and nothing is drawn; membership is preserved |
| Sweeping.HopRunStaysInList | swp_jammer.py:59-62 | over any run of calls the current frequency stays in the list, and the last hop time is the initial one or one of the call times |
| Sweeping.SweepingJammer.constructor | swp_jammer.py:9-30 | the list is defaulted; the first frequency is a choice from it, so the invariant "current frequency is in the list" holds; last_hop_time is now |
| Sweeping.SweepingJammer.MaybeHopFrequency | swp_jammer.py:55-63 | the fields become MaybeHop of the old fields; before hop_interval has elapsed, frequency and last hop time are unchanged |
| Sweeping.SweepingJammer.JamSignal | swp_jammer.py:32-49 | maybe hop; then a strike against the fixed jamming_probability, with no dependence on the frequency, and the 0.1 / 100 perturbation |
| Spoofing.Spoof | spoofer.py:20-42 | spoofed iff the draw is below spoof_probability; on a spoof the offsets grow by one step each, the position is the input's plus the grown offsets, the timestamp is kept, and the identity is the fake one iff the second draw is below 0.5; otherwise message and offsets are unchanged; offsets never decrease |
| Spoofing.SpoofRunDrift | spoofer.py:24-26 | after a run of messages, each offset equals its start plus k steps, where k is the number of spoofs triggered |
| Spoofing.NeverSpoofing | spoofer.py:22-42 | with spoof_probability at most 0, a run returns every message unchanged and the offsets untouched |
| Spoofing.Spoofer.constructor | spoofer.py:6-18 | offsets start at 0; the invariant "offsets = spoof count × step" holds |
| Spoofing.Spoofer.SpoofMessage | spoofer.py:20-42 | the result and the new offsets are those of Spoof on the old offsets; the invariant is kept; the spoof count grows by one exactly on a spoof |
| GeoMath.HaversineSamePoint | adsbchannel.py:19-34 | given sin 0 = 0, sqrt 0 = 0, sqrt 1 = 1 and atan2(0, 1) = 0, a point is at distance 0 from itself |
| GeoMath.Round2 | adsbchannel.py:54 | `np.round(x, 2)`: within 0.005 of x, and non-negative for non-negative x |
| Propagation.FreeSpacePathLoss | adsbchannel.py:88-98 | path loss is 0 for a distance of 0 or less |
| Propagation.PathLossMonotone | adsbchannel.py:96-97 | for a positive frequency and a non-decreasing log10, path loss does not decrease as a positive distance grows |
| Propagation.SnrNonIncreasing | adsbchannel.py:60-65 | with everything else fixed, the SNR does not increase as a positive distance grows |
| Propagation.DelayNs | adsbchannel.py:53-54 | the delay in ns is within 0.005 of distance / c × 1e9, and non-negative for a non-negative distance |
| Propagation.CorruptMessage | adsbchannel.py:75-86 | latitude and longitude move by at most 0.01 and altitude by at most 10; identity and timestamp are kept; three draws are used |
| Adsb.Transmit | adsbchannel.py:36-73 | corrupted iff the SNR is below 0 or the draw is below error_rate; a negative SNR uses no error_rate draw; an uncorrupted message is returned unchanged; a corrupted one is a bounded perturbation; the delay is DelayNs of the distance; error_rate >= 1 always corrupts |
| RadioChannel.Transmit | channel.py:47-79 | the same decision as Adsb.Transmit, also returning snr_db = tx − path loss − (noise + noise figure); nothing in the contract depends on delay_mean or delay_std |

## Left out

- `time.sleep(delay_seconds)` (adsbchannel.py:57, channel.py:63) blocks in real time. Only the computed delay is modelled.
- All `print` logging in the jammers is left out, because it is output only.
- Haversine symmetry and the range of the bearing are not proved. Both need trigonometric identities over all arguments, and the model only assumes values at fixed points. The beam rule is stated in terms of the bearing's value.
- IEEE double and `np.float64` rounding are not modelled. Numbers are reals, and `np.round` is modelled exactly as round-half-to-even on reals.
- Statistical claims about the generator are left out. Draws are only known to lie in [0, 1).
- The two scenario drivers (`scenario_statistics.py`, `n_scen_stat.py`) and the 3-D animation (`exe.py`) are not modelled. They only loop over these components and plot the results.
- Constructors of the pulsed and sweeping jammers use one draw but cannot hand back the generator. Callers continue at `Skip(g, 1)`.
- Generator.Choice: charges `random.choice` one abstract draw by convention. CPython's `choice` uses no `random()` result. It calls `_randbelow`, which draws `getrandbits(k)` in a rejection loop, possibly more than once. So the draw count and the chosen index do not match CPython's generator; only membership of the result does.
- Propagation.FreeSpacePathLoss, Adsb.SnrAt, RadioChannel.SnrAt: require a non-zero frequency at a positive distance, for the reason given on the next line.
- Adsb.Transmit, RadioChannel.Transmit: both require a non-zero carrier frequency when the distance is positive, the only case in which the source divides by it. There `Channel` raises `ZeroDivisionError` and `ADSBChannel` gets an infinite wavelength and an infinitely negative path loss, neither of which a real number can represent.
- Propagation.PathLossMonotone: stated for positive distances only. For 0 < d < wavelength / 4π the formula gives a negative loss, which is below the 0 returned at d ≤ 0.
- PulsedNoise.PulsedNoiseJammer.JamSignal: returns the updated message as a value. It does not model that Python mutates the caller's dict in place, so aliasing between caller and result is not captured.
- Sweeping.SweepingJammer.JamSignal: returns the updated message as a value. It does not model the in-place mutation of the caller's dict.
- Directional.JamSignal: returns the updated report as a value. It does not model the in-place mutation of the caller's dict.
- Adsb.Transmit: "returned unchanged" is value equality, not object identity. The copy made by `corrupt_message` is implicit in value semantics.
- RadioChannel.Transmit: "returned unchanged" is value equality, not object identity.

## Findings

| source | as written | input that shows it | evidently intended | confidence | as-written member | corrected member |
|---|---|---|---|---|---|---|
| pls_ns_jammer.py:72-79 | the start rule (:73) runs before the end rule (:77); when a pulse's end has passed, the start rule first starts a new pulse ending after t, so with pulse_duration >= 0 the end rule never fires, next_pulse_time is never rescheduled and every call from the first scheduled time on uses min(1, p + 0.5) | pulse_duration 0.5, next_pulse_time 10, pulse_active_until None; calls at t = 10 and t = 20 give pulse_active_until 20.5 and next_pulse_time 10 | short pulses at random intervals: a pulse ends once its duration is over and the next one is rescheduled (docstrings at :5-8 and :67-70) | high; not executed | PulsedNoise.PulseNeverEnds, PulsedNoise.PulseRunNeverEnds, PulsedNoise.StuckPulseExample | PulsedNoise.PulseUpdateEndFirst, PulsedNoise.PulseEndsWhenOver, PulsedNoise.PulseActiveThroughWindow, PulsedNoise.EndedPulseExample |

`PulsedNoise.PulsedNoiseJammer` models the class as written, so that its methods match the source line by line. The corrected order is stated and proved on the pure update, beside it.
