/** The position spoofer: each triggered spoof grows three drift accumulators by
    fixed steps and shifts a copy of the message by the accumulated drift,
    relabelling it with the fake identity on a second draw below 0.5. */
module Spoofing {
  import opened Reals
  import opened Generator
  import opened Telemetry

  const LatStep: real := 0.001   // degrees per spoof
  const LonStep: real := 0.001   // degrees per spoof
  const AltStep: real := 1.0     // metres per spoof

  // The constructor's defaults.
  const DefaultSpoofProbability: real := 0.3
  const DefaultFakeDroneId: string := "FAKE123"

  /** The accumulated drift: lat_offset, lon_offset, alt_offset. */
  datatype Offsets = Offsets(lat: real, lon: real, alt: real)

  const NoOffsets := Offsets(0.0, 0.0, 0.0)

  /** The drift after k more spoofs than acc. */
  function Drifted(acc: Offsets, k: nat): Offsets {
    Offsets(acc.lat + k as real * LatStep, acc.lon + k as real * LonStep, acc.alt + k as real * AltStep)
  }

  /** Each accumulator of b is at least that of a. */
  predicate NoLessThan(b: Offsets, a: Offsets) {
    b.lat >= a.lat && b.lon >= a.lon && b.alt >= a.alt
  }

  datatype SpoofOutcome = SpoofOutcome(message: Message, spoofed: bool, offsets: Offsets, rest: Rng)

  /** spoof_message: one draw against spoof_probability. On a hit the drift
      grows by one step, the copy's position is the input's plus the grown
      drift, the timestamp is kept, and a second draw below 0.5 replaces the
      identity with fakeDroneId. On a miss nothing changes. */
  function Spoof(spoofProbability: real, fakeDroneId: string, acc: Offsets, m: Message, g: Rng): (r: SpoofOutcome)
    requires Valid(g)
    ensures Valid(r.rest)
    ensures r.spoofed <==> Peek(g, 0) < spoofProbability
    ensures r.spoofed ==>
      && r.offsets == Drifted(acc, 1)
      && r.message.latitude == m.latitude + r.offsets.lat
      && r.message.longitude == m.longitude + r.offsets.lon
      && r.message.altitude == m.altitude + r.offsets.alt
      && r.message.timestamp == m.timestamp
      && r.message.droneId == (if Peek(g, 1) < 0.5 then fakeDroneId else m.droneId)
      && r.rest == Skip(g, 2)
    ensures !r.spoofed ==> r.message == m && r.offsets == acc && r.rest == Skip(g, 1)
    ensures r.message.droneId == m.droneId || r.message.droneId == fakeDroneId
    ensures NoLessThan(r.offsets, acc)
  {
    var trigger := Random(g);
    if trigger.value < spoofProbability then
      var grown := Offsets(acc.lat + LatStep, acc.lon + LonStep, acc.alt + AltStep);
      var shifted := m.(latitude := m.latitude + grown.lat,
                        longitude := m.longitude + grown.lon,
                        altitude := m.altitude + grown.alt);
      var mask := Random(trigger.rest);
      var relabelled := if mask.value < 0.5 then shifted.(droneId := fakeDroneId) else shifted;
      SpoofOutcome(relabelled, true, grown, mask.rest)
    else
      SpoofOutcome(m, false, acc, trigger.rest)
  }

  datatype SpoofRunOutcome = SpoofRunOutcome(messages: seq<Message>, flags: seq<bool>, offsets: Offsets, rest: Rng)

  /** The spoofer applied to a stream of messages in order, its drift carried
      from each message to the next. */
  function SpoofRun(spoofProbability: real, fakeDroneId: string, acc: Offsets, ms: seq<Message>, g: Rng): (r: SpoofRunOutcome)
    requires Valid(g)
    ensures Valid(r.rest) && |r.messages| == |ms| && |r.flags| == |ms|
    decreases |ms|
  {
    if ms == [] then SpoofRunOutcome([], [], acc, g)
    else
      var first := Spoof(spoofProbability, fakeDroneId, acc, ms[0], g);
      var others := SpoofRun(spoofProbability, fakeDroneId, first.offsets, ms[1..], first.rest);
      SpoofRunOutcome([first.message] + others.messages, [first.spoofed] + others.flags, others.offsets, others.rest)
  }

  /** The number of true flags. */
  function Triggered(flags: seq<bool>): nat {
    if flags == [] then 0 else (if flags[0] then 1 else 0) + Triggered(flags[1..])
  }

  /** After a run the drift has grown by exactly one step per triggered spoof:
      from zero, each offset is k times its step after k spoofs. */
  lemma {:induction false} SpoofRunDrift(spoofProbability: real, fakeDroneId: string, acc: Offsets,
                                         ms: seq<Message>, g: Rng)
    requires Valid(g)
    ensures var r := SpoofRun(spoofProbability, fakeDroneId, acc, ms, g);
            r.offsets == Drifted(acc, Triggered(r.flags))
    decreases |ms|
  {
    if ms != [] {
      var first := Spoof(spoofProbability, fakeDroneId, acc, ms[0], g);
      var others := SpoofRun(spoofProbability, fakeDroneId, first.offsets, ms[1..], first.rest);
      SpoofRunDrift(spoofProbability, fakeDroneId, first.offsets, ms[1..], first.rest);
      var flags := [first.spoofed] + others.flags;
      assert flags[1..] == others.flags;
      var k := Triggered(others.flags);
      if first.spoofed {
        assert Triggered(flags) == k + 1;
        assert Drifted(Drifted(acc, 1), k) == Drifted(acc, k + 1);
      } else {
        assert Triggered(flags) == k;
      }
    }
  }

  /** With spoof_probability at most 0 a run changes no message and no offset. */
  lemma {:induction false} NeverSpoofing(spoofProbability: real, fakeDroneId: string, acc: Offsets,
                                         ms: seq<Message>, g: Rng)
    requires Valid(g) && spoofProbability <= 0.0
    ensures var r := SpoofRun(spoofProbability, fakeDroneId, acc, ms, g);
            r.messages == ms && r.offsets == acc && Triggered(r.flags) == 0
    decreases |ms|
  {
    if ms != [] {
      var first := Spoof(spoofProbability, fakeDroneId, acc, ms[0], g);
      assert !first.spoofed by { var _ := Random(g); }
      var others := SpoofRun(spoofProbability, fakeDroneId, first.offsets, ms[1..], first.rest);
      NeverSpoofing(spoofProbability, fakeDroneId, first.offsets, ms[1..], first.rest);
      assert ([first.spoofed] + others.flags)[1..] == others.flags;
      assert [ms[0]] + ms[1..] == ms;
    }
  }

  class Spoofer {
    const spoofProbability: real
    const fakeDroneId: string
    var latOffset: real
    var lonOffset: real
    var altOffset: real
    ghost var spoofCount: nat   // spoofs triggered so far

    function Current(): Offsets
      reads this
    {
      Offsets(latOffset, lonOffset, altOffset)
    }

    /** The drift is one step per spoof triggered since construction. */
    ghost predicate Valid()
      reads this
    {
      Current() == Drifted(NoOffsets, spoofCount)
    }

    constructor (spoofProbability: real, fakeDroneId: string)
      ensures Valid() && spoofCount == 0
      ensures this.spoofProbability == spoofProbability && this.fakeDroneId == fakeDroneId
      ensures Current() == NoOffsets
    {
      this.spoofProbability := spoofProbability;
      this.fakeDroneId := fakeDroneId;
      latOffset, lonOffset, altOffset := 0.0, 0.0, 0.0;
      spoofCount := 0;
    }

    /** spoof_message: the step above applied to the accumulator fields. */
    method SpoofMessage(message: Message, g: Rng) returns (result: Message, spoofed: bool, rest: Rng)
      requires Valid() && Generator.Valid(g)
      modifies this
      ensures Valid() && Generator.Valid(rest)
      ensures SpoofOutcome(result, spoofed, Current(), rest)
           == Spoof(spoofProbability, fakeDroneId, old(Current()), message, g)
      ensures spoofCount == old(spoofCount) + (if spoofed then 1 else 0)
    {
      var trigger := Random(g);
      if trigger.value < spoofProbability {
        latOffset := latOffset + LatStep;
        lonOffset := lonOffset + LonStep;
        altOffset := altOffset + AltStep;
        spoofCount := spoofCount + 1;
        var copy := message;
        copy := copy.(latitude := copy.latitude + latOffset);
        copy := copy.(longitude := copy.longitude + lonOffset);
        copy := copy.(altitude := copy.altitude + altOffset);
        var mask := Random(trigger.rest);
        if mask.value < 0.5 {
          copy := copy.(droneId := fakeDroneId);
        }
        result, spoofed, rest := copy, true, mask.rest;
      } else {
        result, spoofed, rest := message, false, trigger.rest;
      }
    }
  }
}
