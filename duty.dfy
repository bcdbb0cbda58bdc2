/**
 * The duty-cycle bookkeeping the plans share: the band lookup GetDutyBand, the
 * release and decay of band time-off deadlines, the aggregated and join
 * back-off terms of GetTimeOffAir, and the minimum-wait scan over channels.
 */
module DutyCycle {
  import opened Bits
  import opened LoraTypes

  /**
   * GetDutyBand: the index of the first band whose [FrequencyMin, FrequencyMax]
   * contains f, or -1 when no band does.
   */
  function GetDutyBand(bands: seq<DutyBand>, f: nat): (b: int)
    ensures -1 <= b < |bands|
    ensures b == -1 <==> forall i :: 0 <= i < |bands| ==> !BandContains(bands[i], f)
    ensures b >= 0 ==> BandContains(bands[b], f)
    ensures b >= 0 ==> forall i :: 0 <= i < b ==> !BandContains(bands[i], f)
  {
    if |bands| == 0 then -1
    else if BandContains(bands[0], f) then 0
    else
      var r := GetDutyBand(bands[1..], f);
      if r == -1 then -1 else r + 1
  }

  /** GetDutyBand reads only the bands' frequency spans, not their deadlines or caps. */
  lemma {:induction false} GetDutyBandSpansOnly(a: seq<DutyBand>, b: seq<DutyBand>, f: nat)
    requires |a| == |b|
    requires forall i :: 0 <= i < |a| ==> a[i].frequencyMin == b[i].frequencyMin && a[i].frequencyMax == b[i].frequencyMax
    ensures GetDutyBand(a, f) == GetDutyBand(b, f)
  {
    if |a| > 0 {
      GetDutyBandSpansOnly(a[1..], b[1..], f);
    }
  }

  /** Two band tables with the same spans. */
  predicate SameSpans(a: seq<DutyBand>, b: seq<DutyBand>)
  {
    |a| == |b| &&
    forall i :: 0 <= i < |a| ==> a[i].frequencyMin == b[i].frequencyMin && a[i].frequencyMax == b[i].frequencyMax
  }

  /**
   * The band as GetNextChannel leaves it: a deadline already passed, or any
   * deadline while duty cycling is disabled for test, is cleared.
   */
  function ReleasedBand(b: DutyBand, now: nat, disabled: bool): (r: DutyBand)
    ensures r.frequencyMin == b.frequencyMin && r.frequencyMax == b.frequencyMax
    ensures r.powerMax == b.powerMax && r.dutyCycle == b.dutyCycle
    ensures r.timeOffEnd == 0 || r.timeOffEnd == b.timeOffEnd
    ensures r.timeOffEnd == 0 <==> b.timeOffEnd < now || disabled || b.timeOffEnd == 0
  {
    if b.timeOffEnd < now || disabled then b.(timeOffEnd := 0) else b
  }

  /** The band table after GetNextChannel's release loop. */
  function ReleasedBands(bands: seq<DutyBand>, now: nat, disabled: bool): (r: seq<DutyBand>)
    ensures |r| == |bands| && SameSpans(bands, r)
    ensures forall i :: 0 <= i < |r| ==> r[i] == ReleasedBand(bands[i], now, disabled)
  {
    seq(|bands|, i requires 0 <= i < |bands| => ReleasedBand(bands[i], now, disabled))
  }

  /**
   * The deadline UpdateDutyCycle carries over before recharging: one already
   * passed becomes 0, any other is made relative to now.
   */
  function DecayedTimeOff(timeOffEnd: nat, now: nat): (t: nat)
    ensures t <= timeOffEnd
    ensures t == 0 <==> timeOffEnd <= now
    ensures timeOffEnd >= now ==> t + now == timeOffEnd
  {
    if timeOffEnd < now then 0 else timeOffEnd - now
  }

  /**
   * The aggregated term of GetTimeOffAir: the time left until
   * Session.AggregatedTimeOffEnd when that deadline is set and not yet reached.
   */
  function AggregatedWait(s: Session, now: nat): (t: nat)
    ensures t > 0 <==> s.aggregatedTimeOffEnd > now
    ensures t > 0 ==> now + t == s.aggregatedTimeOffEnd
  {
    if s.aggregatedTimeOffEnd > 0 && s.aggregatedTimeOffEnd > now then s.aggregatedTimeOffEnd - now else 0
  }

  /**
   * The join term of GetTimeOffAir: the join back-off left, converted from
   * wall-clock seconds to milliseconds and stored in a uint32_t.
   */
  function JoinWait(s: Session, wallNow: nat): (t: nat)
    ensures t < U32
    ensures t > 0 ==> s.joinFirstAttempt != 0 && wallNow < s.joinTimeOffEnd
    ensures s.joinFirstAttempt != 0 && wallNow < s.joinTimeOffEnd && (s.joinTimeOffEnd - wallNow) * 1000 < U32
      ==> t == (s.joinTimeOffEnd - wallNow) * 1000
  {
    if s.joinFirstAttempt != 0 && wallNow < s.joinTimeOffEnd then Wrap32((s.joinTimeOffEnd - wallNow) * 1000) else 0
  }

  function Max(a: nat, b: nat): nat
  {
    if a >= b then a else b
  }

  function Min(a: nat, b: nat): nat
  {
    if a <= b then a else b
  }

  /**
   * One step of the GetTimeOffAir channel scan. A wait below zero marks a
   * channel that is not counted; zero marks an expired band, which ends the
   * scan with 0; a positive wait lowers the minimum.
   */
  function WaitStep(acc: nat, w: int): nat
  {
    if w < 0 then acc else if w == 0 then 0 else Min(acc, w)
  }

  /** The minimum after scanning waits from the left, starting from acc. */
  function MinWait(acc: nat, waits: seq<int>): nat
  {
    if |waits| == 0 then acc else WaitStep(MinWait(acc, waits[..|waits| - 1]), waits[|waits| - 1])
  }

  /** Zero absorbs: once the scan has met an expired band, the minimum stays 0. */
  lemma {:induction false} MinWaitFromZero(waits: seq<int>)
    ensures MinWait(0, waits) == 0
  {
    if |waits| > 0 {
      MinWaitFromZero(waits[..|waits| - 1]);
    }
  }

  /** The scanned minimum is 0 exactly when it starts at 0 or some counted wait is 0. */
  lemma {:induction false} MinWaitZero(acc: nat, waits: seq<int>)
    requires acc > 0
    ensures MinWait(acc, waits) == 0 <==> exists j :: 0 <= j < |waits| && waits[j] == 0
  {
    if |waits| > 0 {
      var init := waits[..|waits| - 1];
      MinWaitZero(acc, init);
      forall j | 0 <= j < |init| ensures init[j] == waits[j] { }
      if waits[|waits| - 1] == 0 {
      } else if exists j :: 0 <= j < |init| && init[j] == 0 {
      } else {
        assert MinWait(acc, init) > 0;
        assert forall j :: 0 <= j < |waits| ==> waits[j] != 0 by {
          forall j | 0 <= j < |waits| ensures waits[j] != 0 {
            if j < |init| { assert init[j] == waits[j]; }
          }
        }
      }
    }
  }

  /** The scanned minimum is no larger than acc nor than any counted wait. */
  lemma {:induction false} MinWaitBelow(acc: nat, waits: seq<int>)
    ensures MinWait(acc, waits) <= acc
    ensures forall j :: 0 <= j < |waits| && waits[j] >= 0 ==> MinWait(acc, waits) <= waits[j]
  {
    if |waits| > 0 {
      var init := waits[..|waits| - 1];
      MinWaitBelow(acc, init);
      forall j | 0 <= j < |waits| && waits[j] >= 0 ensures MinWait(acc, waits) <= waits[j] {
        if j < |init| { assert init[j] == waits[j]; }
      }
    }
  }

  /** The scanned minimum is acc itself, zero, or one of the counted waits. */
  lemma {:induction false} MinWaitAttained(acc: nat, waits: seq<int>)
    ensures var m := MinWait(acc, waits);
      m == acc || m == 0 || exists j :: 0 <= j < |waits| && waits[j] == m
  {
    if |waits| > 0 {
      var init := waits[..|waits| - 1];
      MinWaitAttained(acc, init);
      var m0 := MinWait(acc, init);
      if m0 != acc && m0 != 0 {
        var j :| 0 <= j < |init| && init[j] == m0;
        assert waits[j] == m0;
      }
    }
  }
}
