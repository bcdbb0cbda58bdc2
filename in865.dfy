/**
 * The IN865-867 channel plan: sixteen uplink channels the network server can
 * define, of which the three join channels exist from Init, a single mask word,
 * and one duty band spanning the region whose duty cycle is disabled. DR6 is
 * RFU: the datarate steps, the receive windows and the MAC handlers skip or
 * refuse it. Where the source repeats the EU868 code unchanged (GetJoinDatarate,
 * GetAckTimeout, the conducted power, the ChMaskCntl 6 mask, the candidate test
 * and the CFList mask update) the EU868 definitions are used.
 */
module IN865 {
  import opened Bits
  import opened LoraTypes
  import opened Wire
  import opened DutyCycle
  import opened ChannelMask
  import EU868

  // Constants of section 2.9 of the LoRaWAN Regional Parameters 1.0.2 and of Init.
  const NUM_CHANS: nat := 16
  const DEFAULT_NUM_CHANS: nat := 3
  const FREQ_MIN: nat := 865_000_000
  const FREQ_MAX: nat := 867_000_000
  const MIN_DATARATE: nat := 0
  const MAX_DATARATE: nat := 5
  const MIN_RX2_DATARATE: nat := 0
  const MAX_RX2_DATARATE: nat := 5
  const MAX_DATARATE_OFFSET: nat := 7
  const MIN_TX_POWER: nat := 0
  const MAX_TX_POWER: nat := 30
  const RX2_FREQ: nat := 866_550_000
  const RX2_DR: nat := 2
  const BEACON_FREQ: nat := 866_550_000
  const BEACON_DR: nat := 4
  /** The RFU datarate the plan skips. */
  const DR_6: nat := 6
  /** The largest TXPower index LinkADRReq may carry. */
  const MAX_POWER_INDEX: nat := 10

  /** IN865_TX_POWERS: the conducted power (dBm) of each TXPower index, as the plan defines it. */
  const TX_POWERS: seq<nat> := [30, 28, 26, 24, 22, 20, 18, 16, 14, 12, 9]

  /** The frequencies of the three join channels Init defines. */
  const JOIN_FREQS: seq<nat> := [865_062_500, 865_402_500, 865_985_000]

  /**
   * The datarate table Init builds: DR0-5 SF12-SF7/125; DR6, the entry the loop
   * leaves behind (one spreading factor below SF7, default bandwidth); DR7 FSK;
   * DR8-15 RFU.
   */
  const DATARATES: seq<Datarate> := [
    Datarate(Sf(12), Bw125), Datarate(Sf(11), Bw125), Datarate(Sf(10), Bw125),
    Datarate(Sf(9), Bw125), Datarate(Sf(8), Bw125), Datarate(Sf(7), Bw125),
    Datarate(Sf(6), Bw125), Datarate(SfFsk, BwFsk),
    Datarate(SfInvalid, BwFsk), Datarate(SfInvalid, BwFsk), Datarate(SfInvalid, BwFsk), Datarate(SfInvalid, BwFsk),
    Datarate(SfInvalid, BwFsk), Datarate(SfInvalid, BwFsk), Datarate(SfInvalid, BwFsk), Datarate(SfInvalid, BwFsk)]

  /** The single duty band Init adds: the whole region, 30 dBm, duty cycle disabled (divisor 0). */
  const DEFAULT_BANDS: seq<DutyBand> := [DutyBand(FREQ_MIN, FREQ_MAX, 30, 0, 0)]

  /** No datarate of the table uses 500 kHz; only DR7 is FSK. */
  lemma DatarateBandwidths(dr: nat)
    requires dr < 16
    ensures DATARATES[dr].bandwidth != Bw500
    ensures DATARATES[dr].spreadingFactor == SfFsk <==> dr == 7
    ensures DATARATES[dr].bandwidth == Bw125 <==> dr <= DR_6
  {
  }

  /** A band table as the plan keeps it: the band of Init, of which only the uint32_t deadline changes. */
  predicate BandsShape(bands: seq<DutyBand>)
  {
    |bands| == |DEFAULT_BANDS| &&
    forall i :: 0 <= i < |bands| ==> bands[i].(timeOffEnd := 0) == DEFAULT_BANDS[i] && bands[i].timeOffEnd < U32
  }

  /** Whether no band has time-off left: what the disabled duty cycle keeps. */
  predicate NoTimeOff(bands: seq<DutyBand>)
  {
    forall i :: 0 <= i < |bands| ==> bands[i].timeOffEnd == 0
  }

  /** The band of Init has the shape every operation keeps and no time-off. */
  lemma DefaultBandsShape()
    ensures BandsShape(DEFAULT_BANDS) && NoTimeOff(DEFAULT_BANDS)
  {
    assert DEFAULT_BANDS[0].timeOffEnd == 0;
  }

  /** The band covers exactly the region: every region frequency is in band 0, every other in none. */
  lemma BandsLookup(bands: seq<DutyBand>, f: nat)
    requires BandsShape(bands)
    ensures GetDutyBand(bands, f) == if FREQ_MIN <= f <= FREQ_MAX then 0 else -1
  {
    assert bands[0].(timeOffEnd := 0) == DEFAULT_BANDS[0];
    assert BandContains(bands[0], f) <==> FREQ_MIN <= f <= FREQ_MAX;
  }

  /** The three join channels of Init: 865.0625, 865.4025 and 865.985 MHz, DR0-5. */
  function DefaultChannel(i: nat): (c: Channel)
    requires i < DEFAULT_NUM_CHANS
    ensures RangeMin(c.drRange) == MIN_DATARATE && RangeMax(c.drRange) == MAX_DATARATE
  {
    Channel(JOIN_FREQS[i], MakeRange(MIN_DATARATE, MAX_DATARATE))
  }

  /** The join channels lie in the region, hence in the band, and are distinct. */
  lemma DefaultChannelsBanded(i: nat, j: nat, bands: seq<DutyBand>)
    requires i < DEFAULT_NUM_CHANS && j < DEFAULT_NUM_CHANS && BandsShape(bands)
    ensures GetDutyBand(bands, DefaultChannel(i).frequency) == 0
    ensures FREQ_MIN <= DefaultChannel(i).frequency <= FREQ_MAX
    ensures i != j ==> DefaultChannel(i).frequency != DefaultChannel(j).frequency
  {
    BandsLookup(bands, DefaultChannel(i).frequency);
  }

  /** The settings Init leaves: RX2 at 866.55 MHz DR2, beacon and ping-slot defaults without hopping, DR0 and the configured power. */
  function InitSettings(s: Settings): (r: Settings)
    ensures r.network == s.network && r.multicast == s.multicast && r.test == s.test
  {
    s.(session := s.session.(
      rx2Frequency := RX2_FREQ,
      rx2DatarateIndex := RX2_DR,
      beaconFrequency := BEACON_FREQ,
      beaconFreqHop := false,
      pingSlotFrequency := BEACON_FREQ,
      pingSlotDatarateIndex := BEACON_DR,
      pingSlotFreqHop := false,
      txDatarate := 0,
      txPower := s.network.txPower))
  }

  /** The fix-up at the end of GetRxWindow: the RFU DR6 is read as DR5. */
  function SkipDr6(index: int): (r: int)
    ensures r != DR_6
    ensures index != DR_6 ==> r == index
    ensures index == DR_6 ==> r == MAX_DATARATE
  {
    if index == DR_6 then 5 else index
  }

  /**
   * The RX1 datarate: offsets 6 and 7 raise the uplink datarate by one and two
   * (DR6 read as DR5), to DR5 at most; smaller offsets lower it, to DR0 at the
   * least.
   */
  function Rx1Datarate(txDatarate: nat, offset: nat): (dr: nat)
    ensures offset >= 6 ==> dr == Min(txDatarate + (if offset == 6 then 1 else 2), MAX_DATARATE)
    ensures offset < 6 && txDatarate > offset ==> dr + offset == txDatarate
    ensures offset < 6 && txDatarate <= offset ==> dr == 0
  {
    if offset >= 6 then
      var index := txDatarate + (if offset == 6 then 1 else 2);
      Min(if index == DR_6 then 5 else index, MAX_DATARATE)
    else if txDatarate > offset then txDatarate - offset else 0
  }

  /** A window before the DR6 fix-up: what the switch of GetRxWindow selects. */
  function RawRxWindow(s: Settings, channels: seq<Channel>, txChannel: nat, window: Window, id: int): RxWindow
    requires SettingsOk(s) && txChannel < |channels|
  {
    if P2PEnabled(s) then RxWindow(s.network.txFrequency, s.session.txDatarate)
    else match window
      case Rx1 => RxWindow(channels[txChannel].frequency, Rx1Datarate(s.session.txDatarate, s.session.rx1DatarateOffset))
      case RxBeacon => RxWindow(s.session.beaconFrequency, BEACON_DR)
      case RxSlot =>
        if id > 0 && id < 8 then RxWindow(s.multicast[id].frequency, s.multicast[id].datarateIndex)
        else RxWindow(s.session.pingSlotFrequency, s.session.pingSlotDatarateIndex)
      case RxC =>
        if id > 0 && id <= MAX_MULTICAST_SESSIONS && s.multicast[id - 1].active
        then RxWindow(s.multicast[id - 1].frequency, s.multicast[id - 1].datarateIndex)
        else RxWindow(s.session.rx2Frequency, s.session.rx2DatarateIndex)
      case _ => RxWindow(s.session.rx2Frequency, s.session.rx2DatarateIndex)
  }

  /**
   * GetRxWindow: the uplink frequency and datarate in peer-to-peer mode; the
   * RX1 channel's frequency with the offset datarate; the beacon; a ping slot
   * (Multicast[id] for id 1-7); an active multicast session's class C window
   * (Multicast[id - 1]); or RX2. DR6 is never returned.
   */
  function GetRxWindow(s: Settings, channels: seq<Channel>, txChannel: nat, window: Window, id: int): (w: RxWindow)
    requires SettingsOk(s) && txChannel < |channels|
    ensures w.datarateIndex != DR_6
    ensures w.frequency == RawRxWindow(s, channels, txChannel, window, id).frequency
    ensures P2PEnabled(s) ==> w == RxWindow(s.network.txFrequency, SkipDr6(s.session.txDatarate))
    ensures !P2PEnabled(s) && window == Rx1 ==>
      w == RxWindow(channels[txChannel].frequency, SkipDr6(Rx1Datarate(s.session.txDatarate, s.session.rx1DatarateOffset)))
    ensures !P2PEnabled(s) && window == RxBeacon ==> w == RxWindow(s.session.beaconFrequency, BEACON_DR)
    ensures !P2PEnabled(s) && (window == Rx2 || window == RxTest) ==>
      w == RxWindow(s.session.rx2Frequency, SkipDr6(s.session.rx2DatarateIndex))
  {
    var raw := RawRxWindow(s, channels, txChannel, window, id);
    raw.(datarateIndex := SkipDr6(raw.datarateIndex))
  }

  /** With offsets 0-5 the RX1 window follows the uplink channel and never uses a datarate above the uplink's. */
  lemma Rx1BelowUplink(s: Settings, channels: seq<Channel>, txChannel: nat, id: int)
    requires SettingsOk(s) && txChannel < |channels| && !P2PEnabled(s) && s.session.rx1DatarateOffset < 6
    ensures GetRxWindow(s, channels, txChannel, Rx1, id).frequency == channels[txChannel].frequency
    ensures 0 <= GetRxWindow(s, channels, txChannel, Rx1, id).datarateIndex <= s.session.txDatarate
  {
  }

  /**
   * With offsets 6 and 7 an uplink at DR0-5 gets an RX1 datarate at or above
   * its own and within DR0-5, DR5 staying DR5.
   */
  lemma Rx1RaisedOffsets(s: Settings, channels: seq<Channel>, txChannel: nat, id: int)
    requires SettingsOk(s) && txChannel < |channels| && !P2PEnabled(s)
    requires 6 <= s.session.rx1DatarateOffset <= MAX_DATARATE_OFFSET && s.session.txDatarate <= MAX_DATARATE
    ensures var dr := GetRxWindow(s, channels, txChannel, Rx1, id).datarateIndex;
      s.session.txDatarate <= dr <= MAX_DATARATE
      && (dr == s.session.txDatarate <==> s.session.txDatarate == MAX_DATARATE)
  {
  }

  /** Settings whose RX2 parameters an accepted RXParamSetupReq has replaced use them for RX2. */
  lemma Rx2FollowsSetup(s: Settings, channels: seq<Channel>, txChannel: nat, f: nat, dr: nat, offset: nat)
    requires SettingsOk(s) && txChannel < |channels| && !P2PEnabled(s) && dr <= MAX_RX2_DATARATE
    ensures var s' := s.(session := s.session.(rx2DatarateIndex := dr, rx2Frequency := f, rx1DatarateOffset := offset));
      GetRxWindow(s', channels, txChannel, Rx2, 0) == RxWindow(f, dr)
      && EU868.GetAckTimeout(s'.session.rx2DatarateIndex) == EU868.GetAckTimeout(dr)
  {
  }

  /**
   * Whether NewChannelReq's DrRange passes: min <= max and both at most DR5.
   * Only upper bounds are tested, so a negative Fields.Min is accepted.
   */
  predicate ValidDrRange(range: Byte)
  {
    RangeMin(range) <= RangeMax(range) && RangeMin(range) <= MAX_DATARATE && RangeMax(range) <= MAX_DATARATE
  }

  /**
   * Every range with Fields.Max in DR0-5 and a negative Fields.Min passes,
   * although EU868 rejects each of them.
   */
  lemma NegativeMinAccepted(range: Byte)
    requires range & 0x0F >= 8 && range >> 4 <= 5
    ensures ValidDrRange(range) && RangeMin(range) < 0
    ensures !EU868.ValidDrRange(range)
  {
  }

  /**
   * ValidateAdrConfiguration's verdict: under ADR, bit 1 rejects a datarate
   * above DR5 (the separate DR6 test adds nothing) and bit 2 a power outside
   * 0-30 dBm; bit 0 rejects a mask that enables an undefined channel 3-15.
   */
  function AdrConfigStatus(s: Settings, mask: seq<Word>, channels: seq<Channel>): (status: Byte)
    requires |mask| == 1 && |channels| == NUM_CHANS
    ensures status & 0xF8 == 0
    ensures status & 1 == 0 <==> EU868.UndefinedEnabled(mask, channels)
    ensures status & 2 == 0 <==> s.network.adrEnabled && s.session.txDatarate > MAX_DATARATE
    ensures status & 4 == 0 <==> s.network.adrEnabled && (s.session.txPower < MIN_TX_POWER || s.session.txPower > MAX_TX_POWER)
  {
    var dr := s.session.txDatarate;
    var s1: Byte := if s.network.adrEnabled && (dr > MAX_DATARATE || dr == DR_6) then 0x07 & 0xFD else 0x07;
    var s2 := if s.network.adrEnabled && (s.session.txPower < MIN_TX_POWER || s.session.txPower > MAX_TX_POWER) then s1 & 0xFB else s1;
    if EU868.UndefinedEnabled(mask, channels) then s2 & 0xFE else s2
  }

  /** The mask and channels of Init pass the channel-mask check. */
  lemma InitMaskPassesAdr(s: Settings, channels: seq<Channel>)
    requires |channels| == NUM_CHANS
    requires forall i :: DEFAULT_NUM_CHANS <= i < NUM_CHANS ==> channels[i] == ZeroChannel
    ensures AdrConfigStatus(s, [0x0007], channels) & 1 == 1
  {
    EU868.InitMaskPassesAdr(s, channels);
  }

  /**
   * A channel NewChannelReq deleted (frequency 0) keeps its mask bit, so the
   * next ValidateAdrConfiguration rejects the mask.
   */
  lemma DeletedChannelFailsAdr(s: Settings, mask: seq<Word>, channels: seq<Channel>, index: nat)
    requires |mask| == 1 && |channels| == NUM_CHANS && DEFAULT_NUM_CHANS <= index < NUM_CHANS
    ensures AdrConfigStatus(s, [mask[0] | Bit(index)], channels[index := EU868.NewChannelEntry(0, 0)]) & 1 == 0
  {
    EU868.DeletedChannelFailsAdr(s, mask, channels, index);
  }

  /** The first channel the search visits: past the 125 kHz channels when the datarate is a 500 kHz one. */
  function SearchStart(dr: nat): nat
    requires dr < 16
  {
    if DATARATES[dr].bandwidth == Bw500 then NUM_CHANS else 0
  }

  /** The number of channels the search visits: the 16 channels, or the (zero) 500 kHz channels. */
  function SearchCount(dr: nat): nat
    requires dr < 16
  {
    if DATARATES[dr].bandwidth == Bw500 then 0 else NUM_CHANS
  }

  /** The enabledChannels list of GetNextChannel. */
  function Candidates(channels: seq<Channel>, mask: seq<Word>, bands: seq<DutyBand>, dr: nat): seq<nat>
    requires |channels| == NUM_CHANS && |mask| == 1 && dr < 16
  {
    Selected(EU868.EligibleFlags(channels, mask, bands, dr), SearchStart(dr), SearchStart(dr) + SearchCount(dr))
  }

  /**
   * The candidates are exactly the enabled channels that allow the datarate,
   * lie in the region and whose band has no time-off left, in increasing order.
   */
  lemma CandidatesMembers(channels: seq<Channel>, mask: seq<Word>, bands: seq<DutyBand>, dr: nat, ch: nat)
    requires |channels| == NUM_CHANS && |mask| == 1 && dr < 16 && BandsShape(bands)
    ensures ch in Candidates(channels, mask, bands, dr) <==>
      ch < NUM_CHANS && IsChannelEnabled(mask, ch) && DatarateInRange(dr, channels[ch])
      && FREQ_MIN <= channels[ch].frequency <= FREQ_MAX && bands[0].timeOffEnd == 0
    ensures forall a, b :: 0 <= a < b < |Candidates(channels, mask, bands, dr)| ==>
      Candidates(channels, mask, bands, dr)[a] < Candidates(channels, mask, bands, dr)[b]
  {
    DatarateBandwidths(dr);
    SelectedMembers(EU868.EligibleFlags(channels, mask, bands, dr), 0, NUM_CHANS, ch);
    SelectedIncreasing(EU868.EligibleFlags(channels, mask, bands, dr), 0, NUM_CHANS);
    if ch < NUM_CHANS {
      BandsLookup(bands, channels[ch].frequency);
    }
  }

  /**
   * The duty-band term of GetTimeOffAir: 0 with duty cycling disabled; in
   * peer-to-peer mode the time-off left in the band of the transmit frequency;
   * otherwise the least time-off left over the counted channels, 0 as soon as
   * one is free; UINT_MAX (nothing counted) reads as 0.
   */
  function BandTerm(s: Settings, channels: seq<Channel>, mask: seq<Word>, bands: seq<DutyBand>, now: nat): nat
    requires |channels| == NUM_CHANS && |mask| == 1
    requires P2PEnabled(s) && !s.test.disableDutyCycle ==> GetDutyBand(bands, s.network.txFrequency) != -1
  {
    if s.test.disableDutyCycle then 0
    else
      var m := if P2PEnabled(s) then
                 var b := GetDutyBand(bands, s.network.txFrequency);
                 (if bands[b].timeOffEnd > now then bands[b].timeOffEnd - now else 0)
               else MinWait(UINT_MAX, EU868.ChannelWaits(s, channels, mask, bands, now));
      if m == UINT_MAX then 0 else m
  }

  /** The join term of GetTimeOffAir: the join back-off, counted only while the session is not joined. */
  function JoinTerm(s: Session, wallNow: nat): nat
  {
    if s.joined then 0 else JoinWait(s, wallNow)
  }

  /** GetTimeOffAir: the largest of the band term, the aggregated term and the join term. */
  function TimeOffAir(s: Settings, channels: seq<Channel>, mask: seq<Word>, bands: seq<DutyBand>, now: nat, wallNow: nat): nat
    requires |channels| == NUM_CHANS && |mask| == 1
    requires P2PEnabled(s) && !s.test.disableDutyCycle ==> GetDutyBand(bands, s.network.txFrequency) != -1
  {
    Max(JoinTerm(s.session, wallNow), Max(BandTerm(s, channels, mask, bands, now), AggregatedWait(s.session, now)))
  }

  /**
   * Without time-off in the band the band term is 0, so GetTimeOffAir is the
   * aggregated term or, before the join, the join back-off.
   */
  lemma NoTimeOffBandTerm(s: Settings, channels: seq<Channel>, mask: seq<Word>, bands: seq<DutyBand>, now: nat)
    requires |channels| == NUM_CHANS && |mask| == 1 && NoTimeOff(bands)
    requires P2PEnabled(s) && !s.test.disableDutyCycle ==> GetDutyBand(bands, s.network.txFrequency) != -1
    ensures BandTerm(s, channels, mask, bands, now) == 0
  {
    if !s.test.disableDutyCycle && !P2PEnabled(s) {
      var waits := EU868.ChannelWaits(s, channels, mask, bands, now);
      forall i | 0 <= i < NUM_CHANS
        ensures waits[i] <= 0
      {
        assert waits[i] == EU868.ChannelWait(s, channels, mask, bands, now, i);
      }
      MinWaitAttained(UINT_MAX, waits);
    }
  }

  /**
   * GetTimeOffAir is at least each of its terms and is one of them; once
   * joined the join back-off no longer counts, and with no time-off in the band
   * only the aggregated term is left.
   */
  lemma TimeOffAirTerms(s: Settings, channels: seq<Channel>, mask: seq<Word>, bands: seq<DutyBand>, now: nat, wallNow: nat)
    requires |channels| == NUM_CHANS && |mask| == 1
    requires P2PEnabled(s) && !s.test.disableDutyCycle ==> GetDutyBand(bands, s.network.txFrequency) != -1
    ensures var t := TimeOffAir(s, channels, mask, bands, now, wallNow);
      t >= AggregatedWait(s.session, now) && t >= BandTerm(s, channels, mask, bands, now)
      && (!s.session.joined ==> t >= JoinWait(s.session, wallNow))
      && (t == JoinTerm(s.session, wallNow) || t == AggregatedWait(s.session, now) || t == BandTerm(s, channels, mask, bands, now))
    ensures s.session.joined && NoTimeOff(bands) ==> TimeOffAir(s, channels, mask, bands, now, wallNow) == AggregatedWait(s.session, now)
  {
    if NoTimeOff(bands) {
      NoTimeOffBandTerm(s, channels, mask, bands, now);
    }
  }

  /**
   * A band after UpdateDutyCycle: its deadline made relative to now (0 once
   * passed); the band holding the transmit frequency recharges to
   * time-on-air times its divisor, except strictly inside the region at no
   * more than 7 dBm radiated, which needs no time-off.
   */
  function UpdatedBand(s: Settings, b: DutyBand, freq: nat, toa: nat, now: nat): DutyBand
  {
    var decayed := b.(timeOffEnd := DecayedTimeOff(b.timeOffEnd, now));
    if BandContains(b, freq) then
      if FREQ_MIN < freq < FREQ_MAX && s.session.txPower + s.network.antennaGain <= 7 then decayed.(timeOffEnd := 0)
      else decayed.(timeOffEnd := Wrap32(toa * b.dutyCycle))
    else decayed
  }

  /**
   * With the divisor 0 of this plan, UpdateDutyCycle only keeps or lowers a
   * deadline, clears it in the band of the uplink, and keeps the band
   * otherwise; a band without time-off stays without.
   */
  lemma UpdatedBandNoDutyCycle(s: Settings, b: DutyBand, freq: nat, toa: nat, now: nat)
    requires b.dutyCycle == 0
    ensures var r := UpdatedBand(s, b, freq, toa, now);
      r.(timeOffEnd := 0) == b.(timeOffEnd := 0) && r.timeOffEnd <= b.timeOffEnd
      && (r.timeOffEnd == 0 <==> BandContains(b, freq) || b.timeOffEnd <= now)
  {
  }

  /** UpdateDutyCycle keeps the shape of the band table and a table without time-off. */
  lemma UpdatedBandsShape(s: Settings, bands: seq<DutyBand>, freq: nat, toa: nat, now: nat)
    requires BandsShape(bands)
    ensures var r := seq(|bands|, i requires 0 <= i < |bands| => UpdatedBand(s, bands[i], freq, toa, now));
      BandsShape(r) && (NoTimeOff(bands) ==> NoTimeOff(r))
  {
    var r := seq(|bands|, i requires 0 <= i < |bands| => UpdatedBand(s, bands[i], freq, toa, now));
    assert bands[0].(timeOffEnd := 0) == DEFAULT_BANDS[0];
    UpdatedBandNoDutyCycle(s, bands[0], freq, toa, now);
    assert r[0].(timeOffEnd := 0) == DEFAULT_BANDS[0] && r[0].timeOffEnd < U32;
  }

  /** Releasing bands keeps the shape of the band table and a table without time-off. */
  lemma ReleasedShape(bands: seq<DutyBand>, now: nat, disabled: bool)
    requires BandsShape(bands)
    ensures BandsShape(ReleasedBands(bands, now, disabled))
    ensures NoTimeOff(bands) ==> ReleasedBands(bands, now, disabled) == bands
  {
    var r := ReleasedBands(bands, now, disabled);
    assert bands[0].(timeOffEnd := 0) == DEFAULT_BANDS[0];
    assert r[0].(timeOffEnd := 0) == DEFAULT_BANDS[0] && r[0].timeOffEnd < U32;
    if NoTimeOff(bands) {
      assert r[0] == bands[0];
    }
  }

  /** A band without time-off never blocks a fixed transmit frequency. */
  lemma NoTimeOffNeverBlocked(bands: seq<DutyBand>, f: nat)
    requires NoTimeOff(bands)
    ensures !EU868.BandBlocked(bands, f)
  {
  }

  /**
   * IncrementDatarate's step: one datarate up while below DR5, and DR6 becomes
   * DR7; from DR0-5 it stays within DR0-5.
   */
  function NextDatarate(dr: nat): (r: nat)
    ensures r != DR_6
    ensures dr <= MAX_DATARATE ==> r == Min(dr + 1, MAX_DATARATE)
    ensures dr == DR_6 ==> r == 7
    ensures dr > DR_6 ==> r == dr
  {
    var up := if dr < MAX_DATARATE then dr + 1 else dr;
    if up == DR_6 then 7 else up
  }

  /**
   * DecrementDatarate's step: one datarate down while above DR0, and DR6 is
   * passed over to DR5 (so DR7 steps down to DR5); never below DR0.
   */
  function PrevDatarate(dr: nat): (r: nat)
    ensures r != DR_6 && r <= dr
    ensures dr == 0 ==> r == 0
    ensures 0 < dr && dr != 7 ==> r + 1 == dr
    ensures dr == 7 ==> r == MAX_DATARATE
  {
    var down := if dr > MIN_DATARATE then dr - 1 else dr;
    if down == DR_6 then 5 else down
  }

  /** Within DR0-5 the two steps undo each other. */
  lemma DatarateStepsInverse(dr: nat)
    ensures dr < MAX_DATARATE ==> PrevDatarate(NextDatarate(dr)) == dr
    ensures 0 < dr <= MAX_DATARATE ==> NextDatarate(PrevDatarate(dr)) == dr
  {
  }

  /** The channel entries of a Join-Accept CFList are those of EU868; a frequency is taken when nonzero and within the region. */
  predicate CfAccepted(f: nat)
  {
    f > 0 && FREQ_MIN <= f <= FREQ_MAX
  }

  /** Every frequency the CFList loop takes lies in the band, so the complement branch of the mask update is never used. */
  lemma AcceptedIsBanded(bands: seq<DutyBand>, f: nat)
    requires BandsShape(bands) && CfAccepted(f)
    ensures GetDutyBand(bands, f) == 0
  {
    BandsLookup(bands, f);
  }

  /** The number of CFList entries among the first k that are taken. */
  function AcceptedCount(buffer: seq<Byte>, k: nat): (n: nat)
    requires 13 + 3 * k <= |buffer|
    ensures n <= k
    ensures forall j :: 0 <= j < k ==> AcceptedCount(buffer, j) <= n
    decreases k
  {
    if k == 0 then 0 else AcceptedCount(buffer, k - 1) + (if CfAccepted(EU868.CfFrequency(buffer, k - 1)) then 1 else 0)
  }

  /**
   * The channel table after the first k CFList entries: each taken frequency
   * becomes the next channel from index 3 on, with DR0-5.
   */
  function CfChannels(channels: seq<Channel>, buffer: seq<Byte>, k: nat): (r: seq<Channel>)
    requires 13 + 3 * k <= |buffer| && |channels| == NUM_CHANS
    requires DEFAULT_NUM_CHANS + AcceptedCount(buffer, k) <= NUM_CHANS
    ensures |r| == NUM_CHANS
    decreases k
  {
    if k == 0 then channels
    else
      var prev := CfChannels(channels, buffer, k - 1);
      var f := EU868.CfFrequency(buffer, k - 1);
      if CfAccepted(f) then prev[DEFAULT_NUM_CHANS + AcceptedCount(buffer, k - 1) := Channel(f, MakeRange(MIN_DATARATE, MAX_DATARATE))]
      else prev
  }

  /** The mask word after the first k CFList entries: each taken frequency updates it. */
  function CfMask(mask: Word, bands: seq<DutyBand>, buffer: seq<Byte>, k: nat): Word
    requires 13 + 3 * k <= |buffer|
    requires DEFAULT_NUM_CHANS + AcceptedCount(buffer, k) <= NUM_CHANS
    decreases k
  {
    if k == 0 then mask
    else
      var prev := CfMask(mask, bands, buffer, k - 1);
      var f := EU868.CfFrequency(buffer, k - 1);
      if CfAccepted(f) then EU868.CfMaskUpdate(bands, prev, f, DEFAULT_NUM_CHANS + AcceptedCount(buffer, k - 1))
      else prev
  }

  /** A taken entry j updates the mask word CfMask leaves after the first j entries. */
  lemma CfMaskNext(mask: Word, bands: seq<DutyBand>, buffer: seq<Byte>, j: nat)
    requires 13 + 3 * (j + 1) <= |buffer| && CfAccepted(EU868.CfFrequency(buffer, j))
    requires DEFAULT_NUM_CHANS + AcceptedCount(buffer, j + 1) <= NUM_CHANS
    ensures DEFAULT_NUM_CHANS + AcceptedCount(buffer, j) < NUM_CHANS
    ensures CfMask(mask, bands, buffer, j + 1)
      == EU868.CfMaskUpdate(bands, CfMask(mask, bands, buffer, j), EU868.CfFrequency(buffer, j), DEFAULT_NUM_CHANS + AcceptedCount(buffer, j))
  {
  }

  /** One CFList entry never clears a mask bit. */
  lemma CfListStepKeepsBit(mask: Word, bands: seq<DutyBand>, buffer: seq<Byte>, k: nat, ch: nat)
    requires 13 + 3 * k <= |buffer| && 0 < k && ch < NUM_CHANS
    requires DEFAULT_NUM_CHANS + AcceptedCount(buffer, k) <= NUM_CHANS
    requires BitSet(CfMask(mask, bands, buffer, k - 1), ch)
    ensures BitSet(CfMask(mask, bands, buffer, k), ch)
  {
    var prev := CfMask(mask, bands, buffer, k - 1);
    var f := EU868.CfFrequency(buffer, k - 1);
    if CfAccepted(f) {
      var index := DEFAULT_NUM_CHANS + AcceptedCount(buffer, k - 1);
      assert CfMask(mask, bands, buffer, k) == EU868.CfMaskUpdate(bands, prev, f, index);
      EU868.CfMaskUpdateBits(bands, prev, f, index, ch);
    }
  }

  /** The CFList loop never clears a mask bit. */
  lemma {:induction false} CfListMaskGrows(mask: Word, bands: seq<DutyBand>, buffer: seq<Byte>, j: nat, k: nat, ch: nat)
    requires 13 + 3 * k <= |buffer| && j <= k && ch < NUM_CHANS
    requires DEFAULT_NUM_CHANS + AcceptedCount(buffer, k) <= NUM_CHANS
    requires BitSet(CfMask(mask, bands, buffer, j), ch)
    ensures BitSet(CfMask(mask, bands, buffer, k), ch)
    decreases k
  {
    if j < k {
      CfListMaskGrows(mask, bands, buffer, j, k - 1, ch);
      CfListStepKeepsBit(mask, bands, buffer, k, ch);
    }
  }

  /** Channels below 3 and past the last one taken keep their entries. */
  lemma {:induction false} CfListKeeps(channels: seq<Channel>, buffer: seq<Byte>, k: nat, ch: nat)
    requires 13 + 3 * k <= |buffer| && |channels| == NUM_CHANS && ch < NUM_CHANS
    requires DEFAULT_NUM_CHANS + AcceptedCount(buffer, k) <= NUM_CHANS
    requires ch < DEFAULT_NUM_CHANS || ch >= DEFAULT_NUM_CHANS + AcceptedCount(buffer, k)
    ensures CfChannels(channels, buffer, k)[ch] == channels[ch]
    decreases k
  {
    if k > 0 {
      CfListKeeps(channels, buffer, k - 1, ch);
    }
  }

  /** Taken entry j lands in channel 3 + (number taken before it), with DR0-5. */
  lemma {:induction false} CfListPlaces(channels: seq<Channel>, buffer: seq<Byte>, k: nat, j: nat)
    requires 13 + 3 * k <= |buffer| && |channels| == NUM_CHANS && j < k
    requires DEFAULT_NUM_CHANS + AcceptedCount(buffer, k) <= NUM_CHANS
    requires CfAccepted(EU868.CfFrequency(buffer, j))
    ensures DEFAULT_NUM_CHANS + AcceptedCount(buffer, j) < NUM_CHANS
    ensures CfChannels(channels, buffer, k)[DEFAULT_NUM_CHANS + AcceptedCount(buffer, j)]
      == Channel(EU868.CfFrequency(buffer, j), MakeRange(MIN_DATARATE, MAX_DATARATE))
    decreases k
  {
    assert AcceptedCount(buffer, j + 1) == AcceptedCount(buffer, j) + 1;
    if j < k - 1 {
      CfListPlaces(channels, buffer, k - 1, j);
      var index := DEFAULT_NUM_CHANS + AcceptedCount(buffer, j);
      var last := DEFAULT_NUM_CHANS + AcceptedCount(buffer, k - 1);
      assert AcceptedCount(buffer, j + 1) <= AcceptedCount(buffer, k - 1);
      assert index < last;
      var prev := CfChannels(channels, buffer, k - 1);
      assert CfChannels(channels, buffer, k) == prev || CfChannels(channels, buffer, k) == prev[last := CfChannels(channels, buffer, k)[last]];
    }
  }

  /** Every channel a CFList defines is enabled: its frequency is in the band, so its own bit is set. */
  lemma CfListEnables(mask: Word, bands: seq<DutyBand>, buffer: seq<Byte>, k: nat, j: nat)
    requires 13 + 3 * k <= |buffer| && j < k && BandsShape(bands)
    requires DEFAULT_NUM_CHANS + AcceptedCount(buffer, k) <= NUM_CHANS
    requires CfAccepted(EU868.CfFrequency(buffer, j))
    ensures DEFAULT_NUM_CHANS + AcceptedCount(buffer, j) < NUM_CHANS
    ensures BitSet(CfMask(mask, bands, buffer, k), DEFAULT_NUM_CHANS + AcceptedCount(buffer, j))
  {
    var index := DEFAULT_NUM_CHANS + AcceptedCount(buffer, j);
    AcceptedIsBanded(bands, EU868.CfFrequency(buffer, j));
    assert j + 1 == k || AcceptedCount(buffer, j + 1) <= AcceptedCount(buffer, k);
    CfMaskNext(mask, bands, buffer, j);
    EU868.CfMaskUpdateBits(bands, CfMask(mask, bands, buffer, j), EU868.CfFrequency(buffer, j), index, index);
    CfListMaskGrows(mask, bands, buffer, j + 1, k, index);
  }

  /** ChannelPlan_IN865: the channel table, the channel mask, the duty band and the channel in use. */
  class ChannelPlan {
    var settings: Settings
    var channels: seq<Channel>
    var channelMask: seq<Word>
    var dutyBands: seq<DutyBand>
    var txChannel: nat

    /** What Init establishes and every operation keeps. */
    ghost predicate Valid()
      reads this
    {
      SettingsOk(settings) && |channels| == NUM_CHANS && |channelMask| == 1
      && txChannel < NUM_CHANS && BandsShape(dutyBands)
    }

    constructor(s: Settings)
      requires SettingsOk(s)
      ensures settings == s && channels == [] && channelMask == [] && dutyBands == [] && txChannel == 0
    {
      settings := s;
      channels := [];
      channelMask := [];
      dutyBands := [];
      txChannel := 0;
    }

    /** AddChannel: overwrite the channel at index, or append for a negative index. */
    method AddChannel(index: int, c: Channel) returns (r: Status)
      requires index < |channels|
      modifies this
      ensures r == Ok
      ensures channels == if index >= 0 then old(channels)[index := c] else old(channels) + [c]
      ensures settings == old(settings) && channelMask == old(channelMask)
      ensures dutyBands == old(dutyBands) && txChannel == old(txChannel)
    {
      if index >= 0 {
        channels := channels[index := c];
      } else {
        channels := channels + [c];
      }
      r := Ok;
    }

    /**
     * Init: the three join channels and thirteen empty ones, only the join
     * channels enabled, the one band without duty cycle, and the session defaults.
     */
    method Init()
      requires SettingsOk(settings) && txChannel < NUM_CHANS
      modifies this
      ensures Valid() && NoTimeOff(dutyBands)
      ensures settings == InitSettings(old(settings)) && txChannel == old(txChannel)
      ensures forall i :: 0 <= i < DEFAULT_NUM_CHANS ==> channels[i] == DefaultChannel(i)
      ensures forall i :: DEFAULT_NUM_CHANS <= i < NUM_CHANS ==> channels[i] == ZeroChannel
      ensures channelMask == [0x0007]
      ensures dutyBands == DEFAULT_BANDS
    {
      channels := [];
      dutyBands := [];
      settings := settings.(session := settings.session.(rx2Frequency := RX2_FREQ, rx2DatarateIndex := RX2_DR));
      settings := settings.(session := settings.session.(
        beaconFrequency := BEACON_FREQ, beaconFreqHop := false,
        pingSlotFrequency := BEACON_FREQ, pingSlotDatarateIndex := BEACON_DR, pingSlotFreqHop := false));
      settings := settings.(session := settings.session.(txDatarate := 0));
      // SetNumberOfChannels(16): sixteen (zeroed) channels and one mask word.
      channels := seq(NUM_CHANS, _ => ZeroChannel);
      channelMask := Resized(channelMask, MaskWords(NUM_CHANS));
      DefineDefaultChannels();
      channelMask := SetWord(channelMask, 0, 0x0007);
      dutyBands := dutyBands + [DutyBand(FREQ_MIN, FREQ_MAX, 30, 0, 0)];
      settings := settings.(session := settings.session.(txPower := settings.network.txPower));
      DefaultBandsShape();
    }

    /** The channel assignments of Init: the join channels 0-2, then empty channels 3-15. */
    method DefineDefaultChannels()
      requires |channels| == NUM_CHANS
      modifies this
      ensures |channels| == NUM_CHANS
      ensures forall i :: 0 <= i < DEFAULT_NUM_CHANS ==> channels[i] == DefaultChannel(i)
      ensures forall i :: DEFAULT_NUM_CHANS <= i < NUM_CHANS ==> channels[i] == ZeroChannel
      ensures settings == old(settings) && channelMask == old(channelMask)
      ensures dutyBands == old(dutyBands) && txChannel == old(txChannel)
    {
      var chan := Channel(865_062_500, MakeRange(MIN_DATARATE, MAX_DATARATE));
      var _ := AddChannel(0, chan);
      chan := chan.(frequency := 865_402_500);
      var _ := AddChannel(1, chan);
      chan := chan.(frequency := 865_985_000);
      var _ := AddChannel(2, chan);
      chan := ZeroChannel;
      var i := DEFAULT_NUM_CHANS;
      while i < NUM_CHANS
        invariant DEFAULT_NUM_CHANS <= i <= NUM_CHANS && |channels| == NUM_CHANS
        invariant forall j :: 0 <= j < DEFAULT_NUM_CHANS ==> channels[j] == DefaultChannel(j)
        invariant forall j :: DEFAULT_NUM_CHANS <= j < i ==> channels[j] == ZeroChannel
        invariant settings == old(settings) && channelMask == old(channelMask)
        invariant dutyBands == old(dutyBands) && txChannel == old(txChannel)
      {
        var _ := AddChannel(i, chan);
        i := i + 1;
      }
    }

    /** SetFrequencySubBand: IN865 has no sub-bands; nothing changes. */
    method SetFrequencySubBand(subBand: nat) returns (r: Status)
      ensures r == Ok
    {
      r := Ok;
    }

    /** HandleMacCommand: the plan handles no MAC command of its own. */
    method HandleMacCommand(payload: seq<Byte>, index: nat) returns (r: Status)
      ensures r == Error
    {
      r := Error;
    }

    /**
     * HandleJoinAccept: with a CFList of type 0 (byte 28), each taken CFList
     * frequency becomes the next channel from index 3 and updates mask word 0.
     */
    method HandleJoinAccept(buffer: seq<Byte>, size: nat) returns (r: Status)
      requires Valid()
      requires size <= |buffer| && (size > 17 ==> |buffer| > 28)
      requires size > 17 && buffer[28] == 0x00 ==> DEFAULT_NUM_CHANS + AcceptedCount(buffer, EU868.CfListEntries(size)) <= NUM_CHANS
      modifies this
      ensures Valid() && r == Ok
      ensures settings == old(settings) && dutyBands == old(dutyBands) && txChannel == old(txChannel)
      ensures size > 17 && buffer[28] == 0x00 ==>
        channels == CfChannels(old(channels), buffer, EU868.CfListEntries(size))
        && channelMask == [CfMask(old(channelMask)[0], old(dutyBands), buffer, EU868.CfListEntries(size))]
      ensures !(size > 17 && buffer[28] == 0x00) ==> channels == old(channels) && channelMask == old(channelMask)
    {
      if size > 17 && buffer[28] == 0x00 {
        var index := DEFAULT_NUM_CHANS;
        var i: int := 13;
        ghost var k: nat := 0;
        while i < size as int - 5
          invariant i == 13 + 3 * k && k <= EU868.CfListEntries(size)
          invariant i >= size as int - 5 ==> k == EU868.CfListEntries(size)
          invariant index == DEFAULT_NUM_CHANS + AcceptedCount(buffer, k)
          invariant DEFAULT_NUM_CHANS + AcceptedCount(buffer, k) <= NUM_CHANS
          invariant |channels| == NUM_CHANS && |channelMask| == 1
          invariant channels == CfChannels(old(channels), buffer, k)
          invariant channelMask == [CfMask(old(channelMask)[0], dutyBands, buffer, k)]
          invariant settings == old(settings) && dutyBands == old(dutyBands) && txChannel == old(txChannel)
          decreases size - i
        {
          JoinAcceptStep(buffer, size, k);
          index := JoinAcceptEntry(buffer, i, index);
          i := i + 3;
          k := k + 1;
        }
      }
      r := Ok;
    }

    /** One CFList entry: a taken frequency becomes channel index, updates the mask word, and moves index on. */
    method JoinAcceptEntry(buffer: seq<Byte>, i: nat, index: nat) returns (next: nat)
      requires |channels| == NUM_CHANS && |channelMask| == 1 && i + 3 <= |buffer|
      requires CfAccepted(FrequencyAt(buffer, i)) ==> index < NUM_CHANS
      modifies this
      ensures |channels| == NUM_CHANS && |channelMask| == 1
      ensures settings == old(settings) && dutyBands == old(dutyBands) && txChannel == old(txChannel)
      ensures var f := FrequencyAt(buffer, i);
        if CfAccepted(f) then
          next == index + 1
          && channels == old(channels)[index := Channel(f, MakeRange(MIN_DATARATE, MAX_DATARATE))]
          && channelMask == [EU868.CfMaskUpdate(dutyBands, old(channelMask)[0], f, index)]
        else next == index && channels == old(channels) && channelMask == old(channelMask)
    {
      next := index;
      var f := FrequencyAt(buffer, i);
      if f > 0 && f >= FREQ_MIN && f <= FREQ_MAX {
        var _ := AddChannel(index, Channel(f, MakeRange(MIN_DATARATE, MAX_DATARATE)));
        if GetDutyBand(dutyBands, f) > -1 {
          channelMask := channelMask[0 := channelMask[0] | Bit(index)];
        } else {
          channelMask := channelMask[0 := channelMask[0] | !Bit(index)];
        }
        next := index + 1;
      }
    }

    /** One iteration of the CFList loop stays within the entries and the channel table. */
    static lemma JoinAcceptStep(buffer: seq<Byte>, size: nat, k: nat)
      requires size <= |buffer| && size > 17 && 13 + 3 * k < size as int - 5
      requires DEFAULT_NUM_CHANS + AcceptedCount(buffer, EU868.CfListEntries(size)) <= NUM_CHANS
      ensures k < EU868.CfListEntries(size) && 13 + 3 * k + 3 <= |buffer|
      ensures 13 + 3 * (k + 1) >= size as int - 5 ==> k + 1 == EU868.CfListEntries(size)
      ensures DEFAULT_NUM_CHANS + AcceptedCount(buffer, k + 1) <= NUM_CHANS
    {
      assert k + 1 <= EU868.CfListEntries(size);
      assert k + 1 == EU868.CfListEntries(size) || AcceptedCount(buffer, k + 1) <= AcceptedCount(buffer, EU868.CfListEntries(size));
    }

    /**
     * HandleRxParamSetup (RXParamSetupReq): acknowledge each field, apply all
     * three only when all are valid; DR6 is refused (already outside DR0-5) and
     * every 3-bit offset is within 0-7.
     */
    method HandleRxParamSetup(payload: seq<Byte>, index: nat, checkRf: nat -> bool) returns (r: Status, status: Byte)
      requires Valid() && index + 4 <= |payload|
      modifies this
      ensures Valid() && r == Ok
      ensures channels == old(channels) && channelMask == old(channelMask)
      ensures dutyBands == old(dutyBands) && txChannel == old(txChannel)
      ensures var dr := LowNibble(payload[index]);
        var offset := MidBits(payload[index]);
        var f := FrequencyAt(payload, index + 1);
        (status & 1 == 1 <==> checkRf(f))
        && (status & 2 == 2 <==> MIN_RX2_DATARATE <= dr <= MAX_RX2_DATARATE)
        && status & 4 == 4
        && status & 0xF8 == 0
        && settings == if status == 0x07
                       then old(settings).(session := old(settings).session.(rx2DatarateIndex := dr, rx2Frequency := f, rx1DatarateOffset := offset))
                       else old(settings)
    {
      status := 0x07;
      var datarate := LowNibble(payload[index]);
      var drOffset := MidBits(payload[index]);
      var freq := FrequencyAt(payload, index + 1);
      if !checkRf(freq) {
        status := status & 0xFE;
      }
      if datarate < MIN_RX2_DATARATE || datarate > MAX_RX2_DATARATE || datarate == DR_6 {
        status := status & 0xFD;
      }
      if drOffset > MAX_DATARATE_OFFSET {
        status := status & 0xFB;
      }
      if status & 0x07 == 0x07 {
        settings := settings.(session := settings.session.(rx2DatarateIndex := datarate));
        settings := settings.(session := settings.session.(rx2Frequency := freq));
        settings := settings.(session := settings.session.(rx1DatarateOffset := drOffset));
      }
      r := Ok;
    }

    /**
     * HandleNewChannel (NewChannelReq): bit 0 rejects an index outside 3-15 or a
     * nonzero frequency outside the region, bit 1 a DrRange with min above max
     * or a bound above DR5 for a nonzero frequency (lower bounds are not
     * tested); an accepted request stores the channel (frequency 0 deleting it)
     * and sets its mask bit.
     */
    method HandleNewChannel(payload: seq<Byte>, index: nat) returns (r: Status, status: Byte)
      requires Valid() && index + 5 <= |payload|
      modifies this
      ensures Valid() && r == Ok
      ensures settings == old(settings) && dutyBands == old(dutyBands) && txChannel == old(txChannel)
      ensures var ch := payload[index] as nat;
        var f := FrequencyAt(payload, index + 1);
        var range := payload[index + 4];
        (status & 1 == 1 <==> DEFAULT_NUM_CHANS <= ch < NUM_CHANS && (f == 0 || FREQ_MIN <= f <= FREQ_MAX))
        && (status & 2 == 2 <==> f == 0 || ValidDrRange(range))
        && status & 0xFC == 0
        && (status == 0x03 ==>
              channels == old(channels)[ch := EU868.NewChannelEntry(f, range)] && channelMask == [old(channelMask)[0] | Bit(ch)])
        && (status != 0x03 ==> channels == old(channels) && channelMask == old(channelMask))
    {
      status := 0x03;
      var channelIndex := payload[index] as nat;
      var freq := FrequencyAt(payload, index + 1);
      var drRange := payload[index + 4];
      if channelIndex < DEFAULT_NUM_CHANS || channelIndex > |channels| - 1 {
        status := status & 0xFE;
      }
      if freq == 0 {
        drRange := 0;
      } else if freq < FREQ_MIN || freq > FREQ_MAX {
        status := status & 0xFE;
      }
      // The source writes each bound test twice over; once is the same test.
      if RangeMin(drRange) > RangeMax(drRange) && freq != 0 {
        status := status & 0xFD;
      } else if RangeMin(drRange) > MAX_DATARATE && freq != 0 {
        status := status & 0xFD;
      } else if RangeMax(drRange) > MAX_DATARATE && freq != 0 {
        status := status & 0xFD;
      }
      if status & 0x03 == 0x03 {
        var _ := AddChannel(channelIndex, Channel(freq, drRange));
        channelMask := SetWord(channelMask, 0, channelMask[0] | Bit(channelIndex));
      }
      r := Ok;
    }

    /** HandlePingSlotChannelReq: frequency 0 restores the beacon frequency; both fields must be acknowledged. */
    method HandlePingSlotChannelReq(payload: seq<Byte>, index: nat, checkRf: nat -> bool) returns (r: Status, status: Byte)
      requires Valid() && index + 4 <= |payload|
      modifies this
      ensures Valid() && r == Ok
      ensures channels == old(channels) && channelMask == old(channelMask)
      ensures dutyBands == old(dutyBands) && txChannel == old(txChannel)
      ensures var f := FrequencyAt(payload, index);
        var dr := LowNibble(payload[index + 3]);
        (status & 1 == 1 <==> f == 0 || checkRf(f))
        && (status & 2 == 2 <==> MIN_RX2_DATARATE <= dr <= MAX_RX2_DATARATE)
        && status & 0xFC == 0
        && settings == if status == 0x03
                       then old(settings).(session := old(settings).session.(
                              pingSlotFrequency := if f == 0 then BEACON_FREQ else f,
                              pingSlotDatarateIndex := dr))
                       else old(settings)
    {
      status := 0x03;
      var freq := FrequencyAt(payload, index);
      var datarate := LowNibble(payload[index + 3]);
      if freq == 0 {
        freq := BEACON_FREQ;
      } else if !checkRf(freq) {
        status := status & 0xFE;
      }
      if datarate < MIN_RX2_DATARATE || datarate > MAX_RX2_DATARATE {
        status := status & 0xFD;
      }
      if status & 0x03 == 0x03 {
        settings := settings.(session := settings.session.(pingSlotFrequency := freq, pingSlotDatarateIndex := datarate));
      }
      r := Ok;
    }

    /** HandleBeaconFrequencyReq: frequency 0 restores the default beacon frequency. */
    method HandleBeaconFrequencyReq(payload: seq<Byte>, index: nat, checkRf: nat -> bool) returns (r: Status, status: Byte)
      requires Valid() && index + 3 <= |payload|
      modifies this
      ensures Valid() && r == Ok
      ensures channels == old(channels) && channelMask == old(channelMask)
      ensures dutyBands == old(dutyBands) && txChannel == old(txChannel)
      ensures var f := FrequencyAt(payload, index);
        (status == 1 <==> f == 0 || checkRf(f)) && (status == 0 || status == 1)
        && settings == if status == 1
                       then old(settings).(session := old(settings).session.(beaconFrequency := if f == 0 then BEACON_FREQ else f))
                       else old(settings)
    {
      status := 0x01;
      var freq := FrequencyAt(payload, index);
      if freq == 0 {
        freq := BEACON_FREQ;
      } else if !checkRf(freq) {
        status := status & 0xFE;
      }
      if status & 0x01 != 0 {
        settings := settings.(session := settings.session.(beaconFrequency := freq));
      }
      r := Ok;
    }

    /** The ChMaskCntl 6 loop: a bit for each channel with a frequency. */
    method DefinedChannelsMask() returns (mask: Word)
      requires Valid()
      ensures mask == EU868.DefinedMask(channels, NUM_CHANS)
    {
      mask := 0;
      var i := 0;
      while i < |channels|
        invariant 0 <= i <= NUM_CHANS
        invariant mask == EU868.DefinedMask(channels, i)
      {
        if channels[i].frequency != 0 {
          mask := mask | Bit(i);
        }
        i := i + 1;
      }
    }

    /** The accepted LinkADRReq's datarate (0xF: unchanged), power index (0xF: unchanged) and NbRep take effect. */
    method CommitAdr(datarate: nat, power: nat, nbRep: nat)
      requires Valid() && (datarate == 0xF || datarate <= MAX_DATARATE) && (power == 0xF || power < |TX_POWERS|)
      modifies this
      ensures Valid()
      ensures channels == old(channels) && channelMask == old(channelMask)
      ensures dutyBands == old(dutyBands) && txChannel == old(txChannel)
      ensures settings == old(settings).(session := old(settings).session.(
        txDatarate := if datarate != 0xF then datarate else old(settings).session.txDatarate,
        txPower := if power != 0xF then TX_POWERS[power] else old(settings).session.txPower,
        redundancy := nbRep))
    {
      if datarate != 0xF {
        settings := settings.(session := settings.session.(txDatarate := datarate));
      }
      if power != 0xF {
        settings := settings.(session := settings.session.(txPower := TX_POWERS[power]));
      }
      settings := settings.(session := settings.session.(redundancy := nbRep));
    }

    /**
     * HandleAdrCommand (LinkADRReq): bit 1 rejects a datarate above DR5 (DR6
     * included), bit 2 a power index above 10 (0xF keeps either); ChMaskCntl 0
     * writes the mask word, 6 enables every defined channel, and any other
     * control is refused with LORA_ERROR and bit 0 cleared, changing nothing;
     * with ADR enabled a fully acknowledged request sets datarate, power and
     * redundancy (NbRep 0 meaning 1).
     */
    method HandleAdrCommand(payload: seq<Byte>, index: nat) returns (r: Status, status: Byte)
      requires Valid() && index + 4 <= |payload|
      modifies this
      ensures Valid()
      ensures channels == old(channels) && dutyBands == old(dutyBands) && txChannel == old(txChannel)
      ensures var q := DecodeLinkAdrReq(payload, index);
        (status & 2 == 0 <==> q.datarate != 0xF && q.datarate > MAX_DATARATE)
        && (status & 4 == 0 <==> q.power != 0xF && q.power > MAX_POWER_INDEX)
        && (status & 1 == 0 <==> q.ctrl != 0 && q.ctrl != 6)
        && status & 0xF8 == 0
        && (r == Error <==> q.ctrl != 0 && q.ctrl != 6) && (r == Ok || r == Error)
        && channelMask == EU868.AdrMask(old(channelMask), old(channels), q.ctrl, q.mask)
        && settings == if r == Ok && old(settings).network.adrEnabled && status == 0x07
                       then old(settings).(session := old(settings).session.(
                              txDatarate := if q.datarate != 0xF then q.datarate else old(settings).session.txDatarate,
                              txPower := if q.power != 0xF then TX_POWERS[q.power] else old(settings).session.txPower,
                              redundancy := if q.nbRep == 0 then 1 else q.nbRep))
                       else old(settings)
    {
      var q := DecodeLinkAdrReq(payload, index);
      var datarate := q.datarate;
      var power := q.power;
      var mask := q.mask;
      var ctrl := q.ctrl;
      var nbRep := q.nbRep;
      if nbRep == 0 {
        nbRep := 1;
      }
      status := AdrAck(datarate, power);
      if ctrl == 0 {
        channelMask := SetWord(channelMask, 0, mask);
      } else if ctrl == 6 {
        mask := DefinedChannelsMask();
        channelMask := SetWord(channelMask, 0, mask);
      } else {
        ClearMaskAck(status);
        status := status & 0xFE;
        return Error, status;
      }
      if settings.network.adrEnabled {
        if status == 0x07 {
          CommitAdr(datarate, power, nbRep);
        }
      }
      r := Ok;
    }

    /** The datarate and power acknowledgements of a LinkADRReq; bit 0 (mask) starts set. */
    static method AdrAck(datarate: nat, power: nat) returns (status: Byte)
      ensures status & 2 == 0 <==> datarate != 0xF && datarate > MAX_DATARATE
      ensures status & 4 == 0 <==> power != 0xF && power > MAX_POWER_INDEX
      ensures status & 1 == 1 && status & 0xF8 == 0
      ensures status == 0x07 <==> status & 2 != 0 && status & 4 != 0
    {
      status := 0x07;
      if datarate != 0xF && (datarate > MAX_DATARATE || datarate == DR_6) {
        status := status & 0xFD;
      }
      if power != 0xF && power > MAX_POWER_INDEX {
        status := status & 0xFB;
      }
    }

    /** ValidateAdrConfiguration: the datarate and power under ADR, then the mask against undefined channels. */
    method ValidateAdrConfiguration() returns (status: Byte)
      requires Valid()
      ensures status == AdrConfigStatus(settings, channelMask, channels)
    {
      status := 0x07;
      var datarate := settings.session.txDatarate;
      var power := settings.session.txPower;
      if settings.network.adrEnabled {
        if datarate > MAX_DATARATE || datarate == DR_6 {
          status := status & 0xFD;
        }
        if power < MIN_TX_POWER || power > MAX_TX_POWER {
          status := status & 0xFB;
        }
      }
      ghost var checked := status;
      var i := DEFAULT_NUM_CHANS;
      while i < NUM_CHANS
        invariant DEFAULT_NUM_CHANS <= i <= NUM_CHANS && status == checked
        invariant forall j :: DEFAULT_NUM_CHANS <= j < i ==> !(IsChannelEnabled(channelMask, j) && channels[j].frequency == 0)
      {
        if IsChannelEnabled(channelMask, i) && channels[i].frequency == 0 {
          assert EU868.UndefinedEnabled(channelMask, channels);
          status := status & 0xFE;
          break;
        }
        i := i + 1;
      }
    }

    /**
     * GetTimeOffAir: how long until the next uplink is allowed, from the
     * duty-cycle timer's now and the wall clock's wallNow (seconds).
     */
    method GetTimeOffAir(now: nat, wallNow: nat) returns (t: nat)
      requires Valid()
      requires P2PEnabled(settings) && !settings.test.disableDutyCycle ==> GetDutyBand(dutyBands, settings.network.txFrequency) != -1
      ensures t == TimeOffAir(settings, channels, channelMask, dutyBands, now, wallNow)
    {
      var min: nat := 0;
      if !settings.test.disableDutyCycle {
        min := UINT_MAX;
        if P2PEnabled(settings) {
          var band := GetDutyBand(dutyBands, settings.network.txFrequency);
          if dutyBands[band].timeOffEnd > now {
            min := dutyBands[band].timeOffEnd - now;
          } else {
            min := 0;
          }
        } else {
          min := ScanChannels(now);
        }
        if min == UINT_MAX {
          min := 0;
        }
      }
      if settings.session.aggregatedTimeOffEnd > 0 && settings.session.aggregatedTimeOffEnd > now {
        min := Max(min, settings.session.aggregatedTimeOffEnd - now);
      }
      var joinTime := 0;
      if !settings.session.joined && settings.session.joinFirstAttempt != 0 && wallNow < settings.session.joinTimeOffEnd {
        joinTime := Wrap32((settings.session.joinTimeOffEnd - wallNow) * 1000);
      }
      min := Max(joinTime, min);
      t := min;
    }

    /** The channel loop of GetTimeOffAir: the least time-off left over the counted channels, stopping at 0. */
    method ScanChannels(now: nat) returns (min: nat)
      requires Valid()
      ensures min == MinWait(UINT_MAX, EU868.ChannelWaits(settings, channels, channelMask, dutyBands, now))
    {
      ghost var waits := EU868.ChannelWaits(settings, channels, channelMask, dutyBands, now);
      min := UINT_MAX;
      var i := 0;
      while i < |channels|
        invariant 0 <= i <= NUM_CHANS
        invariant min == MinWait(UINT_MAX, waits[..i])
      {
        assert waits[..i + 1][..i] == waits[..i];
        var w := ChannelWaitOf(i, now);
        if w == 0 {
          assert waits[i] == 0;
          MinWaitZero(UINT_MAX, waits);
          return 0;
        } else if w > 0 {
          min := Min(min, w);
        }
        i := i + 1;
      }
      assert waits[..NUM_CHANS] == waits;
    }

    /** The test of the GetTimeOffAir channel loop for channel i: -1 when not counted, else the time-off left in its band. */
    method ChannelWaitOf(i: nat, now: nat) returns (w: int)
      requires |channels| == NUM_CHANS && |channelMask| == 1 && i < NUM_CHANS
      ensures w == EU868.ChannelWait(settings, channels, channelMask, dutyBands, now, i)
    {
      w := -1;
      var dr := settings.session.txDatarate;
      var c := channels[i];
      if IsChannelEnabled(channelMask, i) && c.frequency != 0 && !(dr < RangeMin(c.drRange) || dr > RangeMax(c.drRange)) {
        var band := GetDutyBand(dutyBands, c.frequency);
        if band != -1 {
          if dutyBands[band].timeOffEnd > now {
            w := dutyBands[band].timeOffEnd - now;
          } else {
            w := 0;
          }
        }
      }
    }

    /**
     * UpdateDutyCycle: after an uplink on freq lasting toa ms, at duty-cycle time
     * now, set the aggregated deadline and update the band's deadline, which
     * stays 0 when it was.
     */
    method UpdateDutyCycle(freq: nat, toa: nat, now: nat)
      requires Valid()
      modifies this
      ensures Valid()
      ensures settings == old(settings).(session := old(settings).session.(aggregatedTimeOffEnd := EU868.AggregatedAfter(old(settings), toa, now)))
      ensures |dutyBands| == |old(dutyBands)|
      ensures forall i :: 0 <= i < |dutyBands| ==> dutyBands[i] == UpdatedBand(old(settings), old(dutyBands)[i], freq, toa, now)
      ensures NoTimeOff(old(dutyBands)) ==> NoTimeOff(dutyBands)
      ensures channels == old(channels) && channelMask == old(channelMask) && txChannel == old(txChannel)
    {
      if settings.session.maxDutyCycle > 0 && settings.session.maxDutyCycle <= 15 {
        settings := settings.(session := settings.session.(aggregatedTimeOffEnd := Wrap32(now + toa * settings.session.aggregateDutyCycle)));
      } else {
        settings := settings.(session := settings.session.(aggregatedTimeOffEnd := 0));
      }
      UpdatedBandsShape(old(settings), dutyBands, freq, toa, now);
      var i := 0;
      while i < |dutyBands|
        invariant 0 <= i <= |dutyBands| == |old(dutyBands)|
        invariant forall j :: 0 <= j < i ==> dutyBands[j] == UpdatedBand(old(settings), old(dutyBands)[j], freq, toa, now)
        invariant forall j :: i <= j < |dutyBands| ==> dutyBands[j] == old(dutyBands)[j]
        invariant settings == old(settings).(session := old(settings).session.(aggregatedTimeOffEnd := EU868.AggregatedAfter(old(settings), toa, now)))
        invariant channels == old(channels) && channelMask == old(channelMask) && txChannel == old(txChannel)
      {
        var b := dutyBands[i];
        if b.timeOffEnd < now {
          b := b.(timeOffEnd := 0);
        } else {
          b := b.(timeOffEnd := b.timeOffEnd - now);
        }
        if freq >= b.frequencyMin && freq <= b.frequencyMax {
          if freq > FREQ_MIN && freq < FREQ_MAX && settings.session.txPower + settings.network.antennaGain <= 7 {
            b := b.(timeOffEnd := 0);
          } else {
            b := b.(timeOffEnd := Wrap32(toa * b.dutyCycle));
          }
        }
        dutyBands := dutyBands[i := b];
        i := i + 1;
      }
      assert dutyBands == seq(|old(dutyBands)|, i requires 0 <= i < |old(dutyBands)| => UpdatedBand(old(settings), old(dutyBands)[i], freq, toa, now));
    }

    /** EnableDefaultChannels: set the bits of the three join channels. */
    method EnableDefaultChannels()
      requires Valid()
      modifies this
      ensures Valid()
      ensures channelMask == [old(channelMask)[0] | 0x0007]
      ensures settings == old(settings) && channels == old(channels)
      ensures dutyBands == old(dutyBands) && txChannel == old(txChannel)
    {
      channelMask := channelMask[0 := channelMask[0] | 0x0007];
    }

    /**
     * IncrementDatarate: the session datarate one step up, skipping DR6.
     */
    method IncrementDatarate()
      requires Valid()
      modifies this
      ensures Valid()
      ensures settings == old(settings).(session := old(settings).session.(txDatarate := NextDatarate(old(settings).session.txDatarate)))
      ensures channels == old(channels) && channelMask == old(channelMask)
      ensures dutyBands == old(dutyBands) && txChannel == old(txChannel)
    {
      var dr := settings.session.txDatarate;
      if dr < MAX_DATARATE {
        dr := dr + 1;
      }
      if dr == DR_6 {
        dr := 7;
      }
      settings := settings.(session := settings.session.(txDatarate := dr));
    }

    /**
     * DecrementDatarate: the session datarate one step down, skipping DR6.
     */
    method DecrementDatarate()
      requires Valid()
      modifies this
      ensures Valid()
      ensures settings == old(settings).(session := old(settings).session.(txDatarate := PrevDatarate(old(settings).session.txDatarate)))
      ensures channels == old(channels) && channelMask == old(channelMask)
      ensures dutyBands == old(dutyBands) && txChannel == old(txChannel)
    {
      var dr := settings.session.txDatarate;
      if dr > MIN_DATARATE {
        dr := dr - 1;
      }
      if dr == DR_6 {
        dr := 5;
      }
      settings := settings.(session := settings.session.(txDatarate := dr));
    }

    /**
     * GetNextChannel: refused while the aggregated duty cycle is pending; with a
     * fixed transmit frequency only that frequency's band is checked, which
     * never blocks while the band has no time-off; otherwise the bands whose
     * time-off has passed are released, the enabled channels that allow the
     * datarate and sit in a released band are listed, and the random selector,
     * which may fail, picks one of them.
     */
    method GetNextChannel(now: nat) returns (r: Status)
      requires Valid()
      modifies this
      ensures Valid()
      ensures channels == old(channels) && channelMask == old(channelMask) && settings == old(settings)
      ensures NoTimeOff(old(dutyBands)) ==> dutyBands == old(dutyBands)
      ensures old(settings).session.aggregatedTimeOffEnd != 0 ==>
        r == AggregatedDutyCycle && dutyBands == old(dutyBands) && txChannel == old(txChannel)
      ensures old(settings).session.aggregatedTimeOffEnd == 0 && EU868.FixedFrequency(old(settings)) ==>
        dutyBands == old(dutyBands) && txChannel == old(txChannel)
        && r == (if !old(settings).test.disableDutyCycle && EU868.BandBlocked(old(dutyBands), old(settings).network.txFrequency)
                 then NoChansEnabled else Ok)
        && (NoTimeOff(old(dutyBands)) ==> r == Ok)
      ensures old(settings).session.aggregatedTimeOffEnd == 0 && !EU868.FixedFrequency(old(settings)) ==>
        var released := ReleasedBands(old(dutyBands), now, old(settings).test.disableDutyCycle);
        var candidates := Candidates(old(channels), old(channelMask), released, old(settings).session.txDatarate);
        dutyBands == released
        && (r == Ok <==> |candidates| > 0) && (r == Ok || r == NoChansEnabled)
        && (txChannel == old(txChannel) || txChannel in candidates)
    {
      if settings.session.aggregatedTimeOffEnd != 0 {
        return AggregatedDutyCycle;
      }
      if P2PEnabled(settings) || settings.network.txFrequency != 0 {
        if !settings.test.disableDutyCycle {
          var band := GetDutyBand(dutyBands, settings.network.txFrequency);
          if band != -1 && dutyBands[band].timeOffEnd != 0 {
            return NoChansEnabled;
          }
        }
        return Ok;
      }
      r := SearchChannel(now);
    }

    /** The channel-search branch of GetNextChannel. */
    method SearchChannel(now: nat) returns (r: Status)
      requires Valid()
      modifies this
      ensures Valid()
      ensures channels == old(channels) && channelMask == old(channelMask) && settings == old(settings)
      ensures NoTimeOff(old(dutyBands)) ==> dutyBands == old(dutyBands)
      ensures var released := ReleasedBands(old(dutyBands), now, old(settings).test.disableDutyCycle);
        var candidates := Candidates(old(channels), old(channelMask), released, old(settings).session.txDatarate);
        dutyBands == released
        && (r == Ok <==> |candidates| > 0) && (r == Ok || r == NoChansEnabled)
        && (txChannel == old(txChannel) || txChannel in candidates)
    {
      var dr := settings.session.txDatarate;
      ReleaseBands(now);
      var enabledChannels, nbEnabled := EnabledChannels(dr);
      if nbEnabled == 0 {
        return NoChansEnabled;
      }
      forall c | c in enabledChannels[..nbEnabled]
        ensures c < NUM_CHANS
      {
        CandidatesMembers(channels, channelMask, dutyBands, dr, c);
      }
      PickChannel(enabledChannels, nbEnabled);
      r := Ok;
    }

    /** _randomChannel.NextChannel: may fail (the channel is kept) or pick one of the listed channels. */
    method PickChannel(enabledChannels: array<nat>, nbEnabled: nat)
      requires Valid() && 0 < nbEnabled <= enabledChannels.Length
      requires forall c :: c in enabledChannels[..nbEnabled] ==> c < NUM_CHANS
      modifies this
      ensures Valid()
      ensures txChannel == old(txChannel) || txChannel in enabledChannels[..nbEnabled]
      ensures settings == old(settings) && channels == old(channels) && channelMask == old(channelMask)
      ensures dutyBands == old(dutyBands)
    {
      if * {
        var k :| 0 <= k < nbEnabled;
        assert enabledChannels[k] == enabledChannels[..nbEnabled][k];
        assert enabledChannels[k] in enabledChannels[..nbEnabled];
        txChannel := enabledChannels[k];
      }
    }

    /** The search loop of GetNextChannel: the candidate channels for datarate dr, in increasing order. */
    method EnabledChannels(dr: nat) returns (enabledChannels: array<nat>, nbEnabled: nat)
      requires Valid() && dr < 16
      ensures fresh(enabledChannels)
      ensures nbEnabled <= enabledChannels.Length
      ensures enabledChannels[..nbEnabled] == Candidates(channels, channelMask, dutyBands, dr)
    {
      var start := 0;
      var maxChannels := NUM_CHANS;
      enabledChannels := new nat[NUM_CHANS];
      if DATARATES[dr].bandwidth == Bw500 {
        maxChannels := 0;
        start := NUM_CHANS;
      }
      nbEnabled := 0;
      var ch := start;
      ghost var flags := EU868.EligibleFlags(channels, channelMask, dutyBands, dr);
      while ch < start + maxChannels
        invariant start <= ch <= start + maxChannels <= NUM_CHANS && nbEnabled <= ch - start
        invariant enabledChannels[..nbEnabled] == Selected(flags, start, ch)
        modifies enabledChannels
      {
        var taken := IsCandidate(ch, dr);
        if taken {
          Push(enabledChannels, nbEnabled, ch);
          nbEnabled := nbEnabled + 1;
        }
        assert taken == flags[ch];
        ch := ch + 1;
      }
    }

    /** The test of the search loop: enabled, datarate in range, and a released band. */
    method IsCandidate(ch: nat, dr: nat) returns (taken: bool)
      requires Valid() && ch < NUM_CHANS
      ensures taken == EU868.Eligible(channels, channelMask, dutyBands, dr, ch)
    {
      taken := false;
      var range := channels[ch].drRange;
      if IsChannelEnabled(channelMask, ch) && dr >= RangeMin(range) && dr <= RangeMax(range) {
        var band := GetDutyBand(dutyBands, channels[ch].frequency);
        if band != -1 && dutyBands[band].timeOffEnd == 0 {
          taken := true;
        }
      }
    }

    /** The release loop of GetNextChannel: a band whose time-off has passed, or every band with duty cycling disabled, is freed. */
    method ReleaseBands(now: nat)
      requires Valid()
      modifies this
      ensures Valid()
      ensures dutyBands == ReleasedBands(old(dutyBands), now, settings.test.disableDutyCycle)
      ensures settings == old(settings) && channels == old(channels) && channelMask == old(channelMask)
      ensures txChannel == old(txChannel)
    {
      var i := 0;
      while i < |dutyBands|
        invariant 0 <= i <= |dutyBands| == |old(dutyBands)|
        invariant forall j :: 0 <= j < i ==> dutyBands[j] == ReleasedBand(old(dutyBands)[j], now, settings.test.disableDutyCycle)
        invariant forall j :: i <= j < |dutyBands| ==> dutyBands[j] == old(dutyBands)[j]
        invariant settings == old(settings) && channels == old(channels) && channelMask == old(channelMask)
        invariant txChannel == old(txChannel)
      {
        if dutyBands[i].timeOffEnd < now || settings.test.disableDutyCycle {
          dutyBands := dutyBands[i := dutyBands[i].(timeOffEnd := 0)];
        }
        i := i + 1;
      }
      ReleasedShape(old(dutyBands), now, settings.test.disableDutyCycle);
    }

    /**
     * SetTxConfig: the radio configuration of the next uplink; the power index is
     * getTxPowerIndex of the conducted power, and DR7 selects FSK.
     */
    method SetTxConfig(powerIndex: int -> int) returns (cfg: TxConfig)
      requires Valid()
      requires GetDutyBand(dutyBands, channels[txChannel].frequency) != -1
      ensures var band := GetDutyBand(dutyBands, channels[txChannel].frequency);
        var fsk := settings.session.txDatarate == 7;
        cfg == TxConfig(if fsk then ModemFsk else ModemLora,
                        ToInt8(powerIndex(EU868.ConductedPower(settings.session.txPower, dutyBands[band].powerMax,
                                                               settings.network.antennaGain))),
                        if fsk then 25000 else 0)
    {
      var band := GetDutyBand(dutyBands, channels[txChannel].frequency);
      var txDr := DATARATES[settings.session.txDatarate];
      var maxPwr := ToInt8(dutyBands[band].powerMax);
      var pwr := ToInt8(settings.session.txPower);
      pwr := if pwr < maxPwr then pwr else maxPwr;
      pwr := ToInt8(pwr - settings.network.antennaGain);
      pwr := ToInt8(powerIndex(pwr));
      DatarateBandwidths(settings.session.txDatarate);
      var modem := ModemLora;
      var fdev := 0;
      if txDr.spreadingFactor == SfFsk {
        modem := ModemFsk;
        fdev := 25000;
      }
      cfg := TxConfig(modem, pwr, fdev);
    }
  }
}
