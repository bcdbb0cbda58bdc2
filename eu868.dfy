/**
 * The EU863-870 channel plan: sixteen uplink channels the network server can
 * define, of which the three join channels exist from Init, a single mask word,
 * and six duty bands, one per ETSI sub-band, each with its duty-cycle divisor.
 */
module EU868 {
  import opened Bits
  import opened LoraTypes
  import opened Wire
  import opened DutyCycle
  import opened ChannelMask

  // Constants of section 2.1 of the LoRaWAN Regional Parameters 1.0.2.
  const NUM_CHANS: nat := 16
  const DEFAULT_NUM_CHANS: nat := 3
  const FREQ_BASE_125K: nat := 868_100_000
  const FREQ_STEP_125K: nat := 200_000
  const FREQ_MIN: nat := 863_000_000
  const FREQ_MAX: nat := 870_000_000
  const MIN_DATARATE: nat := 0
  const MAX_DATARATE: nat := 5
  const MIN_RX2_DATARATE: nat := 0
  const MAX_RX2_DATARATE: nat := 5
  const MAX_DATARATE_OFFSET: nat := 5
  const MIN_TX_POWER: nat := 0
  const MAX_TX_POWER: nat := 27
  const RX2_FREQ: nat := 869_525_000
  const BEACON_FREQ: nat := 869_525_000
  const BEACON_DR: nat := 3

  // Edges of the ETSI EN 300 220 sub-bands the six duty bands cover.
  const MILLI_0_FREQ_MIN: nat := 863_000_000
  const MILLI_0_FREQ_MAX: nat := 865_000_000
  const MILLI_FREQ_MIN: nat := 865_000_000
  const MILLI_FREQ_MAX: nat := 868_000_000
  const CENTI_FREQ_MIN: nat := 868_000_000
  const CENTI_FREQ_MAX: nat := 868_600_000
  const MILLI_1_FREQ_MIN: nat := 868_700_000
  const MILLI_1_FREQ_MAX: nat := 869_200_000
  const DECI_FREQ_MIN: nat := 869_400_000
  const DECI_FREQ_MAX: nat := 869_650_000
  const VAR_FREQ_MIN: nat := 869_700_000
  const VAR_FREQ_MAX: nat := 870_000_000

  /** EU868_TX_POWERS: the conducted power (dBm) of each TXPower index, as the plan defines it. */
  const TX_POWERS: seq<nat> := [16, 14, 12, 9, 8, 6, 4, 2]

  /** The datarate table Init builds: DR0-5 SF12-SF7/125, DR6 SF7/250, DR7 FSK, DR8-15 RFU. */
  const DATARATES: seq<Datarate> := [
    Datarate(Sf(12), Bw125), Datarate(Sf(11), Bw125), Datarate(Sf(10), Bw125),
    Datarate(Sf(9), Bw125), Datarate(Sf(8), Bw125), Datarate(Sf(7), Bw125),
    Datarate(Sf(7), Bw250), Datarate(SfFsk, BwFsk),
    Datarate(SfInvalid, BwFsk), Datarate(SfInvalid, BwFsk), Datarate(SfInvalid, BwFsk), Datarate(SfInvalid, BwFsk),
    Datarate(SfInvalid, BwFsk), Datarate(SfInvalid, BwFsk), Datarate(SfInvalid, BwFsk), Datarate(SfInvalid, BwFsk)]

  /**
   * The six duty bands Init adds, in order: 865-868 MHz (1 %), 868-868.6 MHz
   * (1 %), 869.4-869.65 MHz (10 %, 29 dBm), 869.7-870 MHz (1 %),
   * 868.7-869.2 MHz (0.1 %) and 863-865 MHz (0.1 %).
   */
  const DEFAULT_BANDS: seq<DutyBand> := [
    DutyBand(MILLI_FREQ_MIN, MILLI_FREQ_MAX, 16, 100, 0),
    DutyBand(CENTI_FREQ_MIN, CENTI_FREQ_MAX, 16, 100, 0),
    DutyBand(DECI_FREQ_MIN, DECI_FREQ_MAX, 29, 10, 0),
    DutyBand(VAR_FREQ_MIN, VAR_FREQ_MAX, 16, 100, 0),
    DutyBand(MILLI_1_FREQ_MIN, MILLI_1_FREQ_MAX, 16, 1000, 0),
    DutyBand(MILLI_0_FREQ_MIN, MILLI_0_FREQ_MAX, 16, 1000, 0)]

  /** No datarate of the table uses 500 kHz; only DR7 is FSK. */
  lemma DatarateBandwidths(dr: nat)
    requires dr < 16
    ensures DATARATES[dr].bandwidth != Bw500
    ensures DATARATES[dr].spreadingFactor == SfFsk <==> dr == 7
    ensures DATARATES[dr].bandwidth == Bw125 <==> dr <= MAX_DATARATE
  {
  }

  /**
   * A band table as the plan keeps it: the six bands of Init, of which only the
   * uint32_t time-off deadlines change.
   */
  predicate BandsShape(bands: seq<DutyBand>)
  {
    |bands| == |DEFAULT_BANDS| &&
    forall i :: 0 <= i < |bands| ==> bands[i].(timeOffEnd := 0) == DEFAULT_BANDS[i] && bands[i].timeOffEnd < U32
  }

  /** The bands of Init have the shape every operation keeps. */
  lemma DefaultBandsShape()
    ensures BandsShape(DEFAULT_BANDS)
  {
    forall i | 0 <= i < |DEFAULT_BANDS|
      ensures DEFAULT_BANDS[i].(timeOffEnd := 0) == DEFAULT_BANDS[i] && DEFAULT_BANDS[i].timeOffEnd < U32
    {
      assert DEFAULT_BANDS[i].timeOffEnd == 0;
    }
  }

  /** Band lookup on the plan's bands is the lookup on the bands of Init. */
  lemma BandsLookup(bands: seq<DutyBand>, f: nat)
    requires BandsShape(bands)
    ensures GetDutyBand(bands, f) == GetDutyBand(DEFAULT_BANDS, f)
  {
    forall i | 0 <= i < |bands|
      ensures bands[i].frequencyMin == DEFAULT_BANDS[i].frequencyMin && bands[i].frequencyMax == DEFAULT_BANDS[i].frequencyMax
    {
      assert bands[i].(timeOffEnd := 0) == DEFAULT_BANDS[i];
    }
    GetDutyBandSpansOnly(bands, DEFAULT_BANDS, f);
  }

  /** Every frequency some band covers lies within the region, so it is not 0. */
  lemma BandedFrequencyInRegion(bands: seq<DutyBand>, f: nat)
    requires BandsShape(bands) && GetDutyBand(bands, f) != -1
    ensures FREQ_MIN <= f <= FREQ_MAX && f != 0
  {
    BandsLookup(bands, f);
    var b := GetDutyBand(DEFAULT_BANDS, f);
    assert BandContains(DEFAULT_BANDS[b], f);
  }

  /** The three join channels of Init: 868.1, 868.3 and 868.5 MHz, DR0-5. */
  function DefaultChannel(i: nat): (c: Channel)
    requires i < DEFAULT_NUM_CHANS
    ensures RangeMin(c.drRange) == MIN_DATARATE && RangeMax(c.drRange) == MAX_DATARATE
  {
    Channel(FREQ_BASE_125K + FREQ_STEP_125K * i, MakeRange(MIN_DATARATE, MAX_DATARATE))
  }

  /** The join channels lie in the 868-868.6 MHz band (band 1) and are usable at DR0-5. */
  lemma DefaultChannelsBanded(i: nat, bands: seq<DutyBand>)
    requires i < DEFAULT_NUM_CHANS && BandsShape(bands)
    ensures GetDutyBand(bands, DefaultChannel(i).frequency) == 1
    ensures FREQ_MIN <= DefaultChannel(i).frequency <= FREQ_MAX
  {
    BandsLookup(bands, DefaultChannel(i).frequency);
  }

  /** The settings Init leaves: RX2, beacon and ping-slot defaults without hopping, DR0 and the configured power. */
  function InitSettings(s: Settings): (r: Settings)
    ensures r.network == s.network && r.multicast == s.multicast && r.test == s.test
  {
    s.(session := s.session.(
      rx2Frequency := RX2_FREQ,
      rx2DatarateIndex := MIN_RX2_DATARATE,
      beaconFrequency := BEACON_FREQ,
      beaconFreqHop := false,
      pingSlotFrequency := BEACON_FREQ,
      pingSlotDatarateIndex := BEACON_DR,
      pingSlotFreqHop := false,
      txDatarate := 0,
      txPower := s.network.txPower))
  }

  /** GetAckTimeout: 2 s at RX2 DR0, halved for each datarate step up to DR2, 0 beyond. */
  function GetAckTimeout(rx2Datarate: nat): (t: nat)
    ensures t <= 2000
    ensures rx2Datarate == 0 ==> t == 2000
    ensures 0 < rx2Datarate <= 2 ==> t * 2 == GetAckTimeout(rx2Datarate - 1)
    ensures rx2Datarate > 2 ==> t == 0
  {
    if rx2Datarate == 0 then 2000
    else if rx2Datarate == 1 then 1000
    else if rx2Datarate == 2 then 500
    else 0
  }

  /** The RX1 datarate: the uplink datarate lowered by the offset, and DR0 when the offset reaches it. */
  function Rx1Datarate(txDatarate: nat, offset: nat): (dr: nat)
    ensures dr <= txDatarate
    ensures txDatarate > offset ==> dr + offset == txDatarate
    ensures txDatarate <= offset ==> dr == 0
  {
    if txDatarate > offset then txDatarate - offset else 0
  }

  /** A larger offset never raises the RX1 datarate, a larger uplink datarate never lowers it. */
  lemma Rx1DatarateMonotone(tx1: nat, tx2: nat, off1: nat, off2: nat)
    requires tx1 <= tx2 && off2 <= off1
    ensures Rx1Datarate(tx1, off1) <= Rx1Datarate(tx2, off2)
  {
  }

  /**
   * GetRxWindow: the uplink frequency or the RX1 channel's frequency with the
   * offset datarate, the beacon, a ping slot (multicast session id - 1 for
   * id 1-8), an active multicast session's class C window, or RX2.
   */
  function GetRxWindow(s: Settings, channels: seq<Channel>, txChannel: nat, window: Window, id: int): (w: RxWindow)
    requires SettingsOk(s) && txChannel < |channels|
    ensures P2PEnabled(s) ==> w == RxWindow(s.network.txFrequency, s.session.txDatarate)
    ensures !P2PEnabled(s) && window == Rx1 ==>
      w == RxWindow(channels[txChannel].frequency, Rx1Datarate(s.session.txDatarate, s.session.rx1DatarateOffset))
    ensures !P2PEnabled(s) && window == RxBeacon ==> w == RxWindow(s.session.beaconFrequency, BEACON_DR)
    ensures !P2PEnabled(s) && window == RxSlot ==>
      w == if 1 <= id <= 8 then RxWindow(s.multicast[id - 1].frequency, s.multicast[id - 1].datarateIndex)
           else RxWindow(s.session.pingSlotFrequency, s.session.pingSlotDatarateIndex)
    ensures !P2PEnabled(s) && window == RxC ==>
      w == if 0 < id <= MAX_MULTICAST_SESSIONS && s.multicast[id - 1].active
           then RxWindow(s.multicast[id - 1].frequency, s.multicast[id - 1].datarateIndex)
           else RxWindow(s.session.rx2Frequency, s.session.rx2DatarateIndex)
    ensures !P2PEnabled(s) && (window == Rx2 || window == RxTest) ==>
      w == RxWindow(s.session.rx2Frequency, s.session.rx2DatarateIndex)
  {
    if P2PEnabled(s) then RxWindow(s.network.txFrequency, s.session.txDatarate)
    else match window
      case Rx1 => RxWindow(channels[txChannel].frequency, Rx1Datarate(s.session.txDatarate, s.session.rx1DatarateOffset))
      case RxBeacon => RxWindow(s.session.beaconFrequency, BEACON_DR)
      case RxSlot =>
        if id >= 1 && id <= 8 then RxWindow(s.multicast[id - 1].frequency, s.multicast[id - 1].datarateIndex)
        else RxWindow(s.session.pingSlotFrequency, s.session.pingSlotDatarateIndex)
      case RxC =>
        if id > 0 && id <= MAX_MULTICAST_SESSIONS && s.multicast[id - 1].active
        then RxWindow(s.multicast[id - 1].frequency, s.multicast[id - 1].datarateIndex)
        else RxWindow(s.session.rx2Frequency, s.session.rx2DatarateIndex)
      case _ => RxWindow(s.session.rx2Frequency, s.session.rx2DatarateIndex)
  }

  /** The RX1 window follows the uplink channel and never uses a datarate above the uplink's. */
  lemma Rx1BelowUplink(s: Settings, channels: seq<Channel>, txChannel: nat, id: int)
    requires SettingsOk(s) && txChannel < |channels| && !P2PEnabled(s)
    ensures GetRxWindow(s, channels, txChannel, Rx1, id).frequency == channels[txChannel].frequency
    ensures 0 <= GetRxWindow(s, channels, txChannel, Rx1, id).datarateIndex <= s.session.txDatarate
  {
  }

  /** Settings whose RX2 parameters an accepted RXParamSetupReq has replaced use them for RX2. */
  lemma Rx2FollowsSetup(s: Settings, channels: seq<Channel>, txChannel: nat, f: nat, dr: nat, offset: nat)
    requires SettingsOk(s) && txChannel < |channels| && !P2PEnabled(s)
    ensures var s' := s.(session := s.session.(rx2DatarateIndex := dr, rx2Frequency := f, rx1DatarateOffset := offset));
      GetRxWindow(s', channels, txChannel, Rx2, 0) == RxWindow(f, dr)
      && GetAckTimeout(s'.session.rx2DatarateIndex) == GetAckTimeout(dr)
  {
  }

  /**
   * The conducted power SetTxConfig hands to getTxPowerIndex: the session power
   * capped by the band's PowerMax (both read as int8_t), less the antenna gain,
   * stored in an int8_t.
   */
  function ConductedPower(txPower: int, powerMax: int, gain: int): int
  {
    var capped := if ToInt8(txPower) < ToInt8(powerMax) then ToInt8(txPower) else ToInt8(powerMax);
    ToInt8(capped - gain)
  }

  /** Without int8_t wrap-around the radiated power (conducted plus gain) is within the band cap and the session power. */
  lemma ConductedPowerLimits(txPower: int, powerMax: int, gain: int)
    requires -128 <= txPower < 128 && -128 <= powerMax < 128
    requires -128 <= (if txPower < powerMax then txPower else powerMax) - gain < 128
    ensures ConductedPower(txPower, powerMax, gain) + gain <= powerMax
    ensures ConductedPower(txPower, powerMax, gain) + gain <= txPower
    ensures ConductedPower(txPower, powerMax, gain) + gain == txPower || ConductedPower(txPower, powerMax, gain) + gain == powerMax
  {
  }

  /** Whether NewChannelReq's DrRange passes: min <= max, both within DR0-5. */
  predicate ValidDrRange(range: Byte)
  {
    RangeMin(range) <= RangeMax(range)
    && MIN_DATARATE <= RangeMin(range) <= MAX_DATARATE
    && MIN_DATARATE <= RangeMax(range) <= MAX_DATARATE
  }

  /** The channel NewChannelReq defines: a zero frequency deletes the channel and forces its DrRange to 0. */
  function NewChannelEntry(f: nat, range: Byte): (c: Channel)
    ensures c.frequency == f
    ensures f == 0 ==> c == ZeroChannel
  {
    Channel(f, if f == 0 then 0 else range)
  }

  /** A mask word with bit index also set keeps every other channel and enables channel index. */
  lemma SetBitEnables(w: Word, index: nat, ch: nat)
    requires index < NUM_CHANS && ch < NUM_CHANS
    ensures IsChannelEnabled([w | Bit(index)], ch) <==> ch == index || IsChannelEnabled([w], ch)
  {
    EnabledIsBit([w | Bit(index)], ch);
    EnabledIsBit([w], ch);
    OrBitOthers(w, index, ch);
  }

  /**
   * ChMaskCntl 6's mask: bit i set for each of the first n channels with a
   * nonzero frequency.
   */
  function DefinedMask(channels: seq<Channel>, n: nat): Word
    requires n <= |channels| && n <= NUM_CHANS
  {
    if n == 0 then 0
    else if channels[n - 1].frequency != 0 then DefinedMask(channels, n - 1) | Bit(n - 1)
    else DefinedMask(channels, n - 1)
  }

  /** The mask of ChMaskCntl 6 enables exactly the defined channels among the first n. */
  lemma {:induction false} DefinedMaskBits(channels: seq<Channel>, n: nat, k: nat)
    requires n <= |channels| && n <= NUM_CHANS && k < NUM_CHANS
    ensures BitSet(DefinedMask(channels, n), k) <==> k < n && channels[k].frequency != 0
  {
    if n > 0 {
      DefinedMaskBits(channels, n - 1, k);
      var prev := DefinedMask(channels, n - 1);
      if channels[n - 1].frequency != 0 {
        OrBitOthers(prev, n - 1, k);
      }
      DefinedMaskStep(prev, DefinedMask(channels, n), n, k, channels[n - 1].frequency != 0, k < n && channels[k].frequency != 0);
    }
  }

  /** The propositional step of DefinedMaskBits. */
  lemma DefinedMaskStep(prev: Word, cur: Word, n: nat, k: nat, defined: bool, wanted: bool)
    requires 0 < n <= NUM_CHANS && k < NUM_CHANS
    requires BitSet(prev, k) <==> k < n - 1 && wanted
    requires defined ==> (BitSet(cur, k) <==> k == n - 1 || BitSet(prev, k))
    requires !defined ==> cur == prev
    requires k == n - 1 ==> (wanted <==> defined)
    requires k >= n ==> !wanted
    ensures BitSet(cur, k) <==> wanted
  {
  }

  /** After ChMaskCntl 6 a channel is enabled exactly when it is defined. */
  lemma Ctrl6EnablesDefined(channels: seq<Channel>, ch: nat)
    requires |channels| == NUM_CHANS && ch < NUM_CHANS
    ensures IsChannelEnabled([DefinedMask(channels, NUM_CHANS)], ch) <==> channels[ch].frequency != 0
  {
    EnabledIsBit([DefinedMask(channels, NUM_CHANS)], ch);
    DefinedMaskBits(channels, NUM_CHANS, ch);
  }

  /** The channel mask after HandleAdrCommand's ChMaskCntl switch (only 0 and 6 are accepted). */
  function AdrMask(mask: seq<Word>, channels: seq<Channel>, ctrl: nat, m: Word): (r: seq<Word>)
    requires |mask| == 1 && |channels| == NUM_CHANS
    ensures |r| == 1
  {
    if ctrl == 0 then [m]
    else if ctrl == 6 then [DefinedMask(channels, NUM_CHANS)]
    else mask
  }

  /** Whether some channel 3-15 is enabled but has no frequency: the condition ValidateAdrConfiguration rejects. */
  predicate UndefinedEnabled(mask: seq<Word>, channels: seq<Channel>)
    requires |mask| == 1 && |channels| == NUM_CHANS
  {
    exists i :: DEFAULT_NUM_CHANS <= i < NUM_CHANS && IsChannelEnabled(mask, i) && channels[i].frequency == 0
  }

  /**
   * ValidateAdrConfiguration's verdict: under ADR, bit 1 rejects a datarate
   * above DR5 and bit 2 a power above 27 dBm; bit 0 rejects a mask that enables
   * an undefined channel.
   */
  function AdrConfigStatus(s: Settings, mask: seq<Word>, channels: seq<Channel>): (status: Byte)
    requires |mask| == 1 && |channels| == NUM_CHANS
    ensures status & 0xF8 == 0
    ensures status & 1 == 0 <==> UndefinedEnabled(mask, channels)
    ensures status & 2 == 0 <==> s.network.adrEnabled && s.session.txDatarate > MAX_DATARATE
    ensures status & 4 == 0 <==> s.network.adrEnabled && (s.session.txPower < MIN_TX_POWER || s.session.txPower > MAX_TX_POWER)
  {
    var s1: Byte := if s.network.adrEnabled && s.session.txDatarate > MAX_DATARATE then 0x07 & 0xFD else 0x07;
    var s2 := if s.network.adrEnabled && (s.session.txPower < MIN_TX_POWER || s.session.txPower > MAX_TX_POWER) then s1 & 0xFB else s1;
    if UndefinedEnabled(mask, channels) then s2 & 0xFE else s2
  }

  /** The mask and channels of Init pass the channel-mask check. */
  lemma InitMaskPassesAdr(s: Settings, channels: seq<Channel>)
    requires |channels| == NUM_CHANS
    requires forall i :: DEFAULT_NUM_CHANS <= i < NUM_CHANS ==> channels[i] == ZeroChannel
    ensures AdrConfigStatus(s, [0x0007], channels) & 1 == 1
  {
    forall i | DEFAULT_NUM_CHANS <= i < NUM_CHANS
      ensures !IsChannelEnabled([0x0007], i)
    {
      EnabledIsBit([0x0007], i);
      SevenBits(i);
    }
  }

  /** 0x0007 sets exactly bits 0-2. */
  lemma SevenBits(k: nat)
    requires k < 16
    ensures BitSet(0x0007, k) <==> k < DEFAULT_NUM_CHANS
  {
    SevenBitsEach();
    if k == 0 {
    } else if k == 1 {
    } else if k == 2 {
    } else if k == 3 {
    } else if k == 4 {
    } else if k == 5 {
    } else if k == 6 {
    } else if k == 7 {
    } else if k == 8 {
    } else if k == 9 {
    } else if k == 10 {
    } else if k == 11 {
    } else if k == 12 {
    } else if k == 13 {
    } else if k == 14 {
    } else {
    }
  }

  lemma SevenBitsEach()
    ensures BitSet(0x0007, 0) && BitSet(0x0007, 1) && BitSet(0x0007, 2)
    ensures !BitSet(0x0007, 3) && !BitSet(0x0007, 4) && !BitSet(0x0007, 5) && !BitSet(0x0007, 6)
    ensures !BitSet(0x0007, 7) && !BitSet(0x0007, 8) && !BitSet(0x0007, 9) && !BitSet(0x0007, 10)
    ensures !BitSet(0x0007, 11) && !BitSet(0x0007, 12) && !BitSet(0x0007, 13) && !BitSet(0x0007, 14)
    ensures !BitSet(0x0007, 15)
  {
  }

  /**
   * A channel NewChannelReq deleted (frequency 0) keeps its mask bit, so the
   * next ValidateAdrConfiguration rejects the mask.
   */
  lemma DeletedChannelFailsAdr(s: Settings, mask: seq<Word>, channels: seq<Channel>, index: nat)
    requires |mask| == 1 && |channels| == NUM_CHANS && DEFAULT_NUM_CHANS <= index < NUM_CHANS
    ensures AdrConfigStatus(s, [mask[0] | Bit(index)], channels[index := NewChannelEntry(0, 0)]) & 1 == 0
  {
    SetBitEnables(mask[0], index, index);
    assert IsChannelEnabled([mask[0] | Bit(index)], index);
  }

  /** The candidate test of GetNextChannel: enabled, datarate in range, and a band whose time-off has passed. */
  predicate Eligible(channels: seq<Channel>, mask: seq<Word>, bands: seq<DutyBand>, dr: nat, ch: nat)
    requires |channels| == NUM_CHANS && |mask| == 1 && ch < NUM_CHANS
  {
    IsChannelEnabled(mask, ch) && DatarateInRange(dr, channels[ch])
    && var b := GetDutyBand(bands, channels[ch].frequency);
       b != -1 && bands[b].timeOffEnd == 0
  }

  function EligibleFlags(channels: seq<Channel>, mask: seq<Word>, bands: seq<DutyBand>, dr: nat): (r: seq<bool>)
    requires |channels| == NUM_CHANS && |mask| == 1
    ensures |r| == NUM_CHANS
    ensures forall ch :: 0 <= ch < NUM_CHANS ==> r[ch] == Eligible(channels, mask, bands, dr, ch)
  {
    seq(NUM_CHANS, ch requires 0 <= ch < NUM_CHANS => Eligible(channels, mask, bands, dr, ch))
  }

  /** The first channel the search visits: past the 125 kHz channels when the datarate is a 500 kHz one. */
  function SearchStart(dr: nat): nat
    requires dr < 16
  {
    if DATARATES[dr].bandwidth == Bw500 then NUM_CHANS else 0
  }

  /** The number of channels the search visits: the 16 channels, or the (zero) 500 kHz channels. */
  function SearchCount(dr: nat): nat
    requires dr < 16
  {
    if DATARATES[dr].bandwidth == Bw500 then 0 else NUM_CHANS
  }

  /** The enabledChannels list of GetNextChannel. */
  function Candidates(channels: seq<Channel>, mask: seq<Word>, bands: seq<DutyBand>, dr: nat): seq<nat>
    requires |channels| == NUM_CHANS && |mask| == 1 && dr < 16
  {
    Selected(EligibleFlags(channels, mask, bands, dr), SearchStart(dr), SearchStart(dr) + SearchCount(dr))
  }

  /** The candidates are exactly the eligible channels, listed in increasing order. */
  lemma CandidatesMembers(channels: seq<Channel>, mask: seq<Word>, bands: seq<DutyBand>, dr: nat, ch: nat)
    requires |channels| == NUM_CHANS && |mask| == 1 && dr < 16
    ensures ch in Candidates(channels, mask, bands, dr) <==> ch < NUM_CHANS && Eligible(channels, mask, bands, dr, ch)
    ensures forall a, b :: 0 <= a < b < |Candidates(channels, mask, bands, dr)| ==>
      Candidates(channels, mask, bands, dr)[a] < Candidates(channels, mask, bands, dr)[b]
  {
    DatarateBandwidths(dr);
    SelectedMembers(EligibleFlags(channels, mask, bands, dr), 0, NUM_CHANS, ch);
    SelectedIncreasing(EligibleFlags(channels, mask, bands, dr), 0, NUM_CHANS);
  }

  /**
   * Every candidate has a frequency within the region, so the frequency handed
   * to the radio is never 0; in particular a deleted channel, whose mask bit
   * NewChannelReq leaves set, is never a candidate.
   */
  lemma CandidatesHaveFrequency(channels: seq<Channel>, mask: seq<Word>, bands: seq<DutyBand>, dr: nat, ch: nat)
    requires |channels| == NUM_CHANS && |mask| == 1 && dr < 16 && BandsShape(bands)
    requires ch in Candidates(channels, mask, bands, dr)
    ensures ch < NUM_CHANS && FREQ_MIN <= channels[ch].frequency <= FREQ_MAX && channels[ch] != ZeroChannel
  {
    CandidatesMembers(channels, mask, bands, dr, ch);
    BandedFrequencyInRegion(bands, channels[ch].frequency);
  }

  /** Whether the band of a fixed transmit frequency is still in its time-off. */
  predicate BandBlocked(bands: seq<DutyBand>, f: nat)
  {
    var b := GetDutyBand(bands, f);
    b != -1 && bands[b].timeOffEnd != 0
  }

  /**
   * One channel's entry in the GetTimeOffAir scan: -1 when the channel is not
   * counted (disabled, undefined, datarate out of range, or outside every band),
   * 0 when its band's time-off has passed, else the time left.
   */
  function ChannelWait(s: Settings, channels: seq<Channel>, mask: seq<Word>, bands: seq<DutyBand>, now: nat, i: nat): int
    requires |channels| == NUM_CHANS && |mask| == 1 && i < NUM_CHANS
  {
    var c := channels[i];
    if IsChannelEnabled(mask, i) && c.frequency != 0 && DatarateInRange(s.session.txDatarate, c) then
      var b := GetDutyBand(bands, c.frequency);
      if b == -1 then -1
      else if bands[b].timeOffEnd > now then bands[b].timeOffEnd - now
      else 0
    else -1
  }

  function ChannelWaits(s: Settings, channels: seq<Channel>, mask: seq<Word>, bands: seq<DutyBand>, now: nat): (r: seq<int>)
    requires |channels| == NUM_CHANS && |mask| == 1
    ensures |r| == NUM_CHANS
    ensures forall i :: 0 <= i < NUM_CHANS ==> r[i] == ChannelWait(s, channels, mask, bands, now, i)
  {
    seq(NUM_CHANS, i requires 0 <= i < NUM_CHANS => ChannelWait(s, channels, mask, bands, now, i))
  }

  /** Whether GetNextChannel and GetTimeOffAir use Network.TxFrequency rather than the channels. */
  predicate FixedFrequency(s: Settings)
  {
    P2PEnabled(s) || s.network.txFrequency != 0
  }

  /**
   * The duty-band term of GetTimeOffAir: 0 with duty cycling disabled; the
   * time-off left in the band of a fixed frequency; or the least time-off left
   * over the counted channels, 0 as soon as one is free; UINT_MAX (nothing
   * counted) reads as 0.
   */
  function BandTerm(s: Settings, channels: seq<Channel>, mask: seq<Word>, bands: seq<DutyBand>, now: nat): nat
    requires |channels| == NUM_CHANS && |mask| == 1
    requires FixedFrequency(s) && !s.test.disableDutyCycle ==> GetDutyBand(bands, s.network.txFrequency) != -1
  {
    if s.test.disableDutyCycle then 0
    else
      var m := if FixedFrequency(s) then
                 var b := GetDutyBand(bands, s.network.txFrequency);
                 (if bands[b].timeOffEnd > now then bands[b].timeOffEnd - now else 0)
               else MinWait(UINT_MAX, ChannelWaits(s, channels, mask, bands, now));
      if m == UINT_MAX then 0 else m
  }

  /** GetTimeOffAir: the largest of the band term, the aggregated term and the join term. */
  function TimeOffAir(s: Settings, channels: seq<Channel>, mask: seq<Word>, bands: seq<DutyBand>, now: nat, wallNow: nat): nat
    requires |channels| == NUM_CHANS && |mask| == 1
    requires FixedFrequency(s) && !s.test.disableDutyCycle ==> GetDutyBand(bands, s.network.txFrequency) != -1
  {
    Max(JoinWait(s.session, wallNow), Max(BandTerm(s, channels, mask, bands, now), AggregatedWait(s.session, now)))
  }

  /**
   * The band term of the channel scan is 0 when some counted channel's band is
   * free, never exceeds the time left of a counted channel, and when positive
   * is the time left of one of them.
   */
  lemma BandTermScan(s: Settings, channels: seq<Channel>, mask: seq<Word>, bands: seq<DutyBand>, now: nat)
    requires |channels| == NUM_CHANS && |mask| == 1 && !FixedFrequency(s) && !s.test.disableDutyCycle
    ensures var t := BandTerm(s, channels, mask, bands, now);
      var waits := ChannelWaits(s, channels, mask, bands, now);
      ((exists i :: 0 <= i < NUM_CHANS && waits[i] == 0) ==> t == 0)
      && (forall i :: 0 <= i < NUM_CHANS && waits[i] >= 0 ==> t <= waits[i])
      && (t > 0 ==> exists i :: 0 <= i < NUM_CHANS && waits[i] == t)
  {
    var waits := ChannelWaits(s, channels, mask, bands, now);
    MinWaitZero(UINT_MAX, waits);
    MinWaitBelow(UINT_MAX, waits);
    MinWaitAttained(UINT_MAX, waits);
  }

  /** GetTimeOffAir is at least each of its three terms and is one of them. */
  lemma TimeOffAirIsLargestTerm(s: Settings, channels: seq<Channel>, mask: seq<Word>, bands: seq<DutyBand>, now: nat, wallNow: nat)
    requires |channels| == NUM_CHANS && |mask| == 1
    requires FixedFrequency(s) && !s.test.disableDutyCycle ==> GetDutyBand(bands, s.network.txFrequency) != -1
    ensures var t := TimeOffAir(s, channels, mask, bands, now, wallNow);
      t >= JoinWait(s.session, wallNow) && t >= AggregatedWait(s.session, now)
      && t >= BandTerm(s, channels, mask, bands, now)
      && (t == JoinWait(s.session, wallNow) || t == AggregatedWait(s.session, now) || t == BandTerm(s, channels, mask, bands, now))
  {
  }

  /**
   * A band after UpdateDutyCycle: its deadline made relative to now (0 once
   * passed); the band holding the transmit frequency recharges to
   * time-on-air times its divisor, except inside the 869.7-870 MHz band at no
   * more than 7 dBm radiated, which needs no time-off.
   */
  function UpdatedBand(s: Settings, b: DutyBand, freq: nat, toa: nat, now: nat): DutyBand
  {
    var decayed := b.(timeOffEnd := DecayedTimeOff(b.timeOffEnd, now));
    if BandContains(b, freq) then
      if VAR_FREQ_MIN < freq < VAR_FREQ_MAX && s.session.txPower + s.network.antennaGain <= 7 then decayed.(timeOffEnd := 0)
      else decayed.(timeOffEnd := Wrap32(toa * b.dutyCycle))
    else decayed
  }

  /** The aggregated deadline UpdateDutyCycle sets: now plus time-on-air times the aggregate divisor, when MaxDutyCycle is 1-15. */
  function AggregatedAfter(s: Settings, toa: nat, now: nat): (t: nat)
    ensures t < U32
    ensures !(0 < s.session.maxDutyCycle <= 15) ==> t == 0
    ensures 0 < s.session.maxDutyCycle <= 15 && now + toa * s.session.aggregateDutyCycle < U32 ==>
      t == now + toa * s.session.aggregateDutyCycle
  {
    if s.session.maxDutyCycle > 0 && s.session.maxDutyCycle <= 15 then Wrap32(now + toa * s.session.aggregateDutyCycle) else 0
  }

  /**
   * UpdateDutyCycle keeps each band's span, cap and divisor; the band holding
   * the frequency gets its full time-off (or 0 under the 7 dBm exemption);
   * every other band only counts down.
   */
  lemma UpdatedBandEffect(s: Settings, b: DutyBand, freq: nat, toa: nat, now: nat)
    ensures var r := UpdatedBand(s, b, freq, toa, now);
      r.(timeOffEnd := 0) == b.(timeOffEnd := 0) && (r.timeOffEnd < U32 || r.timeOffEnd <= b.timeOffEnd)
    ensures var r := UpdatedBand(s, b, freq, toa, now);
      (BandContains(b, freq) && !(VAR_FREQ_MIN < freq < VAR_FREQ_MAX && s.session.txPower + s.network.antennaGain <= 7)
       && toa * b.dutyCycle < U32) ==> r.timeOffEnd == toa * b.dutyCycle
    ensures var r := UpdatedBand(s, b, freq, toa, now);
      BandContains(b, freq) && VAR_FREQ_MIN < freq < VAR_FREQ_MAX && s.session.txPower + s.network.antennaGain <= 7 ==> r.timeOffEnd == 0
    ensures var r := UpdatedBand(s, b, freq, toa, now);
      !BandContains(b, freq) ==> r.timeOffEnd <= b.timeOffEnd && (r.timeOffEnd == 0 <==> b.timeOffEnd <= now)
  {
  }

  /** UpdateDutyCycle keeps the shape of the band table. */
  lemma UpdatedBandsShape(s: Settings, bands: seq<DutyBand>, freq: nat, toa: nat, now: nat)
    requires BandsShape(bands)
    ensures BandsShape(seq(|bands|, i requires 0 <= i < |bands| => UpdatedBand(s, bands[i], freq, toa, now)))
  {
    var r := seq(|bands|, i requires 0 <= i < |bands| => UpdatedBand(s, bands[i], freq, toa, now));
    forall i | 0 <= i < |r|
      ensures r[i].(timeOffEnd := 0) == DEFAULT_BANDS[i] && r[i].timeOffEnd < U32
    {
      assert bands[i].(timeOffEnd := 0) == DEFAULT_BANDS[i];
    }
  }

  /**
   * GetJoinDatarate: with random join datarates on, DevNonce % 20 picks DR0 at
   * 0, DR1 at 16, DR2 at 12, DR3 at 8, DR4 at 4 and DR5 otherwise; with them
   * off the session datarate is kept.
   */
  function JoinDatarate(s: Settings): (dr: nat)
    ensures s.test.disableRandomJoinDatarate ==> dr == s.session.txDatarate
    ensures !s.test.disableRandomJoinDatarate ==>
      var c := s.network.devNonce % 20;
      dr <= MAX_DATARATE
      && (dr == 0 <==> c == 0) && (dr == 1 <==> c == 16) && (dr == 2 <==> c == 12)
      && (dr == 3 <==> c == 8) && (dr == 4 <==> c == 4)
  {
    var cnt := s.network.devNonce % 20;
    if s.test.disableRandomJoinDatarate then s.session.txDatarate
    else if cnt % 20 == 0 then 0
    else if cnt % 16 == 0 then 1
    else if cnt % 12 == 0 then 2
    else if cnt % 8 == 0 then 3
    else if cnt % 4 == 0 then 4
    else 5
  }

  /** The DevNonce % 20 at which the join datarate is dr (DR0-DR4). */
  function JoinResidue(dr: nat): nat
    requires dr < MAX_DATARATE
  {
    [0, 16, 12, 8, 4][dr]
  }

  /** The join datarate of the k-th nonce counted from base. */
  function NonceDatarate(s: Settings, base: nat, k: nat): nat
  {
    JoinDatarate(s.(network := s.network.(devNonce := base + k)))
  }

  /**
   * Over any twenty consecutive nonces, each of DR0-DR4 is tried exactly once
   * (and DR5 on the other fifteen).
   */
  lemma JoinDatarateOncePerCycle(s: Settings, base: nat, dr: nat)
    requires !s.test.disableRandomJoinDatarate && dr < MAX_DATARATE
    ensures exists k :: 0 <= k < 20 && NonceDatarate(s, base, k) == dr
    ensures forall k1, k2 ::
      (0 <= k1 < 20 && 0 <= k2 < 20 && NonceDatarate(s, base, k1) == dr && NonceDatarate(s, base, k2) == dr) ==> k1 == k2
  {
    var t := JoinResidue(dr);
    var k := (t + 20 - base % 20) % 20;
    assert (base + k) % 20 == t by {
      assert base == 20 * (base / 20) + base % 20;
    }
    assert NonceDatarate(s, base, k) == dr;
    forall k1, k2 | 0 <= k1 < 20 && 0 <= k2 < 20 && NonceDatarate(s, base, k1) == dr && NonceDatarate(s, base, k2) == dr
      ensures k1 == k2
    {
      assert (base + k1) % 20 == t && (base + k2) % 20 == t;
      SameResidue(base, k1, k2);
    }
  }

  /** Two offsets below 20 that give a base the same residue modulo 20 are equal. */
  lemma SameResidue(base: nat, k1: nat, k2: nat)
    requires k1 < 20 && k2 < 20 && (base + k1) % 20 == (base + k2) % 20
    ensures k1 == k2
  {
    var r := base % 20;
    assert base == 20 * (base / 20) + r;
    assert (base + k1) % 20 == (r + k1) % 20;
    assert (base + k2) % 20 == (r + k2) % 20;
  }

  /** The channel entries of a Join-Accept CFList: (size - 16) / 3 three-byte frequencies from byte 13. */
  function CfListEntries(size: nat): nat
  {
    if size <= 18 then 0 else (size - 16) / 3
  }

  /** The frequency of CFList entry k. */
  function CfFrequency(buffer: seq<Byte>, k: nat): nat
    requires 13 + 3 * k + 3 <= |buffer|
  {
    FrequencyAt(buffer, 13 + 3 * k)
  }

  /** Whether a CFList frequency is taken: nonzero and within the region. */
  predicate CfAccepted(f: nat)
  {
    f > 0 && FREQ_MIN <= f <= FREQ_MAX
  }

  /** The number of CFList entries among the first k that are taken. */
  function AcceptedCount(buffer: seq<Byte>, k: nat): (n: nat)
    requires 13 + 3 * k <= |buffer|
    ensures n <= k
    ensures forall j :: 0 <= j < k ==> AcceptedCount(buffer, j) <= n
    decreases k
  {
    if k == 0 then 0 else AcceptedCount(buffer, k - 1) + (if CfAccepted(CfFrequency(buffer, k - 1)) then 1 else 0)
  }

  /**
   * The mask word after taking a CFList channel: its bit is set when a band
   * covers the frequency, and otherwise every other bit is set (the source ors in
   * the complement of the bit).
   */
  function CfMaskUpdate(bands: seq<DutyBand>, m: Word, f: nat, index: nat): Word
    requires index < NUM_CHANS
  {
    if GetDutyBand(bands, f) > -1 then m | Bit(index) else m | !Bit(index)
  }

  /**
   * The channel table after the first k CFList entries: each taken frequency
   * becomes the next channel from index 3 on, with DR0-5.
   */
  function CfChannels(channels: seq<Channel>, buffer: seq<Byte>, k: nat): (r: seq<Channel>)
    requires 13 + 3 * k <= |buffer| && |channels| == NUM_CHANS
    requires DEFAULT_NUM_CHANS + AcceptedCount(buffer, k) <= NUM_CHANS
    ensures |r| == NUM_CHANS
    decreases k
  {
    if k == 0 then channels
    else
      var prev := CfChannels(channels, buffer, k - 1);
      var f := CfFrequency(buffer, k - 1);
      if CfAccepted(f) then prev[DEFAULT_NUM_CHANS + AcceptedCount(buffer, k - 1) := Channel(f, MakeRange(MIN_DATARATE, MAX_DATARATE))]
      else prev
  }

  /** The mask word after the first k CFList entries: each taken frequency updates it. */
  function CfMask(mask: Word, bands: seq<DutyBand>, buffer: seq<Byte>, k: nat): Word
    requires 13 + 3 * k <= |buffer|
    requires DEFAULT_NUM_CHANS + AcceptedCount(buffer, k) <= NUM_CHANS
    decreases k
  {
    if k == 0 then mask
    else
      var prev := CfMask(mask, bands, buffer, k - 1);
      var f := CfFrequency(buffer, k - 1);
      if CfAccepted(f) then CfMaskUpdate(bands, prev, f, DEFAULT_NUM_CHANS + AcceptedCount(buffer, k - 1))
      else prev
  }

  /** A taken entry j updates the mask word CfMask leaves after the first j entries. */
  lemma CfMaskNext(mask: Word, bands: seq<DutyBand>, buffer: seq<Byte>, j: nat)
    requires 13 + 3 * (j + 1) <= |buffer| && CfAccepted(CfFrequency(buffer, j))
    requires DEFAULT_NUM_CHANS + AcceptedCount(buffer, j + 1) <= NUM_CHANS
    ensures DEFAULT_NUM_CHANS + AcceptedCount(buffer, j) < NUM_CHANS
    ensures CfMask(mask, bands, buffer, j + 1)
      == CfMaskUpdate(bands, CfMask(mask, bands, buffer, j), CfFrequency(buffer, j), DEFAULT_NUM_CHANS + AcceptedCount(buffer, j))
  {
  }

  /** The bits of the updated mask word: bit index set, or every other bit set, and nothing cleared. */
  lemma CfMaskUpdateBits(bands: seq<DutyBand>, m: Word, f: nat, index: nat, ch: nat)
    requires index < NUM_CHANS && ch < NUM_CHANS
    ensures BitSet(CfMaskUpdate(bands, m, f, index), ch) <==>
      if GetDutyBand(bands, f) > -1 then ch == index || BitSet(m, ch) else ch != index || BitSet(m, ch)
  {
    var c := BitSet(CfMaskUpdate(bands, m, f, index), ch);
    if GetDutyBand(bands, f) > -1 {
      assert CfMaskUpdate(bands, m, f, index) == m | Bit(index);
      OrBitOthers(m, index, ch);
      assert c == (ch == index || BitSet(m, ch));
    } else {
      assert CfMaskUpdate(bands, m, f, index) == m | !Bit(index);
      OrNotBitOthers(m, index, ch);
      assert c == (ch != index || BitSet(m, ch));
    }
  }

  /** One CFList entry never clears a mask bit. */
  lemma CfListStepKeepsBit(mask: Word, bands: seq<DutyBand>, buffer: seq<Byte>, k: nat, ch: nat)
    requires 13 + 3 * k <= |buffer| && 0 < k && ch < NUM_CHANS
    requires DEFAULT_NUM_CHANS + AcceptedCount(buffer, k) <= NUM_CHANS
    requires BitSet(CfMask(mask, bands, buffer, k - 1), ch)
    ensures BitSet(CfMask(mask, bands, buffer, k), ch)
  {
    var prev := CfMask(mask, bands, buffer, k - 1);
    var f := CfFrequency(buffer, k - 1);
    if CfAccepted(f) {
      var index := DEFAULT_NUM_CHANS + AcceptedCount(buffer, k - 1);
      assert CfMask(mask, bands, buffer, k) == CfMaskUpdate(bands, prev, f, index);
      CfMaskUpdateBits(bands, prev, f, index, ch);
    }
  }

  /** The CFList loop never clears a mask bit. */
  lemma {:induction false} CfListMaskGrows(mask: Word, bands: seq<DutyBand>, buffer: seq<Byte>, j: nat, k: nat, ch: nat)
    requires 13 + 3 * k <= |buffer| && j <= k && ch < NUM_CHANS
    requires DEFAULT_NUM_CHANS + AcceptedCount(buffer, k) <= NUM_CHANS
    requires BitSet(CfMask(mask, bands, buffer, j), ch)
    ensures BitSet(CfMask(mask, bands, buffer, k), ch)
    decreases k
  {
    if j < k {
      CfListMaskGrows(mask, bands, buffer, j, k - 1, ch);
      CfListStepKeepsBit(mask, bands, buffer, k, ch);
    }
  }

  /** Channels below 3 and past the last one taken keep their entries. */
  lemma {:induction false} CfListKeeps(channels: seq<Channel>, buffer: seq<Byte>, k: nat, ch: nat)
    requires 13 + 3 * k <= |buffer| && |channels| == NUM_CHANS && ch < NUM_CHANS
    requires DEFAULT_NUM_CHANS + AcceptedCount(buffer, k) <= NUM_CHANS
    requires ch < DEFAULT_NUM_CHANS || ch >= DEFAULT_NUM_CHANS + AcceptedCount(buffer, k)
    ensures CfChannels(channels, buffer, k)[ch] == channels[ch]
    decreases k
  {
    if k > 0 {
      CfListKeeps(channels, buffer, k - 1, ch);
    }
  }

  /** Taken entry j lands in channel 3 + (number taken before it), with DR0-5. */
  lemma {:induction false} CfListPlaces(channels: seq<Channel>, buffer: seq<Byte>, k: nat, j: nat)
    requires 13 + 3 * k <= |buffer| && |channels| == NUM_CHANS && j < k
    requires DEFAULT_NUM_CHANS + AcceptedCount(buffer, k) <= NUM_CHANS
    requires CfAccepted(CfFrequency(buffer, j))
    ensures DEFAULT_NUM_CHANS + AcceptedCount(buffer, j) < NUM_CHANS
    ensures CfChannels(channels, buffer, k)[DEFAULT_NUM_CHANS + AcceptedCount(buffer, j)]
      == Channel(CfFrequency(buffer, j), MakeRange(MIN_DATARATE, MAX_DATARATE))
    decreases k
  {
    assert AcceptedCount(buffer, j + 1) == AcceptedCount(buffer, j) + 1;
    if j < k - 1 {
      CfListPlaces(channels, buffer, k - 1, j);
      var index := DEFAULT_NUM_CHANS + AcceptedCount(buffer, j);
      var last := DEFAULT_NUM_CHANS + AcceptedCount(buffer, k - 1);
      assert AcceptedCount(buffer, j + 1) <= AcceptedCount(buffer, k - 1);
      assert index < last;
      var prev := CfChannels(channels, buffer, k - 1);
      assert CfChannels(channels, buffer, k) == prev || CfChannels(channels, buffer, k) == prev[last := CfChannels(channels, buffer, k)[last]];
    }
  }

  /** A taken entry that a band covers has its channel's mask bit set. */
  lemma CfListBandedBit(mask: Word, bands: seq<DutyBand>, buffer: seq<Byte>, k: nat, j: nat)
    requires 13 + 3 * k <= |buffer| && j < k
    requires DEFAULT_NUM_CHANS + AcceptedCount(buffer, k) <= NUM_CHANS
    requires CfAccepted(CfFrequency(buffer, j)) && GetDutyBand(bands, CfFrequency(buffer, j)) != -1
    ensures DEFAULT_NUM_CHANS + AcceptedCount(buffer, j) < NUM_CHANS
    ensures BitSet(CfMask(mask, bands, buffer, k), DEFAULT_NUM_CHANS + AcceptedCount(buffer, j))
  {
    var index := DEFAULT_NUM_CHANS + AcceptedCount(buffer, j);
    assert j + 1 == k || AcceptedCount(buffer, j + 1) <= AcceptedCount(buffer, k);
    CfMaskNext(mask, bands, buffer, j);
    CfMaskUpdateBits(bands, CfMask(mask, bands, buffer, j), CfFrequency(buffer, j), index, index);
    CfListMaskGrows(mask, bands, buffer, j + 1, k, index);
  }

  /**
   * A taken frequency that no band covers enables every other channel, defined
   * or not: the effect of or-ing in the complement of its bit.
   */
  lemma CfListOutsideBands(mask: Word, bands: seq<DutyBand>, buffer: seq<Byte>, k: nat, j: nat, ch: nat)
    requires 13 + 3 * k <= |buffer| && j < k && ch < NUM_CHANS
    requires DEFAULT_NUM_CHANS + AcceptedCount(buffer, k) <= NUM_CHANS
    requires CfAccepted(CfFrequency(buffer, j)) && GetDutyBand(bands, CfFrequency(buffer, j)) == -1
    requires ch != DEFAULT_NUM_CHANS + AcceptedCount(buffer, j)
    ensures BitSet(CfMask(mask, bands, buffer, k), ch)
  {
    var index := DEFAULT_NUM_CHANS + AcceptedCount(buffer, j);
    assert j + 1 == k || AcceptedCount(buffer, j + 1) <= AcceptedCount(buffer, k);
    CfMaskNext(mask, bands, buffer, j);
    CfMaskUpdateBits(bands, CfMask(mask, bands, buffer, j), CfFrequency(buffer, j), index, ch);
    CfListMaskGrows(mask, bands, buffer, j + 1, k, ch);
  }

  /** ChannelPlan_EU868: the channel table, the channel mask, the duty bands and the channel in use. */
  class ChannelPlan {
    var settings: Settings
    var channels: seq<Channel>
    var channelMask: seq<Word>
    var dutyBands: seq<DutyBand>
    var txChannel: nat

    /** What Init establishes and every operation keeps. */
    ghost predicate Valid()
      reads this
    {
      SettingsOk(settings) && |channels| == NUM_CHANS && |channelMask| == 1
      && txChannel < NUM_CHANS && BandsShape(dutyBands)
    }

    constructor(s: Settings)
      requires SettingsOk(s)
      ensures settings == s && channels == [] && channelMask == [] && dutyBands == [] && txChannel == 0
    {
      settings := s;
      channels := [];
      channelMask := [];
      dutyBands := [];
      txChannel := 0;
    }

    /** AddChannel: overwrite the channel at index, or append for a negative index. */
    method AddChannel(index: int, c: Channel) returns (r: Status)
      requires index < |channels|
      modifies this
      ensures r == Ok
      ensures channels == if index >= 0 then old(channels)[index := c] else old(channels) + [c]
      ensures settings == old(settings) && channelMask == old(channelMask)
      ensures dutyBands == old(dutyBands) && txChannel == old(txChannel)
    {
      if index >= 0 {
        channels := channels[index := c];
      } else {
        channels := channels + [c];
      }
      r := Ok;
    }

    /**
     * Init: the three join channels and thirteen empty ones, only the join
     * channels enabled, the six duty bands, and the session defaults.
     */
    method Init()
      requires SettingsOk(settings) && txChannel < NUM_CHANS
      modifies this
      ensures Valid()
      ensures settings == InitSettings(old(settings)) && txChannel == old(txChannel)
      ensures forall i :: 0 <= i < DEFAULT_NUM_CHANS ==> channels[i] == DefaultChannel(i)
      ensures forall i :: DEFAULT_NUM_CHANS <= i < NUM_CHANS ==> channels[i] == ZeroChannel
      ensures channelMask == [0x0007]
      ensures dutyBands == DEFAULT_BANDS
    {
      channels := [];
      dutyBands := [];
      settings := settings.(session := settings.session.(rx2Frequency := RX2_FREQ, rx2DatarateIndex := MIN_RX2_DATARATE));
      settings := settings.(session := settings.session.(
        beaconFrequency := BEACON_FREQ, beaconFreqHop := false,
        pingSlotFrequency := BEACON_FREQ, pingSlotDatarateIndex := BEACON_DR, pingSlotFreqHop := false));
      settings := settings.(session := settings.session.(txDatarate := 0));
      // SetNumberOfChannels(16): sixteen (zeroed) channels and one mask word.
      channels := seq(NUM_CHANS, _ => ZeroChannel);
      channelMask := Resized(channelMask, MaskWords(NUM_CHANS));
      DefineDefaultChannels();
      channelMask := SetWord(channelMask, 0, 0x0007);
      AddDefaultBands();
      settings := settings.(session := settings.session.(txPower := settings.network.txPower));
      DefaultBandsShape();
    }

    /** The six AddDutyBand calls of Init, on the emptied band list. */
    method AddDefaultBands()
      requires dutyBands == []
      modifies this
      ensures dutyBands == DEFAULT_BANDS
      ensures settings == old(settings) && channels == old(channels)
      ensures channelMask == old(channelMask) && txChannel == old(txChannel)
    {
      dutyBands := dutyBands + [DutyBand(MILLI_FREQ_MIN, MILLI_FREQ_MAX, 16, 100, 0)];
      dutyBands := dutyBands + [DutyBand(CENTI_FREQ_MIN, CENTI_FREQ_MAX, 16, 100, 0)];
      dutyBands := dutyBands + [DutyBand(DECI_FREQ_MIN, DECI_FREQ_MAX, 29, 10, 0)];
      dutyBands := dutyBands + [DutyBand(VAR_FREQ_MIN, VAR_FREQ_MAX, 16, 100, 0)];
      dutyBands := dutyBands + [DutyBand(MILLI_1_FREQ_MIN, MILLI_1_FREQ_MAX, 16, 1000, 0)];
      dutyBands := dutyBands + [DutyBand(MILLI_0_FREQ_MIN, MILLI_0_FREQ_MAX, 16, 1000, 0)];
    }

    /** The two channel loops of Init: the join channels 0-2, then empty channels 3-15. */
    method DefineDefaultChannels()
      requires |channels| == NUM_CHANS
      modifies this
      ensures |channels| == NUM_CHANS
      ensures forall i :: 0 <= i < DEFAULT_NUM_CHANS ==> channels[i] == DefaultChannel(i)
      ensures forall i :: DEFAULT_NUM_CHANS <= i < NUM_CHANS ==> channels[i] == ZeroChannel
      ensures settings == old(settings) && channelMask == old(channelMask)
      ensures dutyBands == old(dutyBands) && txChannel == old(txChannel)
    {
      var chan := Channel(FREQ_BASE_125K, MakeRange(MIN_DATARATE, MAX_DATARATE));
      var i := 0;
      while i < DEFAULT_NUM_CHANS
        invariant 0 <= i <= DEFAULT_NUM_CHANS && |channels| == NUM_CHANS
        invariant chan == Channel(FREQ_BASE_125K + FREQ_STEP_125K * i, MakeRange(MIN_DATARATE, MAX_DATARATE))
        invariant forall j :: 0 <= j < i ==> channels[j] == DefaultChannel(j)
        invariant settings == old(settings) && channelMask == old(channelMask)
        invariant dutyBands == old(dutyBands) && txChannel == old(txChannel)
      {
        var _ := AddChannel(i, chan);
        chan := chan.(frequency := chan.frequency + FREQ_STEP_125K);
        i := i + 1;
      }
      chan := ZeroChannel;
      while i < NUM_CHANS
        invariant DEFAULT_NUM_CHANS <= i <= NUM_CHANS && |channels| == NUM_CHANS
        invariant forall j :: 0 <= j < DEFAULT_NUM_CHANS ==> channels[j] == DefaultChannel(j)
        invariant forall j :: DEFAULT_NUM_CHANS <= j < i ==> channels[j] == ZeroChannel
        invariant settings == old(settings) && channelMask == old(channelMask)
        invariant dutyBands == old(dutyBands) && txChannel == old(txChannel)
      {
        var _ := AddChannel(i, chan);
        i := i + 1;
      }
    }

    /** SetFrequencySubBand: EU868 has no sub-bands; nothing changes. */
    method SetFrequencySubBand(subBand: nat) returns (r: Status)
      ensures r == Ok
    {
      r := Ok;
    }

    /**
     * HandleJoinAccept: with a CFList of type 0 (byte 28), each taken CFList
     * frequency becomes the next channel from index 3 and updates mask word 0.
     */
    method HandleJoinAccept(buffer: seq<Byte>, size: nat) returns (r: Status)
      requires Valid()
      requires size <= |buffer| && (size > 17 ==> |buffer| > 28)
      requires size > 17 && buffer[28] == 0x00 ==> DEFAULT_NUM_CHANS + AcceptedCount(buffer, CfListEntries(size)) <= NUM_CHANS
      modifies this
      ensures Valid() && r == Ok
      ensures settings == old(settings) && dutyBands == old(dutyBands) && txChannel == old(txChannel)
      ensures size > 17 && buffer[28] == 0x00 ==>
        channels == CfChannels(old(channels), buffer, CfListEntries(size))
        && channelMask == [CfMask(old(channelMask)[0], old(dutyBands), buffer, CfListEntries(size))]
      ensures !(size > 17 && buffer[28] == 0x00) ==> channels == old(channels) && channelMask == old(channelMask)
    {
      if size > 17 && buffer[28] == 0x00 {
        var index := DEFAULT_NUM_CHANS;
        var i: int := 13;
        ghost var k: nat := 0;
        while i < size as int - 5
          invariant i == 13 + 3 * k && k <= CfListEntries(size)
          invariant i >= size as int - 5 ==> k == CfListEntries(size)
          invariant index == DEFAULT_NUM_CHANS + AcceptedCount(buffer, k)
          invariant DEFAULT_NUM_CHANS + AcceptedCount(buffer, k) <= NUM_CHANS
          invariant channels == CfChannels(old(channels), buffer, k)
          invariant channelMask == [CfMask(old(channelMask)[0], dutyBands, buffer, k)]
          invariant settings == old(settings) && dutyBands == old(dutyBands) && txChannel == old(txChannel)
          decreases size - i
        {
          JoinAcceptStep(buffer, size, k);
          index := JoinAcceptEntry(buffer, i, index);
          i := i + 3;
          k := k + 1;
        }
      }
      r := Ok;
    }

    /** One CFList entry: a taken frequency becomes channel index, updates the mask word, and moves index on. */
    method JoinAcceptEntry(buffer: seq<Byte>, i: nat, index: nat) returns (next: nat)
      requires Valid() && i + 3 <= |buffer|
      requires CfAccepted(FrequencyAt(buffer, i)) ==> index < NUM_CHANS
      modifies this
      ensures Valid()
      ensures settings == old(settings) && dutyBands == old(dutyBands) && txChannel == old(txChannel)
      ensures var f := FrequencyAt(buffer, i);
        if CfAccepted(f) then
          next == index + 1
          && channels == old(channels)[index := Channel(f, MakeRange(MIN_DATARATE, MAX_DATARATE))]
          && channelMask == [CfMaskUpdate(dutyBands, old(channelMask)[0], f, index)]
        else next == index && channels == old(channels) && channelMask == old(channelMask)
    {
      next := index;
      var f := FrequencyAt(buffer, i);
      if f > 0 && f >= FREQ_MIN && f <= FREQ_MAX {
        var _ := AddChannel(index, Channel(f, MakeRange(MIN_DATARATE, MAX_DATARATE)));
        if GetDutyBand(dutyBands, f) > -1 {
          channelMask := channelMask[0 := channelMask[0] | Bit(index)];
        } else {
          channelMask := channelMask[0 := channelMask[0] | !Bit(index)];
        }
        next := index + 1;
      }
    }

    /** One iteration of the CFList loop stays within the entries and the channel table. */
    static lemma JoinAcceptStep(buffer: seq<Byte>, size: nat, k: nat)
      requires size <= |buffer| && size > 17 && 13 + 3 * k < size as int - 5
      requires DEFAULT_NUM_CHANS + AcceptedCount(buffer, CfListEntries(size)) <= NUM_CHANS
      ensures k < CfListEntries(size) && 13 + 3 * k + 3 <= |buffer|
      ensures 13 + 3 * (k + 1) >= size as int - 5 ==> k + 1 == CfListEntries(size)
      ensures DEFAULT_NUM_CHANS + AcceptedCount(buffer, k + 1) <= NUM_CHANS
    {
      assert k + 1 <= CfListEntries(size);
      assert k + 1 == CfListEntries(size) || AcceptedCount(buffer, k + 1) <= AcceptedCount(buffer, CfListEntries(size));
    }

    /** HandleRxParamSetup (RXParamSetupReq): acknowledge each field, apply all three only when all are valid. */
    method HandleRxParamSetup(payload: seq<Byte>, index: nat, checkRf: nat -> bool) returns (r: Status, status: Byte)
      requires Valid() && index + 4 <= |payload|
      modifies this
      ensures Valid() && r == Ok
      ensures channels == old(channels) && channelMask == old(channelMask)
      ensures dutyBands == old(dutyBands) && txChannel == old(txChannel)
      ensures var dr := LowNibble(payload[index]);
        var offset := MidBits(payload[index]);
        var f := FrequencyAt(payload, index + 1);
        (status & 1 == 1 <==> checkRf(f))
        && (status & 2 == 2 <==> MIN_RX2_DATARATE <= dr <= MAX_RX2_DATARATE)
        && (status & 4 == 4 <==> offset <= MAX_DATARATE_OFFSET)
        && status & 0xF8 == 0
        && settings == if status == 0x07
                       then old(settings).(session := old(settings).session.(rx2DatarateIndex := dr, rx2Frequency := f, rx1DatarateOffset := offset))
                       else old(settings)
    {
      status := 0x07;
      var datarate := LowNibble(payload[index]);
      var drOffset := MidBits(payload[index]);
      var freq := FrequencyAt(payload, index + 1);
      if !checkRf(freq) {
        status := status & 0xFE;
      }
      if datarate < MIN_RX2_DATARATE || datarate > MAX_RX2_DATARATE {
        status := status & 0xFD;
      }
      if drOffset > MAX_DATARATE_OFFSET {
        status := status & 0xFB;
      }
      if status & 0x07 == 0x07 {
        settings := settings.(session := settings.session.(rx2DatarateIndex := datarate));
        settings := settings.(session := settings.session.(rx2Frequency := freq));
        settings := settings.(session := settings.session.(rx1DatarateOffset := drOffset));
      }
      r := Ok;
    }

    /**
     * HandleNewChannel (NewChannelReq): bit 0 rejects an index outside 3-15 or a
     * nonzero frequency outside the region, bit 1 a bad datarate range for a
     * nonzero frequency; an accepted request stores the channel (frequency 0
     * deleting it) and sets its mask bit.
     */
    method HandleNewChannel(payload: seq<Byte>, index: nat) returns (r: Status, status: Byte)
      requires Valid() && index + 5 <= |payload|
      modifies this
      ensures Valid() && r == Ok
      ensures settings == old(settings) && dutyBands == old(dutyBands) && txChannel == old(txChannel)
      ensures var ch := payload[index] as nat;
        var f := FrequencyAt(payload, index + 1);
        var range := payload[index + 4];
        (status & 1 == 1 <==> DEFAULT_NUM_CHANS <= ch < NUM_CHANS && (f == 0 || FREQ_MIN <= f <= FREQ_MAX))
        && (status & 2 == 2 <==> f == 0 || ValidDrRange(range))
        && status & 0xFC == 0
        && (status == 0x03 ==>
              channels == old(channels)[ch := NewChannelEntry(f, range)] && channelMask == [old(channelMask)[0] | Bit(ch)])
        && (status != 0x03 ==> channels == old(channels) && channelMask == old(channelMask))
    {
      status := 0x03;
      var channelIndex := payload[index] as nat;
      var freq := FrequencyAt(payload, index + 1);
      var drRange := payload[index + 4];
      if channelIndex < DEFAULT_NUM_CHANS || channelIndex > |channels| - 1 {
        status := status & 0xFE;
      }
      if freq == 0 {
        drRange := 0;
      } else if freq < FREQ_MIN || freq > FREQ_MAX {
        status := status & 0xFE;
      }
      if RangeMin(drRange) > RangeMax(drRange) && freq != 0 {
        status := status & 0xFD;
      } else if (RangeMin(drRange) < MIN_DATARATE || RangeMin(drRange) > MAX_DATARATE) && freq != 0 {
        status := status & 0xFD;
      } else if (RangeMax(drRange) < MIN_DATARATE || RangeMax(drRange) > MAX_DATARATE) && freq != 0 {
        status := status & 0xFD;
      }
      if status & 0x03 == 0x03 {
        var _ := AddChannel(channelIndex, Channel(freq, drRange));
        channelMask := SetWord(channelMask, 0, channelMask[0] | Bit(channelIndex));
      }
      r := Ok;
    }

    /** HandlePingSlotChannelReq: frequency 0 restores the beacon frequency; both fields must be acknowledged. */
    method HandlePingSlotChannelReq(payload: seq<Byte>, index: nat, checkRf: nat -> bool) returns (r: Status, status: Byte)
      requires Valid() && index + 4 <= |payload|
      modifies this
      ensures Valid() && r == Ok
      ensures channels == old(channels) && channelMask == old(channelMask)
      ensures dutyBands == old(dutyBands) && txChannel == old(txChannel)
      ensures var f := FrequencyAt(payload, index);
        var dr := LowNibble(payload[index + 3]);
        (status & 1 == 1 <==> f == 0 || checkRf(f))
        && (status & 2 == 2 <==> MIN_RX2_DATARATE <= dr <= MAX_RX2_DATARATE)
        && status & 0xFC == 0
        && settings == if status == 0x03
                       then old(settings).(session := old(settings).session.(
                              pingSlotFrequency := if f == 0 then BEACON_FREQ else f,
                              pingSlotDatarateIndex := dr))
                       else old(settings)
    {
      status := 0x03;
      var freq := FrequencyAt(payload, index);
      var datarate := LowNibble(payload[index + 3]);
      if freq == 0 {
        freq := BEACON_FREQ;
      } else if !checkRf(freq) {
        status := status & 0xFE;
      }
      if datarate < MIN_RX2_DATARATE || datarate > MAX_RX2_DATARATE {
        status := status & 0xFD;
      }
      if status & 0x03 == 0x03 {
        settings := settings.(session := settings.session.(pingSlotFrequency := freq, pingSlotDatarateIndex := datarate));
      }
      r := Ok;
    }

    /** HandleBeaconFrequencyReq: frequency 0 restores the default beacon frequency. */
    method HandleBeaconFrequencyReq(payload: seq<Byte>, index: nat, checkRf: nat -> bool) returns (r: Status, status: Byte)
      requires Valid() && index + 3 <= |payload|
      modifies this
      ensures Valid() && r == Ok
      ensures channels == old(channels) && channelMask == old(channelMask)
      ensures dutyBands == old(dutyBands) && txChannel == old(txChannel)
      ensures var f := FrequencyAt(payload, index);
        (status == 1 <==> f == 0 || checkRf(f)) && (status == 0 || status == 1)
        && settings == if status == 1
                       then old(settings).(session := old(settings).session.(beaconFrequency := if f == 0 then BEACON_FREQ else f))
                       else old(settings)
    {
      status := 0x01;
      var freq := FrequencyAt(payload, index);
      if freq == 0 {
        freq := BEACON_FREQ;
      } else if !checkRf(freq) {
        status := status & 0xFE;
      }
      if status & 0x01 != 0 {
        settings := settings.(session := settings.session.(beaconFrequency := freq));
      }
      r := Ok;
    }

    /** The ChMaskCntl 6 loop: a bit for each channel with a frequency. */
    method DefinedChannelsMask() returns (mask: Word)
      requires Valid()
      ensures mask == DefinedMask(channels, NUM_CHANS)
    {
      mask := 0;
      var i := 0;
      while i < |channels|
        invariant 0 <= i <= NUM_CHANS
        invariant mask == DefinedMask(channels, i)
      {
        if channels[i].frequency != 0 {
          mask := mask | Bit(i);
        }
        i := i + 1;
      }
    }

    /** The accepted LinkADRReq's datarate (0xF: unchanged), power index (0xF: unchanged) and NbRep take effect. */
    method CommitAdr(datarate: nat, power: nat, nbRep: nat)
      requires Valid() && (datarate == 0xF || datarate <= MAX_DATARATE) && (power == 0xF || power < |TX_POWERS|)
      modifies this
      ensures Valid()
      ensures channels == old(channels) && channelMask == old(channelMask)
      ensures dutyBands == old(dutyBands) && txChannel == old(txChannel)
      ensures settings == old(settings).(session := old(settings).session.(
        txDatarate := if datarate != 0xF then datarate else old(settings).session.txDatarate,
        txPower := if power != 0xF then TX_POWERS[power] else old(settings).session.txPower,
        redundancy := nbRep))
    {
      if datarate != 0xF {
        settings := settings.(session := settings.session.(txDatarate := datarate));
      }
      if power != 0xF {
        settings := settings.(session := settings.session.(txPower := TX_POWERS[power]));
      }
      settings := settings.(session := settings.session.(redundancy := nbRep));
    }

    /**
     * HandleAdrCommand (LinkADRReq): bit 1 rejects a datarate above DR5, bit 2 a
     * power index above 7 (0xF keeps either); ChMaskCntl 0 writes the mask word,
     * 6 enables every defined channel, and any other control is refused with
     * LORA_ERROR and bit 0 cleared, changing nothing; with ADR enabled a fully
     * acknowledged request sets datarate, power and redundancy (NbRep 0 meaning 1).
     */
    method HandleAdrCommand(payload: seq<Byte>, index: nat) returns (r: Status, status: Byte)
      requires Valid() && index + 4 <= |payload|
      modifies this
      ensures Valid()
      ensures channels == old(channels) && dutyBands == old(dutyBands) && txChannel == old(txChannel)
      ensures var q := DecodeLinkAdrReq(payload, index);
        (status & 2 == 0 <==> q.datarate != 0xF && q.datarate > MAX_DATARATE)
        && (status & 4 == 0 <==> q.power != 0xF && q.power > 7)
        && (status & 1 == 0 <==> q.ctrl != 0 && q.ctrl != 6)
        && status & 0xF8 == 0
        && (r == Error <==> q.ctrl != 0 && q.ctrl != 6) && (r == Ok || r == Error)
        && channelMask == AdrMask(old(channelMask), old(channels), q.ctrl, q.mask)
        && settings == if r == Ok && old(settings).network.adrEnabled && status == 0x07
                       then old(settings).(session := old(settings).session.(
                              txDatarate := if q.datarate != 0xF then q.datarate else old(settings).session.txDatarate,
                              txPower := if q.power != 0xF then TX_POWERS[q.power] else old(settings).session.txPower,
                              redundancy := if q.nbRep == 0 then 1 else q.nbRep))
                       else old(settings)
    {
      var q := DecodeLinkAdrReq(payload, index);
      var datarate := q.datarate;
      var power := q.power;
      var mask := q.mask;
      var ctrl := q.ctrl;
      var nbRep := q.nbRep;
      if nbRep == 0 {
        nbRep := 1;
      }
      status := AdrAck(datarate, power);
      if ctrl == 0 {
        channelMask := SetWord(channelMask, 0, mask);
      } else if ctrl == 6 {
        mask := DefinedChannelsMask();
        channelMask := SetWord(channelMask, 0, mask);
      } else {
        ClearMaskAck(status);
        status := status & 0xFE;
        return Error, status;
      }
      if settings.network.adrEnabled {
        if status == 0x07 {
          CommitAdr(datarate, power, nbRep);
        }
      }
      r := Ok;
    }

    /** The datarate and power acknowledgements of a LinkADRReq; bit 0 (mask) starts set. */
    static method AdrAck(datarate: nat, power: nat) returns (status: Byte)
      ensures status & 2 == 0 <==> datarate != 0xF && datarate > MAX_DATARATE
      ensures status & 4 == 0 <==> power != 0xF && power > 7
      ensures status & 1 == 1 && status & 0xF8 == 0
      ensures status == 0x07 <==> status & 2 != 0 && status & 4 != 0
    {
      status := 0x07;
      if datarate != 0xF && datarate > MAX_DATARATE {
        status := status & 0xFD;
      }
      if power != 0xF && power > 7 {
        status := status & 0xFB;
      }
    }

    /** ValidateAdrConfiguration: the datarate and power under ADR, then the mask against undefined channels. */
    method ValidateAdrConfiguration() returns (status: Byte)
      requires Valid()
      ensures status == AdrConfigStatus(settings, channelMask, channels)
    {
      status := 0x07;
      var datarate := settings.session.txDatarate;
      var power := settings.session.txPower;
      if settings.network.adrEnabled {
        if datarate > MAX_DATARATE {
          status := status & 0xFD;
        }
        if power < MIN_TX_POWER || power > MAX_TX_POWER {
          status := status & 0xFB;
        }
      }
      ghost var checked := status;
      var i := DEFAULT_NUM_CHANS;
      while i < NUM_CHANS
        invariant DEFAULT_NUM_CHANS <= i <= NUM_CHANS && status == checked
        invariant forall j :: DEFAULT_NUM_CHANS <= j < i ==> !(IsChannelEnabled(channelMask, j) && channels[j].frequency == 0)
      {
        if IsChannelEnabled(channelMask, i) && channels[i].frequency == 0 {
          assert UndefinedEnabled(channelMask, channels);
          status := status & 0xFE;
          break;
        }
        i := i + 1;
      }
    }

    /**
     * GetTimeOffAir: how long until the next uplink is allowed, from the
     * duty-cycle timer's now and the wall clock's wallNow (seconds).
     */
    method GetTimeOffAir(now: nat, wallNow: nat) returns (t: nat)
      requires Valid()
      requires FixedFrequency(settings) && !settings.test.disableDutyCycle ==> GetDutyBand(dutyBands, settings.network.txFrequency) != -1
      ensures t == TimeOffAir(settings, channels, channelMask, dutyBands, now, wallNow)
    {
      var min: nat := 0;
      if !settings.test.disableDutyCycle {
        min := UINT_MAX;
        if P2PEnabled(settings) || settings.network.txFrequency != 0 {
          var band := GetDutyBand(dutyBands, settings.network.txFrequency);
          if dutyBands[band].timeOffEnd > now {
            min := dutyBands[band].timeOffEnd - now;
          } else {
            min := 0;
          }
        } else {
          min := ScanChannels(now);
        }
        if min == UINT_MAX {
          min := 0;
        }
      }
      if settings.session.aggregatedTimeOffEnd > 0 && settings.session.aggregatedTimeOffEnd > now {
        min := Max(min, settings.session.aggregatedTimeOffEnd - now);
      }
      var joinTime := 0;
      if settings.session.joinFirstAttempt != 0 && wallNow < settings.session.joinTimeOffEnd {
        joinTime := Wrap32((settings.session.joinTimeOffEnd - wallNow) * 1000);
      }
      min := Max(joinTime, min);
      t := min;
    }

    /** The channel loop of GetTimeOffAir: the least time-off left over the counted channels, stopping at 0. */
    method ScanChannels(now: nat) returns (min: nat)
      requires Valid()
      ensures min == MinWait(UINT_MAX, ChannelWaits(settings, channels, channelMask, dutyBands, now))
    {
      ghost var waits := ChannelWaits(settings, channels, channelMask, dutyBands, now);
      min := UINT_MAX;
      var i := 0;
      while i < |channels|
        invariant 0 <= i <= NUM_CHANS
        invariant min == MinWait(UINT_MAX, waits[..i])
      {
        assert waits[..i + 1][..i] == waits[..i];
        var w := ChannelWaitOf(i, now);
        if w == 0 {
          assert waits[i] == 0;
          MinWaitZero(UINT_MAX, waits);
          return 0;
        } else if w > 0 {
          min := Min(min, w);
        }
        i := i + 1;
      }
      assert waits[..NUM_CHANS] == waits;
    }

    /** The test of the GetTimeOffAir channel loop for channel i: -1 when not counted, else the time-off left in its band. */
    method ChannelWaitOf(i: nat, now: nat) returns (w: int)
      requires Valid() && i < NUM_CHANS
      ensures w == ChannelWait(settings, channels, channelMask, dutyBands, now, i)
    {
      w := -1;
      var dr := settings.session.txDatarate;
      var c := channels[i];
      if IsChannelEnabled(channelMask, i) && c.frequency != 0 && !(dr < RangeMin(c.drRange) || dr > RangeMax(c.drRange)) {
        var band := GetDutyBand(dutyBands, c.frequency);
        if band != -1 {
          if dutyBands[band].timeOffEnd > now {
            w := dutyBands[band].timeOffEnd - now;
          } else {
            w := 0;
          }
        }
      }
    }

    /**
     * UpdateDutyCycle: after an uplink on freq lasting toa ms, at duty-cycle time
     * now, set the aggregated deadline and update every band's deadline.
     */
    method UpdateDutyCycle(freq: nat, toa: nat, now: nat)
      requires Valid()
      modifies this
      ensures Valid()
      ensures settings == old(settings).(session := old(settings).session.(aggregatedTimeOffEnd := AggregatedAfter(old(settings), toa, now)))
      ensures |dutyBands| == |old(dutyBands)|
      ensures forall i :: 0 <= i < |dutyBands| ==> dutyBands[i] == UpdatedBand(old(settings), old(dutyBands)[i], freq, toa, now)
      ensures channels == old(channels) && channelMask == old(channelMask) && txChannel == old(txChannel)
    {
      if settings.session.maxDutyCycle > 0 && settings.session.maxDutyCycle <= 15 {
        settings := settings.(session := settings.session.(aggregatedTimeOffEnd := Wrap32(now + toa * settings.session.aggregateDutyCycle)));
      } else {
        settings := settings.(session := settings.session.(aggregatedTimeOffEnd := 0));
      }
      UpdatedBandsShape(old(settings), dutyBands, freq, toa, now);
      var i := 0;
      while i < |dutyBands|
        invariant 0 <= i <= |dutyBands| == |old(dutyBands)|
        invariant forall j :: 0 <= j < i ==> dutyBands[j] == UpdatedBand(old(settings), old(dutyBands)[j], freq, toa, now)
        invariant forall j :: i <= j < |dutyBands| ==> dutyBands[j] == old(dutyBands)[j]
        invariant settings == old(settings).(session := old(settings).session.(aggregatedTimeOffEnd := AggregatedAfter(old(settings), toa, now)))
        invariant channels == old(channels) && channelMask == old(channelMask) && txChannel == old(txChannel)
      {
        var b := dutyBands[i];
        if b.timeOffEnd < now {
          b := b.(timeOffEnd := 0);
        } else {
          b := b.(timeOffEnd := b.timeOffEnd - now);
        }
        if freq >= b.frequencyMin && freq <= b.frequencyMax {
          if freq > VAR_FREQ_MIN && freq < VAR_FREQ_MAX && settings.session.txPower + settings.network.antennaGain <= 7 {
            b := b.(timeOffEnd := 0);
          } else {
            b := b.(timeOffEnd := Wrap32(toa * b.dutyCycle));
          }
        }
        dutyBands := dutyBands[i := b];
        i := i + 1;
      }
      assert dutyBands == seq(|old(dutyBands)|, i requires 0 <= i < |old(dutyBands)| => UpdatedBand(old(settings), old(dutyBands)[i], freq, toa, now));
    }

    /** EnableDefaultChannels: set the bits of the three join channels. */
    method EnableDefaultChannels()
      requires Valid()
      modifies this
      ensures Valid()
      ensures channelMask == [old(channelMask)[0] | 0x0007]
      ensures settings == old(settings) && channels == old(channels)
      ensures dutyBands == old(dutyBands) && txChannel == old(txChannel)
    {
      channelMask := channelMask[0 := channelMask[0] | 0x0007];
    }

    /**
     * GetNextChannel: refused while the aggregated duty cycle is pending; with a
     * fixed transmit frequency only that frequency's band is checked; otherwise
     * the bands whose time-off has passed are released, the enabled channels
     * that allow the datarate and sit in a released band are listed, and the
     * random selector, which may fail, picks one of them.
     */
    method GetNextChannel(now: nat) returns (r: Status)
      requires Valid()
      modifies this
      ensures Valid()
      ensures channels == old(channels) && channelMask == old(channelMask) && settings == old(settings)
      ensures old(settings).session.aggregatedTimeOffEnd != 0 ==>
        r == AggregatedDutyCycle && dutyBands == old(dutyBands) && txChannel == old(txChannel)
      ensures old(settings).session.aggregatedTimeOffEnd == 0 && FixedFrequency(old(settings)) ==>
        dutyBands == old(dutyBands) && txChannel == old(txChannel)
        && r == (if !old(settings).test.disableDutyCycle && BandBlocked(old(dutyBands), old(settings).network.txFrequency)
                 then NoChansEnabled else Ok)
      ensures old(settings).session.aggregatedTimeOffEnd == 0 && !FixedFrequency(old(settings)) ==>
        var released := ReleasedBands(old(dutyBands), now, old(settings).test.disableDutyCycle);
        var candidates := Candidates(old(channels), old(channelMask), released, old(settings).session.txDatarate);
        dutyBands == released
        && (r == Ok <==> |candidates| > 0) && (r == Ok || r == NoChansEnabled)
        && (txChannel == old(txChannel) || txChannel in candidates)
    {
      if settings.session.aggregatedTimeOffEnd != 0 {
        return AggregatedDutyCycle;
      }
      if P2PEnabled(settings) || settings.network.txFrequency != 0 {
        if !settings.test.disableDutyCycle {
          var band := GetDutyBand(dutyBands, settings.network.txFrequency);
          if band != -1 && dutyBands[band].timeOffEnd != 0 {
            return NoChansEnabled;
          }
        }
        return Ok;
      }
      r := SearchChannel(now);
    }

    /** The channel-search branch of GetNextChannel. */
    method SearchChannel(now: nat) returns (r: Status)
      requires Valid()
      modifies this
      ensures Valid()
      ensures channels == old(channels) && channelMask == old(channelMask) && settings == old(settings)
      ensures var released := ReleasedBands(old(dutyBands), now, old(settings).test.disableDutyCycle);
        var candidates := Candidates(old(channels), old(channelMask), released, old(settings).session.txDatarate);
        dutyBands == released
        && (r == Ok <==> |candidates| > 0) && (r == Ok || r == NoChansEnabled)
        && (txChannel == old(txChannel) || txChannel in candidates)
    {
      var dr := settings.session.txDatarate;
      ReleaseBands(now);
      var enabledChannels, nbEnabled := EnabledChannels(dr);
      if nbEnabled == 0 {
        return NoChansEnabled;
      }
      forall c | c in enabledChannels[..nbEnabled]
        ensures c < NUM_CHANS
      {
        CandidatesMembers(channels, channelMask, dutyBands, dr, c);
      }
      PickChannel(enabledChannels, nbEnabled);
      r := Ok;
    }

    /** _randomChannel.NextChannel: may fail (the channel is kept) or pick one of the listed channels. */
    method PickChannel(enabledChannels: array<nat>, nbEnabled: nat)
      requires Valid() && 0 < nbEnabled <= enabledChannels.Length
      requires forall c :: c in enabledChannels[..nbEnabled] ==> c < NUM_CHANS
      modifies this
      ensures Valid()
      ensures txChannel == old(txChannel) || txChannel in enabledChannels[..nbEnabled]
      ensures settings == old(settings) && channels == old(channels) && channelMask == old(channelMask)
      ensures dutyBands == old(dutyBands)
    {
      if * {
        var k :| 0 <= k < nbEnabled;
        assert enabledChannels[k] == enabledChannels[..nbEnabled][k];
        assert enabledChannels[k] in enabledChannels[..nbEnabled];
        txChannel := enabledChannels[k];
      }
    }

    /** The search loop of GetNextChannel: the candidate channels for datarate dr, in increasing order. */
    method EnabledChannels(dr: nat) returns (enabledChannels: array<nat>, nbEnabled: nat)
      requires Valid() && dr < 16
      ensures fresh(enabledChannels)
      ensures nbEnabled <= enabledChannels.Length
      ensures enabledChannels[..nbEnabled] == Candidates(channels, channelMask, dutyBands, dr)
    {
      var start := 0;
      var maxChannels := NUM_CHANS;
      enabledChannels := new nat[NUM_CHANS];
      if DATARATES[dr].bandwidth == Bw500 {
        maxChannels := 0;
        start := NUM_CHANS;
      }
      nbEnabled := 0;
      var ch := start;
      ghost var flags := EligibleFlags(channels, channelMask, dutyBands, dr);
      while ch < start + maxChannels
        invariant start <= ch <= start + maxChannels <= NUM_CHANS && nbEnabled <= ch - start
        invariant enabledChannels[..nbEnabled] == Selected(flags, start, ch)
        modifies enabledChannels
      {
        var taken := IsCandidate(ch, dr);
        if taken {
          Push(enabledChannels, nbEnabled, ch);
          nbEnabled := nbEnabled + 1;
        }
        assert taken == flags[ch];
        ch := ch + 1;
      }
    }

    /** The test of the search loop: enabled, datarate in range, and a released band. */
    method IsCandidate(ch: nat, dr: nat) returns (taken: bool)
      requires Valid() && ch < NUM_CHANS
      ensures taken == Eligible(channels, channelMask, dutyBands, dr, ch)
    {
      taken := false;
      var range := channels[ch].drRange;
      if IsChannelEnabled(channelMask, ch) && dr >= RangeMin(range) && dr <= RangeMax(range) {
        var band := GetDutyBand(dutyBands, channels[ch].frequency);
        if band != -1 && dutyBands[band].timeOffEnd == 0 {
          taken := true;
        }
      }
    }

    /** The release loop of GetNextChannel: a band whose time-off has passed, or every band with duty cycling disabled, is freed. */
    method ReleaseBands(now: nat)
      requires Valid()
      modifies this
      ensures Valid()
      ensures dutyBands == ReleasedBands(old(dutyBands), now, settings.test.disableDutyCycle)
      ensures settings == old(settings) && channels == old(channels) && channelMask == old(channelMask)
      ensures txChannel == old(txChannel)
    {
      var i := 0;
      while i < |dutyBands|
        invariant 0 <= i <= |dutyBands| == |old(dutyBands)|
        invariant forall j :: 0 <= j < i ==> dutyBands[j] == ReleasedBand(old(dutyBands)[j], now, settings.test.disableDutyCycle)
        invariant forall j :: i <= j < |dutyBands| ==> dutyBands[j] == old(dutyBands)[j]
        invariant settings == old(settings) && channels == old(channels) && channelMask == old(channelMask)
        invariant txChannel == old(txChannel)
      {
        if dutyBands[i].timeOffEnd < now || settings.test.disableDutyCycle {
          dutyBands := dutyBands[i := dutyBands[i].(timeOffEnd := 0)];
        }
        i := i + 1;
      }
      ReleasedShape(old(dutyBands), now, settings.test.disableDutyCycle);
    }

    /** Releasing bands keeps the shape of the band table. */
    static lemma ReleasedShape(bands: seq<DutyBand>, now: nat, disabled: bool)
      requires BandsShape(bands)
      ensures BandsShape(ReleasedBands(bands, now, disabled))
    {
      var r := ReleasedBands(bands, now, disabled);
      forall i | 0 <= i < |r|
        ensures r[i].(timeOffEnd := 0) == DEFAULT_BANDS[i] && r[i].timeOffEnd < U32
      {
        assert bands[i].(timeOffEnd := 0) == DEFAULT_BANDS[i];
      }
    }

    /**
     * SetTxConfig: the radio configuration of the next uplink; the power index is
     * getTxPowerIndex of the conducted power, and DR7 selects FSK.
     */
    method SetTxConfig(powerIndex: int -> int) returns (cfg: TxConfig)
      requires Valid()
      requires GetDutyBand(dutyBands, channels[txChannel].frequency) != -1
      ensures var band := GetDutyBand(dutyBands, channels[txChannel].frequency);
        var fsk := settings.session.txDatarate == 7;
        cfg == TxConfig(if fsk then ModemFsk else ModemLora,
                        ToInt8(powerIndex(ConductedPower(settings.session.txPower, dutyBands[band].powerMax,
                                                         settings.network.antennaGain))),
                        if fsk then 25000 else 0)
    {
      var band := GetDutyBand(dutyBands, channels[txChannel].frequency);
      var txDr := DATARATES[settings.session.txDatarate];
      var maxPwr := ToInt8(dutyBands[band].powerMax);
      var pwr := ToInt8(settings.session.txPower);
      pwr := if pwr < maxPwr then pwr else maxPwr;
      pwr := ToInt8(pwr - settings.network.antennaGain);
      pwr := ToInt8(powerIndex(pwr));
      DatarateBandwidths(settings.session.txDatarate);
      var modem := ModemLora;
      var fdev := 0;
      if txDr.spreadingFactor == SfFsk {
        modem := ModemFsk;
        fdev := 25000;
      }
      cfg := TxConfig(modem, pwr, fdev);
    }
  }
}
