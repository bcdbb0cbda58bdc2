/**
 * The CN470-510 channel plan: 96 uplink channels of 125 kHz on a fixed grid,
 * 48 downlink channels, twelve sub-bands of eight channels, six mask words, a
 * single duty band spanning the region, and beacons hopping over eight
 * channels. GetTimeOffAir and the hop arithmetic are those of US915, and the
 * conducted power that of EU868; where the plan's code repeats theirs, their
 * definitions are used.
 */
module CN470 {
  import opened Bits
  import opened LoraTypes
  import opened Wire
  import opened DutyCycle
  import opened ChannelMask
  import EU868
  import US915

  // The constants of ChannelPlan_CN470.h and of Init.
  const NUM_CHANS_125K: nat := 96
  const NUM_CHANS_500K: nat := 0
  const NUM_CHANS: nat := 96
  const MASK_WORDS: nat := 6
  const FREQ_BASE_125K: nat := 470_300_000
  const FREQ_STEP_125K: nat := 200_000
  const DBASE_125K: nat := 500_300_000
  const DSTEP_125K: nat := 200_000
  const FREQ_RX2: nat := 505_300_000
  const FREQ_MIN: nat := 470_000_000
  const FREQ_MAX: nat := 510_000_000
  const MIN_DATARATE: nat := 1
  const MAX_DATARATE: nat := 5
  const MIN_DATARATE_OFFSET: nat := 0
  const MAX_DATARATE_OFFSET: nat := 3
  const MIN_RX2_DATARATE: nat := 0
  const MAX_RX2_DATARATE: nat := 5
  const MIN_TX_POWER: nat := 0
  const MAX_TX_POWER: nat := 30
  const BEACON_DR: nat := 2
  const BEACON_FREQ_BASE: nat := 500_300_000
  const BEACON_FREQ_STEP: nat := 200_000
  const BEACON_CHANNELS: nat := 8
  /** The largest TXPower index LinkADRReq may carry (TX_POWERS has nine defined entries). */
  const MAX_POWER_INDEX: nat := 8
  /** The number of DevNonce values after which GetJoinDatarate's pattern repeats. */
  const JOIN_CYCLE: nat := 20

  /** CN470_TX_POWERS: a 16-entry table of which the first nine are given, the rest zero. */
  const TX_POWERS: seq<nat> := [17, 16, 14, 12, 10, 7, 5, 2, 0, 0, 0, 0, 0, 0, 0, 0]

  /** The datarate table Init builds: DR0-5 SF12-SF7/125 and DR6-15 RFU. */
  const DATARATES: seq<Datarate> := [
    Datarate(Sf(12), Bw125), Datarate(Sf(11), Bw125), Datarate(Sf(10), Bw125),
    Datarate(Sf(9), Bw125), Datarate(Sf(8), Bw125), Datarate(Sf(7), Bw125),
    Datarate(SfInvalid, Bw125), Datarate(SfInvalid, Bw125), Datarate(SfInvalid, Bw125), Datarate(SfInvalid, Bw125),
    Datarate(SfInvalid, Bw125), Datarate(SfInvalid, Bw125), Datarate(SfInvalid, Bw125), Datarate(SfInvalid, Bw125),
    Datarate(SfInvalid, Bw125), Datarate(SfInvalid, Bw125)]

  /** The single duty band Init adds: the whole region, 17 dBm, duty cycle disabled (divisor 0). */
  const DEFAULT_BAND: DutyBand := DutyBand(FREQ_MIN, FREQ_MAX, 17, 0, 0)

  /** Every datarate of the table is a 125 kHz LoRa one: SetTxConfig never selects FSK. */
  lemma DatarateBandwidths(dr: nat)
    requires dr < 16
    ensures DATARATES[dr].bandwidth == Bw125 && DATARATES[dr].spreadingFactor != SfFsk
    ensures DATARATES[dr].spreadingFactor != SfInvalid <==> dr <= MAX_DATARATE
  {
  }

  /** 96 channels of 125 kHz and none of 500 kHz need a mask of six words. */
  lemma MaskSize()
    ensures MaskWords(NUM_CHANS_125K + NUM_CHANS_500K) == MASK_WORDS
  {
  }

  /**
   * GetChannel on the empty channel table Init leaves: channel index < 96 is
   * uplink channel index of the grid with DR1-5, and a zeroed channel beyond.
   */
  function GetChannel(index: nat): (c: Channel)
    ensures index < NUM_CHANS ==> RangeMin(c.drRange) == MIN_DATARATE && RangeMax(c.drRange) == MAX_DATARATE
    ensures index < NUM_CHANS ==> FREQ_MIN <= c.frequency <= FREQ_MAX
    ensures index >= NUM_CHANS ==> c == ZeroChannel
  {
    if index < NUM_CHANS then Channel(FREQ_BASE_125K + FREQ_STEP_125K * index, MakeRange(MIN_DATARATE, MAX_DATARATE))
    else ZeroChannel
  }

  /**
   * The uplink grid of section 2.6.1 of the LoRaWAN Regional Parameters 1.0.2:
   * channel n at 470.3 + 0.2 n MHz, up to 489.3 MHz, each channel its own frequency.
   */
  lemma ChannelGrid(i: nat, j: nat)
    requires i < NUM_CHANS && j < NUM_CHANS
    ensures GetChannel(i).frequency == 470_300_000 + 200_000 * i
    ensures GetChannel(i).frequency <= 489_300_000
    ensures i != j ==> GetChannel(i).frequency != GetChannel(j).frequency
  {
  }

  /** Every grid channel lies in the plan's single duty band. */
  lemma GridInDefaultBand(i: nat, bands: seq<DutyBand>)
    requires i < NUM_CHANS && |bands| == 1
    requires bands[0].frequencyMin == FREQ_MIN && bands[0].frequencyMax == FREQ_MAX
    ensures GetDutyBand(bands, GetChannel(i).frequency) == 0
  {
  }

  /**
   * SetFrequencySubBand's mask: sub-band 1-12 enables its eight channels (the
   * low or high half of word (sb - 1) / 2), any other value all 96 channels.
   */
  function SubBandMask(subBand: nat): (m: seq<Word>)
    ensures |m| == MASK_WORDS
  {
    if 0 < subBand < 13 then
      var z: seq<Word> := [0, 0, 0, 0, 0, 0];
      z[(subBand - 1) / 2 := if subBand % 2 == 1 then 0x00FF else 0xFF00]
    else
      [0xFFFF, 0xFFFF, 0xFFFF, 0xFFFF, 0xFFFF, 0xFFFF]
  }

  /** The channels of sub-band sb: 8 (sb - 1) .. 8 sb - 1, or every channel. */
  predicate InSubBand(subBand: nat, ch: nat)
  {
    if 0 < subBand < 13 then 8 * (subBand - 1) <= ch < 8 * subBand else ch < NUM_CHANS
  }

  /** SubBandMask enables exactly the channels of the sub-band. */
  lemma SubBandEnables(subBand: nat, ch: nat)
    requires ch < NUM_CHANS
    ensures IsChannelEnabled(SubBandMask(subBand), ch) <==> InSubBand(subBand, ch)
  {
    var m := SubBandMask(subBand);
    EnabledIsBit(m, ch);
    PatternBits(ch % 16);
    if 0 < subBand < 13 {
      var k := (subBand - 1) / 2;
      if ch / 16 == k {
        assert m[k] == if subBand % 2 == 1 then 0x00FF else 0xFF00;
      } else {
        assert m[ch / 16] == 0;
      }
    }
  }

  /** The number of channels the six mask words enable (the CountBits sum). */
  function EnabledCount(mask: seq<Word>): (n: nat)
    requires |mask| == MASK_WORDS
    ensures n <= NUM_CHANS
  {
    PopCount(mask[0]) + PopCount(mask[1]) + PopCount(mask[2])
    + PopCount(mask[3]) + PopCount(mask[4]) + PopCount(mask[5])
  }

  /** Whether every word of the mask is zero: no channel enabled. */
  predicate AllClear(mask: seq<Word>)
    requires |mask| == MASK_WORDS
  {
    mask[0] == 0 && mask[1] == 0 && mask[2] == 0 && mask[3] == 0 && mask[4] == 0 && mask[5] == 0
  }

  /** No channel is counted exactly when every mask word is zero. */
  lemma EnabledCountZero(mask: seq<Word>)
    requires |mask| == MASK_WORDS
    ensures EnabledCount(mask) == 0 <==> AllClear(mask)
  {
    PopCountZero(mask[0]);
    PopCountZero(mask[1]);
    PopCountZero(mask[2]);
    PopCountZero(mask[3]);
    PopCountZero(mask[4]);
    PopCountZero(mask[5]);
  }

  /** Word i of a sub-band mask counts the eight channels of the sub-band when it holds them, none otherwise. */
  lemma SubBandWordCount(subBand: nat, i: nat)
    requires 0 < subBand < 13 && i < MASK_WORDS
    ensures PopCount(SubBandMask(subBand)[i]) == if i == (subBand - 1) / 2 then 8 else 0
  {
    PopCountOfPatterns();
    var h: Word := if subBand % 2 == 1 then 0x00FF else 0xFF00;
    assert SubBandMask(subBand)[i] == if i == (subBand - 1) / 2 then h else 0;
  }

  /** The six words of a sub-band mask count eight channels. */
  lemma SubBandWords(subBand: nat)
    requires 0 < subBand < 13
    ensures EnabledCount(SubBandMask(subBand)) == 8
  {
    SubBandWordCount(subBand, 0);
    SubBandWordCount(subBand, 1);
    SubBandWordCount(subBand, 2);
    SubBandWordCount(subBand, 3);
    SubBandWordCount(subBand, 4);
    SubBandWordCount(subBand, 5);
  }

  /** A sub-band mask enables 8 channels, the all-channels mask 96. */
  lemma SubBandCounts(subBand: nat)
    ensures EnabledCount(SubBandMask(subBand)) == if 0 < subBand < 13 then 8 else NUM_CHANS
  {
    if 0 < subBand < 13 {
      SubBandWords(subBand);
    } else {
      PopCountOfPatterns();
      var m := SubBandMask(subBand);
      assert m == [0xFFFF, 0xFFFF, 0xFFFF, 0xFFFF, 0xFFFF, 0xFFFF];
    }
  }

  /**
   * ValidateAdrConfiguration: under ADR bit 1 rejects a datarate above DR5 and
   * bit 2 a power outside 0-30 dBm; bit 0 rejects a mask with no channel enabled.
   */
  function ValidateAdrConfiguration(s: Settings, mask: seq<Word>): (status: Byte)
    requires |mask| == MASK_WORDS
    ensures status & 0xF8 == 0
    ensures status & 1 == 0 <==> AllClear(mask)
    ensures status & 2 == 0 <==> s.network.adrEnabled && s.session.txDatarate > MAX_DATARATE
    ensures status & 4 == 0 <==> s.network.adrEnabled && (s.session.txPower < MIN_TX_POWER || s.session.txPower > MAX_TX_POWER)
  {
    EnabledCountZero(mask);
    var s1: Byte := if s.network.adrEnabled && s.session.txDatarate > MAX_DATARATE then 0x07 & 0xFD else 0x07;
    var s2 := if s.network.adrEnabled && (s.session.txPower < MIN_TX_POWER || s.session.txPower > MAX_TX_POWER) then s1 & 0xFB else s1;
    if EnabledCount(mask) == 0 then s2 & 0xFE else s2
  }

  /** Every mask SetFrequencySubBand installs passes the channel-mask check. */
  lemma SubBandMaskPassesAdr(s: Settings, subBand: nat)
    ensures ValidateAdrConfiguration(s, SubBandMask(subBand)) & 1 == 1
  {
    SubBandCounts(subBand);
    EnabledCountZero(SubBandMask(subBand));
  }

  /** The frequency of downlink channel k (500.3 + 0.2 k MHz). */
  function DownlinkFrequency(k: nat): nat
  {
    DBASE_125K + k * DSTEP_125K
  }

  /** The RX1 downlink channel of an uplink channel: the uplink channel modulo 48. */
  function Rx1Channel(txChannel: nat): (k: nat)
    ensures k < 48
    ensures txChannel < 48 ==> k == txChannel
    ensures 48 <= txChannel < NUM_CHANS ==> k == txChannel - 48
  {
    txChannel % 48
  }

  /** The RX1 datarate: the uplink datarate lowered by the offset, DR0 at the least. */
  function Rx1Datarate(txDatarate: nat, offset: nat): (dr: nat)
    ensures txDatarate > offset ==> dr + offset == txDatarate
    ensures txDatarate <= offset ==> dr == 0
  {
    if txDatarate > offset then txDatarate - offset else 0
  }

  /**
   * GetRxWindow: in peer-to-peer mode the uplink frequency and datarate;
   * otherwise RX1 on the downlink channel paired with the uplink channel, the
   * beacon, a ping slot (Multicast[id] for id 1-7), an active multicast
   * session's class C window (Multicast[id - 1]), or RX2.
   */
  function GetRxWindow(s: Settings, txChannel: nat, window: Window, id: int): (w: RxWindow)
    requires SettingsOk(s)
    ensures P2PEnabled(s) ==> w == RxWindow(s.network.txFrequency, s.session.txDatarate)
    ensures !P2PEnabled(s) && window == Rx1 ==>
      w == RxWindow(DownlinkFrequency(Rx1Channel(txChannel)), Rx1Datarate(s.session.txDatarate, s.session.rx1DatarateOffset))
    ensures !P2PEnabled(s) && window == RxBeacon ==> w == RxWindow(s.session.beaconFrequency, BEACON_DR)
    ensures !P2PEnabled(s) && window == RxSlot && 0 < id < 8 ==>
      w == RxWindow(s.multicast[id].frequency, s.multicast[id].datarateIndex)
    ensures !P2PEnabled(s) && window == RxSlot && !(0 < id < 8) ==>
      w == RxWindow(s.session.pingSlotFrequency, s.session.pingSlotDatarateIndex)
    ensures !P2PEnabled(s) && window == RxC && 0 < id <= MAX_MULTICAST_SESSIONS && s.multicast[id - 1].active ==>
      w == RxWindow(s.multicast[id - 1].frequency, s.multicast[id - 1].datarateIndex)
    ensures !P2PEnabled(s) && (window == Rx2 || window == RxTest
                               || (window == RxC && !(0 < id <= MAX_MULTICAST_SESSIONS && s.multicast[id - 1].active))) ==>
      w == RxWindow(s.session.rx2Frequency, s.session.rx2DatarateIndex)
  {
    if P2PEnabled(s) then RxWindow(s.network.txFrequency, s.session.txDatarate)
    else match window
      case Rx1 => RxWindow(DownlinkFrequency(txChannel % 48), Rx1Datarate(s.session.txDatarate, s.session.rx1DatarateOffset))
      case RxBeacon => RxWindow(s.session.beaconFrequency, BEACON_DR)
      case RxSlot =>
        if 0 < id < 8 then RxWindow(s.multicast[id].frequency, s.multicast[id].datarateIndex)
        else RxWindow(s.session.pingSlotFrequency, s.session.pingSlotDatarateIndex)
      case RxC =>
        if 0 < id <= MAX_MULTICAST_SESSIONS && s.multicast[id - 1].active
        then RxWindow(s.multicast[id - 1].frequency, s.multicast[id - 1].datarateIndex)
        else RxWindow(s.session.rx2Frequency, s.session.rx2DatarateIndex)
      case _ => RxWindow(s.session.rx2Frequency, s.session.rx2DatarateIndex)
  }

  /**
   * RX1 lies on one of the 48 downlink channels (500.3-509.7 MHz, within the
   * region) and, for an uplink at DR1-5 with offset 0-3, uses a datarate
   * between the uplink's minus the offset (DR0 at the least) and the uplink's.
   */
  lemma Rx1Bounds(s: Settings, txChannel: nat, id: int)
    requires SettingsOk(s) && !P2PEnabled(s)
    ensures var w := GetRxWindow(s, txChannel, Rx1, id);
      DBASE_125K <= w.frequency <= 509_700_000 && FREQ_MIN <= w.frequency <= FREQ_MAX
      && (w.frequency - DBASE_125K) % DSTEP_125K == 0
    ensures var w := GetRxWindow(s, txChannel, Rx1, id);
      MIN_DATARATE <= s.session.txDatarate <= MAX_DATARATE && s.session.rx1DatarateOffset <= MAX_DATARATE_OFFSET ==>
        0 <= w.datarateIndex <= s.session.txDatarate && w.datarateIndex <= MAX_RX2_DATARATE
        && w.datarateIndex + s.session.rx1DatarateOffset >= s.session.txDatarate
  {
    var k := Rx1Channel(txChannel);
    assert DownlinkFrequency(k) - DBASE_125K == k * DSTEP_125K;
  }

  /** Settings whose RX2 parameters an accepted RXParamSetupReq has replaced use them for RX2. */
  lemma Rx2FollowsSetup(s: Settings, txChannel: nat, f: nat, dr: nat, offset: nat)
    requires SettingsOk(s) && !P2PEnabled(s)
    ensures var s' := s.(session := s.session.(rx2DatarateIndex := dr, rx2Frequency := f, rx1DatarateOffset := offset));
      GetRxWindow(s', txChannel, Rx2, 0) == RxWindow(f, dr)
  {
  }

  /** The frequency of a hopped beacon or ping-slot channel: one of the 8 beacon channels, all within the region. */
  function HopFrequency(time: nat, period: nat, offset: nat): (f: nat)
    requires period > 0
    ensures BEACON_FREQ_BASE <= f <= BEACON_FREQ_BASE + 7 * BEACON_FREQ_STEP
    ensures FREQ_MIN <= f <= FREQ_MAX
    ensures (f - BEACON_FREQ_BASE) % BEACON_FREQ_STEP == 0
  {
    BEACON_FREQ_BASE + US915.HopChannel(time, period, offset) * BEACON_FREQ_STEP
  }

  /** One period later every hopping schedule moves to the next beacon channel, 1.4 MHz down after the eighth. */
  lemma HopNext(time: nat, period: nat, offset: nat)
    requires period > 0
    ensures var c := US915.HopChannel(time, period, offset);
      HopFrequency(time + period, period, offset) ==
        if c < BEACON_CHANNELS - 1 then HopFrequency(time, period, offset) + BEACON_FREQ_STEP else BEACON_FREQ_BASE
  {
    US915.HopAdvances(time, period, offset);
  }

  /**
   * The mask HandleAdrCommand leaves: ChMaskCntl 0-5 replaces that word, 6
   * enables all 96 channels, and 7 is refused, leaving the mask.
   */
  function AdrMask(mask: seq<Word>, ctrl: nat, m: Word): (r: seq<Word>)
    requires |mask| == MASK_WORDS
    ensures |r| == MASK_WORDS
  {
    if ctrl < 6 then SetWord(mask, ctrl, m)
    else if ctrl == 6 then [0xFFFF, 0xFFFF, 0xFFFF, 0xFFFF, 0xFFFF, 0xFFFF]
    else mask
  }

  /**
   * The meaning of ChMaskCntl (section 2.6.5 of the Regional Parameters):
   * control 0-5 sets channels 16 ctrl .. 16 ctrl + 15 from ChMask and keeps the
   * others; 6 enables every channel; a refused control changes none.
   */
  lemma AdrMaskChannels(mask: seq<Word>, ctrl: nat, m: Word, ch: nat)
    requires |mask| == MASK_WORDS && ch < NUM_CHANS
    ensures ctrl < 6 ==>
      (IsChannelEnabled(AdrMask(mask, ctrl, m), ch) <==> if ch / 16 == ctrl then BitSet(m, ch % 16) else IsChannelEnabled(mask, ch))
    ensures ctrl == 6 ==> IsChannelEnabled(AdrMask(mask, ctrl, m), ch)
    ensures ctrl > 6 ==> (IsChannelEnabled(AdrMask(mask, ctrl, m), ch) <==> IsChannelEnabled(mask, ch))
  {
    EnabledIsBit(AdrMask(mask, ctrl, m), ch);
    EnabledIsBit(mask, ch);
    if ctrl == 6 {
      PatternBits(ch % 16);
      assert AdrMask(mask, ctrl, m)[ch / 16] == 0xFFFF;
    }
  }

  /**
   * The power index SetTxConfig hands to the radio: getTxPowerIndex's result
   * as an int8_t, raised from 0 to 1 and then lowered by one, since the plan's
   * indices 1-22 map onto the radio's 0-21.
   */
  function RadioPowerIndex(index: int): (r: int)
    ensures -128 <= r < 128
    ensures 0 <= index < 128 ==> r == (if index == 0 then 1 else index) - 1
  {
    var p := ToInt8(index);
    var q := if p == 0 then 1 else p;
    ToInt8(q - 1)
  }

  /** getTxPowerIndex results 0-22 become radio indices 0-21; 0 and 1 both become 0. */
  lemma RadioPowerRange(index: int)
    requires 0 <= index <= 22
    ensures 0 <= RadioPowerIndex(index) <= 21
    ensures RadioPowerIndex(index) == 0 <==> index <= 1
    ensures index >= 1 ==> RadioPowerIndex(index) + 1 == index
  {
  }

  /** Whether channel ch may carry the next uplink at datarate dr under the mask and the released bands. */
  predicate Eligible(mask: seq<Word>, bands: seq<DutyBand>, dr: nat, ch: nat)
    requires |mask| == MASK_WORDS && ch < NUM_CHANS
  {
    IsChannelEnabled(mask, ch) && DatarateInRange(dr, GetChannel(ch))
    && var b := GetDutyBand(bands, GetChannel(ch).frequency);
    b != -1 && bands[b].timeOffEnd == 0
  }

  function EligibleFlags(mask: seq<Word>, bands: seq<DutyBand>, dr: nat): (r: seq<bool>)
    requires |mask| == MASK_WORDS
    ensures |r| == NUM_CHANS
    ensures forall ch :: 0 <= ch < NUM_CHANS ==> r[ch] == Eligible(mask, bands, dr, ch)
  {
    seq(NUM_CHANS, ch requires 0 <= ch < NUM_CHANS => Eligible(mask, bands, dr, ch))
  }

  /** The enabledChannels list GetNextChannel builds over the 96 channels. */
  function Candidates(mask: seq<Word>, bands: seq<DutyBand>, dr: nat): seq<nat>
    requires |mask| == MASK_WORDS
  {
    Selected(EligibleFlags(mask, bands, dr), 0, NUM_CHANS)
  }

  /**
   * Under the plan's single band with no time-off pending, the candidates are
   * exactly the enabled channels, for DR1-5, and there are none for any other
   * datarate; they are listed in increasing order.
   */
  lemma CandidatesAreEnabledChannels(mask: seq<Word>, bands: seq<DutyBand>, dr: nat, ch: nat)
    requires |mask| == MASK_WORDS
    requires |bands| == 1 && bands[0].frequencyMin == FREQ_MIN && bands[0].frequencyMax == FREQ_MAX
    requires bands[0].timeOffEnd == 0
    ensures ch in Candidates(mask, bands, dr) <==>
      ch < NUM_CHANS && MIN_DATARATE <= dr <= MAX_DATARATE && IsChannelEnabled(mask, ch)
    ensures forall a, b :: 0 <= a < b < |Candidates(mask, bands, dr)| ==>
      Candidates(mask, bands, dr)[a] < Candidates(mask, bands, dr)[b]
  {
    SelectedMembers(EligibleFlags(mask, bands, dr), 0, NUM_CHANS, ch);
    SelectedIncreasing(EligibleFlags(mask, bands, dr), 0, NUM_CHANS);
    if ch < NUM_CHANS {
      GridInDefaultBand(ch, bands);
    }
  }

  /** A candidate channel always has a frequency, so the radio is never tuned to 0. */
  lemma CandidatesHaveFrequency(mask: seq<Word>, bands: seq<DutyBand>, dr: nat, ch: nat)
    requires |mask| == MASK_WORDS && ch in Candidates(mask, bands, dr)
    ensures ch < NUM_CHANS && GetChannel(ch).frequency != 0
  {
    SelectedMembers(EligibleFlags(mask, bands, dr), 0, NUM_CHANS, ch);
  }

  /** Whether the duty band of frequency f still has time off pending. */
  predicate BandBlocked(bands: seq<DutyBand>, f: nat)
  {
    var b := GetDutyBand(bands, f);
    b != -1 && bands[b].timeOffEnd != 0
  }

  /**
   * GetJoinDatarate: the session datarate with random join datarates disabled;
   * otherwise a datarate DR1-5 chosen by DevNonce modulo 20.
   */
  function JoinDatarate(s: Settings): (dr: nat)
    ensures s.test.disableRandomJoinDatarate ==> dr == s.session.txDatarate
    ensures !s.test.disableRandomJoinDatarate ==> MIN_DATARATE <= dr <= MAX_DATARATE
  {
    if s.test.disableRandomJoinDatarate then s.session.txDatarate
    else
      var cnt := s.network.devNonce % JOIN_CYCLE;
      if cnt % 16 == 0 then 1
      else if cnt % 12 == 0 then 2
      else if cnt % 8 == 0 then 3
      else if cnt % 4 == 0 then 4
      else 5
  }

  /** The join datarate by DevNonce modulo 20. */
  const JOIN_DATARATES: seq<nat> := [1, 5, 5, 5, 4, 5, 5, 5, 3, 5, 5, 5, 2, 5, 5, 5, 1, 5, 5, 5]

  /**
   * With random join datarates, nonce 20 k + r joins at the datarate of entry r
   * of JOIN_DATARATES: in every 20 consecutive nonces DR1 twice, DR2, DR3 and
   * DR4 once each, DR5 15 times, and never DR0.
   */
  lemma JoinDatarateCycle(s: Settings, k: nat, r: nat)
    requires !s.test.disableRandomJoinDatarate && r < JOIN_CYCLE && s.network.devNonce == JOIN_CYCLE * k + r
    ensures JoinDatarate(s) == JOIN_DATARATES[r]
    ensures JoinDatarate(s) != 0
  {
    assert s.network.devNonce % JOIN_CYCLE == r;
  }

  /** The settings Init leaves: RX2 at 505.3 MHz DR0, hopping beacon and ping slot at DR2, DR0 and the configured power. */
  function InitSettings(s: Settings): (r: Settings)
    ensures r.network == s.network && r.multicast == s.multicast && r.test == s.test
  {
    s.(session := s.session.(
      rx2Frequency := FREQ_RX2,
      beaconFrequency := BEACON_FREQ_BASE,
      beaconFreqHop := true,
      pingSlotFrequency := BEACON_FREQ_BASE,
      pingSlotDatarateIndex := BEACON_DR,
      pingSlotFreqHop := true,
      rx2DatarateIndex := 0,
      txDatarate := 0,
      txPower := s.network.txPower))
  }

  /** Every fixed frequency of the plan (RX2, the beacon base, the RX1 and uplink grids) lies within the region. */
  lemma FrequenciesInRegion(i: nat)
    requires i < NUM_CHANS
    ensures FREQ_MIN <= FREQ_RX2 <= FREQ_MAX && FREQ_MIN <= BEACON_FREQ_BASE <= FREQ_MAX
    ensures FREQ_MIN <= FREQ_BASE_125K + FREQ_STEP_125K * i <= FREQ_MAX
    ensures FREQ_MIN <= DownlinkFrequency(Rx1Channel(i)) <= FREQ_MAX
  {
  }

  /** ChannelPlan_CN470: the channel mask, the duty band and the channel in use. */
  class ChannelPlan {
    var settings: Settings
    var channelMask: seq<Word>
    var dutyBands: seq<DutyBand>
    var txChannel: nat
    var txFrequencySubBand: nat
    var numChans: nat

    /** What Init establishes and every operation keeps. */
    ghost predicate Valid()
      reads this
    {
      SettingsOk(settings) && |channelMask| == MASK_WORDS && numChans == NUM_CHANS
      && |dutyBands| == 1 && dutyBands[0].frequencyMin == FREQ_MIN && dutyBands[0].frequencyMax == FREQ_MAX
    }

    constructor(s: Settings)
      requires SettingsOk(s)
      ensures settings == s && channelMask == [] && dutyBands == []
      ensures txChannel == 0 && txFrequencySubBand == 0 && numChans == 0
    {
      settings := s;
      channelMask := [];
      dutyBands := [];
      txChannel := 0;
      txFrequencySubBand := 0;
      numChans := 0;
    }

    /** SetNumberOfChannels: size the mask (new words zero) for the given number of channels. */
    method SetNumberOfChannels(channels: nat)
      requires channels < 256
      modifies this
      ensures channelMask == Resized(old(channelMask), MaskWords(channels)) && numChans == channels
      ensures settings == old(settings) && dutyBands == old(dutyBands)
      ensures txChannel == old(txChannel) && txFrequencySubBand == old(txFrequencySubBand)
    {
      var newSize := MaskWords(channels);
      channelMask := Resized(channelMask, newSize);
      numChans := channels;
    }

    /** SetFrequencySubBand: install the mask of a sub-band (or of all channels). */
    method SetFrequencySubBand(subBand: nat) returns (r: Status)
      requires Valid()
      modifies this
      ensures Valid() && r == Ok
      ensures channelMask == SubBandMask(subBand) && txFrequencySubBand == subBand
      ensures settings == old(settings) && dutyBands == old(dutyBands) && txChannel == old(txChannel)
    {
      txFrequencySubBand := subBand;
      if 0 < subBand < 13 {
        channelMask := SetWord(channelMask, 0, 0);
        channelMask := SetWord(channelMask, 1, 0);
        channelMask := SetWord(channelMask, 2, 0);
        channelMask := SetWord(channelMask, 3, 0);
        channelMask := SetWord(channelMask, 4, 0);
        channelMask := SetWord(channelMask, 5, 0);
        channelMask := SetWord(channelMask, (subBand - 1) / 2, if subBand % 2 == 1 then 0x00FF else 0xFF00);
      } else {
        channelMask := SetWord(channelMask, 0, 0xFFFF);
        channelMask := SetWord(channelMask, 1, 0xFFFF);
        channelMask := SetWord(channelMask, 2, 0xFFFF);
        channelMask := SetWord(channelMask, 3, 0xFFFF);
        channelMask := SetWord(channelMask, 4, 0xFFFF);
        channelMask := SetWord(channelMask, 5, 0xFFFF);
      }
      r := Ok;
    }

    /** EnableDefaultChannels: back to the configured sub-band. */
    method EnableDefaultChannels()
      requires Valid()
      modifies this
      ensures Valid()
      ensures channelMask == SubBandMask(old(settings).network.frequencySubBand)
      ensures txFrequencySubBand == old(settings).network.frequencySubBand
      ensures settings == old(settings) && dutyBands == old(dutyBands) && txChannel == old(txChannel)
    {
      var _ := SetFrequencySubBand(settings.network.frequencySubBand);
    }

    /** Init: the 96-channel mask of the configured sub-band, one duty band, the session defaults. */
    method Init()
      requires SettingsOk(settings)
      modifies this
      ensures Valid()
      ensures dutyBands == [DEFAULT_BAND]
      ensures channelMask == SubBandMask(old(settings).network.frequencySubBand)
      ensures txFrequencySubBand == old(settings).network.frequencySubBand
      ensures settings == InitSettings(old(settings)) && txChannel == old(txChannel)
    {
      dutyBands := [];
      settings := settings.(session := settings.session.(rx2Frequency := FREQ_RX2));
      settings := settings.(session := settings.session.(
        beaconFrequency := BEACON_FREQ_BASE,
        beaconFreqHop := true,
        pingSlotFrequency := BEACON_FREQ_BASE,
        pingSlotDatarateIndex := BEACON_DR,
        pingSlotFreqHop := true));
      SetNumberOfChannels(NUM_CHANS_125K + NUM_CHANS_500K);
      MaskSize();
      dutyBands := dutyBands + [DEFAULT_BAND];
      settings := settings.(session := settings.session.(rx2DatarateIndex := 0));
      settings := settings.(session := settings.session.(txDatarate := 0, txPower := settings.network.txPower));
      var _ := SetFrequencySubBand(settings.network.frequencySubBand);
    }

    /**
     * HandleJoinAccept: a CFList is ignored (channel masks are not taken from
     * it); the configured sub-band's mask is restored.
     */
    method HandleJoinAccept(buffer: seq<Byte>, size: nat) returns (r: Status)
      requires Valid()
      modifies this
      ensures Valid() && r == Ok
      ensures channelMask == SubBandMask(old(settings).network.frequencySubBand)
      ensures txFrequencySubBand == old(settings).network.frequencySubBand
      ensures settings == old(settings) && dutyBands == old(dutyBands) && txChannel == old(txChannel)
    {
      EnableDefaultChannels();
      r := Ok;
    }

    /** HandleRxParamSetup (RXParamSetupReq): acknowledge each field, apply all three only when all are valid. */
    method HandleRxParamSetup(payload: seq<Byte>, index: nat, checkRf: nat -> bool) returns (r: Status, status: Byte)
      requires Valid() && index + 4 <= |payload|
      modifies this
      ensures Valid() && r == Ok
      ensures channelMask == old(channelMask) && dutyBands == old(dutyBands)
      ensures txChannel == old(txChannel) && txFrequencySubBand == old(txFrequencySubBand)
      ensures var dr := LowNibble(payload[index]);
        var offset := MidBits(payload[index]);
        var f := FrequencyAt(payload, index + 1);
        (status & 1 == 1 <==> checkRf(f))
        && (status & 2 == 2 <==> MIN_RX2_DATARATE <= dr <= MAX_RX2_DATARATE)
        && (status & 4 == 4 <==> offset <= MAX_DATARATE_OFFSET)
        && status & 0xF8 == 0
        && settings == if status == 0x07
                       then old(settings).(session := old(settings).session.(rx2DatarateIndex := dr, rx2Frequency := f, rx1DatarateOffset := offset))
                       else old(settings)
    {
      var datarate := LowNibble(payload[index]);
      var drOffset := MidBits(payload[index]);
      var freq := FrequencyAt(payload, index + 1);
      status := RxParamAck(checkRf(freq), datarate, drOffset);
      if status & 0x07 == 0x07 {
        settings := settings.(session := settings.session.(rx2DatarateIndex := datarate));
        settings := settings.(session := settings.session.(rx2Frequency := freq));
        settings := settings.(session := settings.session.(rx1DatarateOffset := drOffset));
      }
      r := Ok;
    }

    /** The acknowledgements of an RXParamSetupReq: channel (bit 0), RX2 datarate (bit 1), RX1 offset (bit 2). */
    static method RxParamAck(rfOk: bool, datarate: nat, drOffset: nat) returns (status: Byte)
      ensures status & 1 == 1 <==> rfOk
      ensures status & 2 == 2 <==> MIN_RX2_DATARATE <= datarate <= MAX_RX2_DATARATE
      ensures status & 4 == 4 <==> MIN_DATARATE_OFFSET <= drOffset <= MAX_DATARATE_OFFSET
      ensures status & 0xF8 == 0
      ensures status & 0x07 == 0x07 <==> status == 0x07
    {
      status := 0x07;
      if !rfOk {
        status := status & 0xFE;
      }
      if datarate < MIN_RX2_DATARATE || datarate > MAX_RX2_DATARATE {
        status := status & 0xFD;
      }
      if drOffset < MIN_DATARATE_OFFSET || drOffset > MAX_DATARATE_OFFSET {
        status := status & 0xFB;
      }
    }

    /** HandleNewChannel (NewChannelReq): not supported with a fixed channel grid. */
    method HandleNewChannel(payload: seq<Byte>, index: nat) returns (r: Status, status: Byte)
      ensures r == Unsupported && status == 0
    {
      status := 0;
      r := Unsupported;
    }

    /** HandleDownlinkChannelReq (DlChannelReq): not supported with a fixed channel grid. */
    method HandleDownlinkChannelReq(payload: seq<Byte>, index: nat) returns (r: Status, status: Byte)
      ensures r == Unsupported && status == 0
    {
      status := 0;
      r := Unsupported;
    }

    /** SetDutyBandDutyCycle: the plan's duty band cannot be changed. */
    method SetDutyBandDutyCycle(band: nat, dutyCycle: nat) returns (r: Status)
      ensures r == Unsupported
    {
      r := Unsupported;
    }

    /**
     * HandlePingSlotChannelReq: frequency 0 restores the hopping default; the new
     * frequency and datarate are applied only when both are acknowledged.
     */
    method HandlePingSlotChannelReq(payload: seq<Byte>, index: nat, checkRf: nat -> bool) returns (r: Status, status: Byte)
      requires Valid() && index + 4 <= |payload|
      modifies this
      ensures Valid() && r == Ok
      ensures channelMask == old(channelMask) && dutyBands == old(dutyBands)
      ensures txChannel == old(txChannel) && txFrequencySubBand == old(txFrequencySubBand)
      ensures var f := FrequencyAt(payload, index);
        var dr := LowNibble(payload[index + 3]);
        (status & 1 == 1 <==> f == 0 || checkRf(f))
        && (status & 2 == 2 <==> MIN_RX2_DATARATE <= dr <= MAX_RX2_DATARATE)
        && status & 0xFC == 0
        && settings == if status == 0x03
                       then old(settings).(session := old(settings).session.(
                              pingSlotFrequency := if f == 0 then BEACON_FREQ_BASE else f,
                              pingSlotDatarateIndex := dr,
                              pingSlotFreqHop := f == 0))
                       else old(settings)
    {
      status := 0x03;
      var freq := FrequencyAt(payload, index);
      var datarate := LowNibble(payload[index + 3]);
      var freqHop := false;
      if freq == 0 {
        freq := BEACON_FREQ_BASE;
        freqHop := true;
      } else if !checkRf(freq) {
        status := status & 0xFE;
      }
      if datarate < MIN_RX2_DATARATE || datarate > MAX_RX2_DATARATE {
        status := status & 0xFD;
      }
      if status & 0x03 == 0x03 {
        settings := settings.(session := settings.session.(
          pingSlotFrequency := freq, pingSlotDatarateIndex := datarate, pingSlotFreqHop := freqHop));
      }
      r := Ok;
    }

    /** HandleBeaconFrequencyReq: frequency 0 restores the hopping default. */
    method HandleBeaconFrequencyReq(payload: seq<Byte>, index: nat, checkRf: nat -> bool) returns (r: Status, status: Byte)
      requires Valid() && index + 3 <= |payload|
      modifies this
      ensures Valid() && r == Ok
      ensures channelMask == old(channelMask) && dutyBands == old(dutyBands)
      ensures txChannel == old(txChannel) && txFrequencySubBand == old(txFrequencySubBand)
      ensures var f := FrequencyAt(payload, index);
        (status == 1 <==> f == 0 || checkRf(f)) && (status == 0 || status == 1)
        && settings == if status == 1
                       then old(settings).(session := old(settings).session.(
                              beaconFrequency := if f == 0 then BEACON_FREQ_BASE else f,
                              beaconFreqHop := f == 0))
                       else old(settings)
    {
      status := 0x01;
      var freq := FrequencyAt(payload, index);
      var freqHop := false;
      if freq == 0 {
        freq := BEACON_FREQ_BASE;
        freqHop := true;
      } else if !checkRf(freq) {
        status := status & 0xFE;
      }
      if status & 0x01 != 0 {
        settings := settings.(session := settings.session.(beaconFrequency := freq, beaconFreqHop := freqHop));
      }
      r := Ok;
    }

    /** The accepted ChMaskCntl 0-6 of HandleAdrCommand: write word ctrl, or enable every channel. */
    method ApplyChannelMask(ctrl: nat, mask: Word)
      requires |channelMask| == MASK_WORDS && ctrl <= 6
      modifies this
      ensures channelMask == AdrMask(old(channelMask), ctrl, mask)
      ensures settings == old(settings) && dutyBands == old(dutyBands) && numChans == old(numChans)
      ensures txChannel == old(txChannel) && txFrequencySubBand == old(txFrequencySubBand)
    {
      if ctrl < 6 {
        channelMask := SetWord(channelMask, ctrl, mask);
      } else {
        channelMask := SetWord(channelMask, 0, 0xFFFF);
        channelMask := SetWord(channelMask, 1, 0xFFFF);
        channelMask := SetWord(channelMask, 2, 0xFFFF);
        channelMask := SetWord(channelMask, 3, 0xFFFF);
        channelMask := SetWord(channelMask, 4, 0xFFFF);
        channelMask := SetWord(channelMask, 5, 0xFFFF);
      }
    }

    /** The datarate and power acknowledgements of a LinkADRReq; bit 0 (mask) starts set. */
    static method AdrAck(datarate: nat, power: nat) returns (status: Byte)
      ensures status & 2 == 0 <==> datarate != 0xF && datarate > MAX_DATARATE
      ensures status & 4 == 0 <==> power != 0xF && power > MAX_POWER_INDEX
      ensures status & 1 == 1 && status & 0xF8 == 0
      ensures status == 0x07 <==> status & 2 != 0 && status & 4 != 0
    {
      status := 0x07;
      if datarate != 0xF && datarate > MAX_DATARATE {
        status := status & 0xFD;
      }
      if power != 0xF && power > MAX_POWER_INDEX {
        status := status & 0xFB;
      }
    }

    /**
     * HandleAdrCommand (LinkADRReq): bit 1 rejects a datarate above DR5 (DR0 is
     * not tested), bit 2 a power index above 8 (0xF keeps either); ChMaskCntl
     * 0-5 writes that mask word, 6 enables all channels, and 7 is refused with
     * LORA_ERROR and bit 0 cleared, changing nothing; with ADR enabled a fully
     * acknowledged request sets datarate, power and redundancy (NbRep 0 meaning 1).
     */
    method HandleAdrCommand(payload: seq<Byte>, index: nat) returns (r: Status, status: Byte)
      requires Valid() && index + 4 <= |payload|
      modifies this
      ensures Valid()
      ensures dutyBands == old(dutyBands) && txChannel == old(txChannel) && txFrequencySubBand == old(txFrequencySubBand)
      ensures var q := DecodeLinkAdrReq(payload, index);
        (status & 2 == 0 <==> q.datarate != 0xF && q.datarate > MAX_DATARATE)
        && (status & 4 == 0 <==> q.power != 0xF && q.power > MAX_POWER_INDEX)
        && (status & 1 == 0 <==> q.ctrl > 6)
        && status & 0xF8 == 0
        && (r == Error <==> q.ctrl > 6) && (r == Ok || r == Error)
        && channelMask == AdrMask(old(channelMask), q.ctrl, q.mask)
        && settings == if r == Ok && old(settings).network.adrEnabled && status == 0x07
                       then old(settings).(session := old(settings).session.(
                              txDatarate := if q.datarate != 0xF then q.datarate else old(settings).session.txDatarate,
                              txPower := if q.power != 0xF then TX_POWERS[q.power] else old(settings).session.txPower,
                              redundancy := if q.nbRep == 0 then 1 else q.nbRep))
                       else old(settings)
    {
      var q := DecodeLinkAdrReq(payload, index);
      var datarate := q.datarate;
      var power := q.power;
      var mask := q.mask;
      var ctrl := q.ctrl;
      var nbRep := q.nbRep;
      if nbRep == 0 {
        nbRep := 1;
      }
      status := AdrAck(datarate, power);
      if ctrl > 6 {
        ClearMaskAck(status);
        status := status & 0xFE;
        return Error, status;
      }
      ApplyChannelMask(ctrl, mask);
      if settings.network.adrEnabled {
        if status == 0x07 {
          CommitAdr(datarate, power, nbRep);
        }
      }
      r := Ok;
    }

    /** The accepted LinkADRReq's datarate (0xF: unchanged), power index (0xF: unchanged) and NbRep take effect. */
    method CommitAdr(datarate: nat, power: nat, nbRep: nat)
      requires Valid() && (datarate == 0xF || datarate <= MAX_DATARATE) && (power == 0xF || power <= MAX_POWER_INDEX)
      modifies this
      ensures Valid()
      ensures channelMask == old(channelMask) && dutyBands == old(dutyBands) && numChans == old(numChans)
      ensures txChannel == old(txChannel) && txFrequencySubBand == old(txFrequencySubBand)
      ensures settings == old(settings).(session := old(settings).session.(
        txDatarate := if datarate != 0xF then datarate else old(settings).session.txDatarate,
        txPower := if power != 0xF then TX_POWERS[power] else old(settings).session.txPower,
        redundancy := nbRep))
    {
      if datarate != 0xF {
        settings := settings.(session := settings.session.(txDatarate := datarate));
      }
      if power != 0xF {
        settings := settings.(session := settings.session.(txPower := TX_POWERS[power]));
      }
      settings := settings.(session := settings.session.(redundancy := nbRep));
    }

    /** The CountBits sum of ValidateAdrConfiguration over the six mask words. */
    method CountEnabled() returns (n: nat)
      requires Valid()
      ensures n == EnabledCount(channelMask)
    {
      n := 0;
      n := n + PopCount(channelMask[0]);
      n := n + PopCount(channelMask[1]);
      n := n + PopCount(channelMask[2]);
      n := n + PopCount(channelMask[3]);
      n := n + PopCount(channelMask[4]);
      n := n + PopCount(channelMask[5]);
    }

    /**
     * GetNextChannel: refused while the aggregated duty cycle is pending; with a
     * fixed transmit frequency only that frequency's band is checked; otherwise
     * the bands whose time-off has passed are released, the enabled channels
     * that allow the datarate in a released band are listed, and one of them is
     * picked at random.
     */
    method GetNextChannel(now: nat) returns (r: Status)
      requires Valid()
      modifies this
      ensures Valid()
      ensures channelMask == old(channelMask) && txFrequencySubBand == old(txFrequencySubBand) && settings == old(settings)
      ensures old(settings).session.aggregatedTimeOffEnd != 0 ==>
        r == AggregatedDutyCycle && dutyBands == old(dutyBands) && txChannel == old(txChannel)
      ensures old(settings).session.aggregatedTimeOffEnd == 0
              && (P2PEnabled(old(settings)) || old(settings).network.txFrequency != 0) ==>
        dutyBands == old(dutyBands) && txChannel == old(txChannel)
        && r == (if !old(settings).test.disableDutyCycle && BandBlocked(old(dutyBands), old(settings).network.txFrequency)
                 then NoChansEnabled else Ok)
      ensures old(settings).session.aggregatedTimeOffEnd == 0
              && !(P2PEnabled(old(settings)) || old(settings).network.txFrequency != 0) ==>
        var released := ReleasedBands(old(dutyBands), now, old(settings).test.disableDutyCycle);
        var candidates := Candidates(old(channelMask), released, old(settings).session.txDatarate);
        dutyBands == released
        && (r == Ok <==> |candidates| > 0) && (r == Ok || r == NoChansEnabled)
        && (r == Ok ==> txChannel in candidates) && (r != Ok ==> txChannel == old(txChannel))
    {
      if settings.session.aggregatedTimeOffEnd != 0 {
        return AggregatedDutyCycle;
      }
      if P2PEnabled(settings) || settings.network.txFrequency != 0 {
        if !settings.test.disableDutyCycle {
          var band := GetDutyBand(dutyBands, settings.network.txFrequency);
          if band != -1 && dutyBands[band].timeOffEnd != 0 {
            return NoChansEnabled;
          }
        }
        return Ok;
      }
      r := SearchChannel(now);
    }

    /** The channel-search branch of GetNextChannel. */
    method SearchChannel(now: nat) returns (r: Status)
      requires Valid()
      modifies this
      ensures Valid()
      ensures channelMask == old(channelMask) && txFrequencySubBand == old(txFrequencySubBand) && settings == old(settings)
      ensures var released := ReleasedBands(old(dutyBands), now, old(settings).test.disableDutyCycle);
        var candidates := Candidates(old(channelMask), released, old(settings).session.txDatarate);
        dutyBands == released
        && (r == Ok <==> |candidates| > 0) && (r == Ok || r == NoChansEnabled)
        && (r == Ok ==> txChannel in candidates) && (r != Ok ==> txChannel == old(txChannel))
    {
      var dr := settings.session.txDatarate;
      ReleaseBands(now);
      var enabledChannels, nbEnabled := EnabledChannels(dr);
      if nbEnabled == 0 {
        return NoChansEnabled;
      }
      PickChannel(enabledChannels, nbEnabled);
      r := Ok;
    }

    /** rand_r(0, nbEnabled - 1): one of the listed channels becomes the transmit channel. */
    method PickChannel(enabledChannels: array<nat>, nbEnabled: nat)
      requires 0 < nbEnabled <= enabledChannels.Length
      modifies this
      ensures txChannel in enabledChannels[..nbEnabled]
      ensures settings == old(settings) && channelMask == old(channelMask) && numChans == old(numChans)
      ensures dutyBands == old(dutyBands) && txFrequencySubBand == old(txFrequencySubBand)
    {
      var j :| 0 <= j < nbEnabled;
      assert enabledChannels[j] == enabledChannels[..nbEnabled][j];
      txChannel := enabledChannels[j];
    }

    /** The search loop of GetNextChannel: the candidate channels for datarate dr, in increasing order. */
    method EnabledChannels(dr: nat) returns (enabledChannels: array<nat>, nbEnabled: nat)
      requires Valid()
      ensures fresh(enabledChannels)
      ensures nbEnabled <= enabledChannels.Length
      ensures enabledChannels[..nbEnabled] == Candidates(channelMask, dutyBands, dr)
    {
      enabledChannels := new nat[NUM_CHANS_125K];
      nbEnabled := 0;
      var ch := 0;
      ghost var flags := EligibleFlags(channelMask, dutyBands, dr);
      while ch < NUM_CHANS_125K
        invariant 0 <= ch <= NUM_CHANS && nbEnabled <= ch
        invariant enabledChannels[..nbEnabled] == Selected(flags, 0, ch)
        modifies enabledChannels
      {
        var taken := IsCandidate(ch, dr);
        if taken {
          Push(enabledChannels, nbEnabled, ch);
          nbEnabled := nbEnabled + 1;
        }
        assert taken == flags[ch];
        ch := ch + 1;
      }
    }

    /** The test of the search loop: enabled, datarate in range, and a released band. */
    method IsCandidate(ch: nat, dr: nat) returns (taken: bool)
      requires Valid() && ch < NUM_CHANS
      ensures taken == Eligible(channelMask, dutyBands, dr, ch)
    {
      taken := false;
      var c := GetChannel(ch);
      if IsChannelEnabled(channelMask, ch) && dr >= RangeMin(c.drRange) && dr <= RangeMax(c.drRange) {
        var band := GetDutyBand(dutyBands, c.frequency);
        if band != -1 && dutyBands[band].timeOffEnd == 0 {
          taken := true;
        }
      }
    }

    /** The release loop of GetNextChannel: a band whose time-off has passed, or every band with duty cycling disabled, is freed. */
    method ReleaseBands(now: nat)
      modifies this
      ensures dutyBands == ReleasedBands(old(dutyBands), now, settings.test.disableDutyCycle)
      ensures settings == old(settings) && channelMask == old(channelMask) && numChans == old(numChans)
      ensures txChannel == old(txChannel) && txFrequencySubBand == old(txFrequencySubBand)
    {
      var i := 0;
      while i < |dutyBands|
        invariant 0 <= i <= |dutyBands| == |old(dutyBands)|
        invariant forall j :: 0 <= j < i ==> dutyBands[j] == ReleasedBand(old(dutyBands)[j], now, settings.test.disableDutyCycle)
        invariant forall j :: i <= j < |dutyBands| ==> dutyBands[j] == old(dutyBands)[j]
        invariant settings == old(settings) && channelMask == old(channelMask) && numChans == old(numChans)
        invariant txChannel == old(txChannel) && txFrequencySubBand == old(txFrequencySubBand)
      {
        if dutyBands[i].timeOffEnd < now || settings.test.disableDutyCycle {
          dutyBands := dutyBands[i := dutyBands[i].(timeOffEnd := 0)];
        }
        i := i + 1;
      }
    }

    /**
     * SetTxConfig: the radio configuration of the next uplink, always LoRa; the
     * power index is getTxPowerIndex of the conducted power, shifted onto the
     * radio's table by RadioPowerIndex.
     */
    method SetTxConfig(powerIndex: int -> int) returns (cfg: TxConfig)
      requires Valid()
      requires GetDutyBand(dutyBands, GetChannel(txChannel).frequency) != -1
      ensures var band := GetDutyBand(dutyBands, GetChannel(txChannel).frequency);
        cfg == TxConfig(ModemLora,
                        RadioPowerIndex(powerIndex(EU868.ConductedPower(settings.session.txPower, dutyBands[band].powerMax,
                                                                        settings.network.antennaGain))),
                        0)
    {
      var band := GetDutyBand(dutyBands, GetChannel(txChannel).frequency);
      var txDr := DATARATES[settings.session.txDatarate];
      var maxPwr := ToInt8(dutyBands[band].powerMax);
      var pwr := ToInt8(settings.session.txPower);
      pwr := if pwr < maxPwr then pwr else maxPwr;
      pwr := ToInt8(pwr - settings.network.antennaGain);
      pwr := ToInt8(powerIndex(pwr));
      if pwr == 0 {
        pwr := 1;
      }
      DatarateBandwidths(settings.session.txDatarate);
      var modem := ModemLora;
      var fdev := 0;
      if txDr.spreadingFactor == SfFsk {
        modem := ModemFsk;
        fdev := 25000;
      }
      pwr := ToInt8(pwr - 1);
      cfg := TxConfig(modem, pwr, fdev);
    }

    /**
     * FrequencyHop: with hopping on, the beacon and the ping slot, and every
     * multicast session with an address, move to the beacon channel of the
     * current period.
     */
    method FrequencyHop(time: nat, period: nat, devAddr: nat)
      requires Valid() && period > 0
      modifies this
      ensures Valid()
      ensures channelMask == old(channelMask) && dutyBands == old(dutyBands)
      ensures txChannel == old(txChannel) && txFrequencySubBand == old(txFrequencySubBand)
      ensures settings.network == old(settings).network && settings.test == old(settings).test
      ensures settings.session == old(settings).session.(
        beaconFrequency := if old(settings).session.beaconFreqHop then HopFrequency(time, period, 0)
                           else old(settings).session.beaconFrequency,
        pingSlotFrequency := if old(settings).session.pingSlotFreqHop then HopFrequency(time, period, devAddr)
                             else old(settings).session.pingSlotFrequency)
      ensures |settings.multicast| == MAX_MULTICAST_SESSIONS
      ensures forall i :: 0 <= i < MAX_MULTICAST_SESSIONS ==>
        settings.multicast[i] == if old(settings).multicast[i].address != 0
                                 then old(settings).multicast[i].(frequency := HopFrequency(time, period, old(settings).multicast[i].address))
                                 else old(settings).multicast[i]
    {
      if settings.session.beaconFreqHop {
        settings := settings.(session := settings.session.(beaconFrequency := HopFrequency(time, period, 0)));
      }
      if settings.session.pingSlotFreqHop {
        settings := settings.(session := settings.session.(pingSlotFrequency := HopFrequency(time, period, devAddr)));
      }
      var i := 0;
      while i < MAX_MULTICAST_SESSIONS
        invariant 0 <= i <= MAX_MULTICAST_SESSIONS && |settings.multicast| == MAX_MULTICAST_SESSIONS
        invariant settings.network == old(settings).network && settings.test == old(settings).test
        invariant settings.session == old(settings).session.(
          beaconFrequency := if old(settings).session.beaconFreqHop then HopFrequency(time, period, 0)
                             else old(settings).session.beaconFrequency,
          pingSlotFrequency := if old(settings).session.pingSlotFreqHop then HopFrequency(time, period, devAddr)
                               else old(settings).session.pingSlotFrequency)
        invariant forall j :: 0 <= j < i ==>
          settings.multicast[j] == if old(settings).multicast[j].address != 0
                                   then old(settings).multicast[j].(frequency := HopFrequency(time, period, old(settings).multicast[j].address))
                                   else old(settings).multicast[j]
        invariant forall j :: i <= j < MAX_MULTICAST_SESSIONS ==> settings.multicast[j] == old(settings).multicast[j]
        invariant channelMask == old(channelMask) && dutyBands == old(dutyBands) && numChans == old(numChans)
        invariant txChannel == old(txChannel) && txFrequencySubBand == old(txFrequencySubBand)
      {
        var m := settings.multicast[i];
        if m.address != 0 {
          settings := settings.(multicast := settings.multicast[i := m.(frequency := HopFrequency(time, period, m.address))]);
        }
        i := i + 1;
      }
    }
  }
}
