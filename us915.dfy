/**
 * The US902-928 channel plan: 64 uplink channels of 125 kHz, 8 uplink channels
 * of 500 kHz, 8 downlink channels of 500 kHz, eight frequency sub-bands, and a
 * single duty band spanning the whole ISM band.
 */
module US915 {
  import opened Bits
  import opened LoraTypes
  import opened Wire
  import opened DutyCycle
  import opened ChannelMask

  // Band constants of section 2.2 of the LoRaWAN Regional Parameters 1.0.2.
  const NUM_CHANS_125K: nat := 64
  const NUM_CHANS_500K: nat := 8
  const NUM_CHANS: nat := 72
  const FREQ_BASE_125K: nat := 902_300_000
  const FREQ_STEP_125K: nat := 200_000
  const FREQ_BASE_500K: nat := 903_000_000
  const FREQ_STEP_500K: nat := 1_600_000
  const DBASE_500K: nat := 923_300_000
  const DSTEP_500K: nat := 600_000
  const FREQ_MIN: nat := 902_000_000
  const FREQ_MAX: nat := 928_000_000
  const MIN_DATARATE: nat := 0
  const MAX_DATARATE: nat := 4
  const MIN_RX2_DATARATE: nat := 8
  const MAX_RX2_DATARATE: nat := 13
  const MAX_DATARATE_OFFSET: nat := 3
  const MAX_TX_POWER: nat := 30
  const BEACON_DR: nat := 8
  const BEACON_FREQ_BASE: nat := 923_300_000
  const BEACON_FREQ_STEP: nat := 600_000
  const BEACON_CHANNELS: nat := 8

  /** US915_TX_POWERS: the conducted power (dBm) of each TXPower index. */
  const TX_POWERS: seq<nat> := [30, 28, 26, 24, 22, 20, 18, 16, 14, 12, 10, 8, 6, 4, 2, 0]

  /** The datarate table Init builds: DR0-3 SF10-SF7/125, DR4 SF8/500, DR5-7 RFU, DR8-13 SF12-SF7/500, DR14-15 RFU. */
  const DATARATES: seq<Datarate> := [
    Datarate(Sf(10), Bw125), Datarate(Sf(9), Bw125), Datarate(Sf(8), Bw125), Datarate(Sf(7), Bw125),
    Datarate(Sf(8), Bw500),
    Datarate(SfInvalid, Bw500), Datarate(SfInvalid, Bw500), Datarate(SfInvalid, Bw500),
    Datarate(Sf(12), Bw500), Datarate(Sf(11), Bw500), Datarate(Sf(10), Bw500),
    Datarate(Sf(9), Bw500), Datarate(Sf(8), Bw500), Datarate(Sf(7), Bw500),
    Datarate(SfInvalid, Bw500), Datarate(SfInvalid, Bw500)]

  /** The single duty band Init adds: the whole ISM band, 30 dBm, no duty cycle. */
  const DEFAULT_BAND: DutyBand := DutyBand(FREQ_MIN, FREQ_MAX, 30, 0, 0)

  /** Only DR0-3 use 125 kHz; every other entry is a 500 kHz one. */
  lemma DatarateBandwidths(dr: nat)
    requires dr < 16
    ensures DATARATES[dr].bandwidth == Bw125 <==> dr < 4
    ensures DATARATES[dr].bandwidth == Bw500 <==> dr >= 4
    ensures DATARATES[dr].spreadingFactor != SfFsk
  {
  }

  /** GetMaxDatarate: DR13 in peer-to-peer mode, the plan's DR4 otherwise. */
  function MaxDatarate(s: Settings): nat
  {
    if P2PEnabled(s) then 13 else MAX_DATARATE
  }

  /**
   * GetChannel on the empty channel table Init leaves: the fixed uplink grid,
   * and a zeroed channel beyond it.
   */
  function GetChannel(index: nat): (c: Channel)
    ensures index < NUM_CHANS_125K ==> RangeMin(c.drRange) == MIN_DATARATE && RangeMax(c.drRange) == MAX_DATARATE - 1
    ensures NUM_CHANS_125K <= index < NUM_CHANS ==> RangeMin(c.drRange) == MAX_DATARATE && RangeMax(c.drRange) == MAX_DATARATE
    ensures index < NUM_CHANS ==> FREQ_MIN <= c.frequency <= FREQ_MAX
    ensures index >= NUM_CHANS ==> c == ZeroChannel
  {
    if index < NUM_CHANS_125K then
      Channel(FREQ_BASE_125K + FREQ_STEP_125K * index, MakeRange(MIN_DATARATE, MAX_DATARATE - 1))
    else if index < NUM_CHANS then
      Channel(FREQ_BASE_500K + FREQ_STEP_500K * (index - NUM_CHANS_125K), MakeRange(MAX_DATARATE, MAX_DATARATE))
    else
      ZeroChannel
  }

  /**
   * The uplink grid of section 2.2.1 of the Regional Parameters: channel n < 64
   * at 902.3 + 0.2 n MHz, channel 64 + n at 903.0 + 1.6 n MHz, and no two
   * channels share a frequency.
   */
  lemma {:induction false} ChannelGrid(i: nat, j: nat)
    requires i < NUM_CHANS && j < NUM_CHANS
    ensures i < 64 ==> GetChannel(i).frequency == 902_300_000 + 200_000 * i
    ensures i >= 64 ==> GetChannel(i).frequency == 903_000_000 + 1_600_000 * (i - 64)
    ensures i != j ==> GetChannel(i).frequency != GetChannel(j).frequency
  {
    if i != j && i < 64 && j >= 64 {
      // 903.0 + 1.6 k = 902.3 + 0.2 i would need 2 i = 7 + 16 k.
      assert 2 * i != 7 + 16 * (j - 64);
    }
  }

  /** Every grid channel lies in the plan's single duty band. */
  lemma GridInDefaultBand(i: nat, bands: seq<DutyBand>)
    requires i < NUM_CHANS && |bands| == 1
    requires bands[0].frequencyMin == FREQ_MIN && bands[0].frequencyMax == FREQ_MAX
    ensures GetDutyBand(bands, GetChannel(i).frequency) == 0
  {
  }

  /**
   * SetFrequencySubBand's mask: sub-band 1-8 enables its eight 125 kHz
   * channels and its one 500 kHz channel, any other value enables all 72.
   */
  function SubBandMask(subBand: nat): (m: seq<Word>)
    ensures |m| == 5
  {
    if 0 < subBand < 9 then
      var z: seq<Word> := [0, 0, 0, 0, 0];
      z[(subBand - 1) / 2 := if subBand % 2 == 1 then 0x00FF else 0xFF00][4 := Bit(subBand - 1)]
    else
      [0xFFFF, 0xFFFF, 0xFFFF, 0xFFFF, 0x00FF]
  }

  /** The channels of sub-band sb: 8 (sb - 1) .. 8 sb - 1 and 500 kHz channel 63 + sb. */
  predicate InSubBand(subBand: nat, ch: nat)
  {
    if 0 < subBand < 9 then 8 * (subBand - 1) <= ch < 8 * subBand || ch == 63 + subBand else ch < NUM_CHANS
  }

  /** SubBandMask enables exactly the channels of the sub-band. */
  lemma SubBandEnables(subBand: nat, ch: nat)
    requires ch < NUM_CHANS
    ensures IsChannelEnabled(SubBandMask(subBand), ch) <==> InSubBand(subBand, ch)
  {
    var m := SubBandMask(subBand);
    EnabledIsBit(m, ch);
    PatternBits(ch % 16);
    if 0 < subBand < 9 {
      var k := (subBand - 1) / 2;
      if ch / 16 == 4 {
        assert m[4] == Bit(subBand - 1);
      } else if ch / 16 == k {
        assert m[k] == if subBand % 2 == 1 then 0x00FF else 0xFF00;
      } else {
        assert m[ch / 16] == 0;
      }
    }
  }

  /** The number of 125 kHz channels words 0-3 of the mask enable (the CountBits sum). */
  function Enabled125k(mask: seq<Word>): (n: nat)
    requires |mask| >= 4
    ensures n <= NUM_CHANS_125K
  {
    PopCount(mask[0]) + PopCount(mask[1]) + PopCount(mask[2]) + PopCount(mask[3])
  }

  /** Words 0-3 of a sub-band mask: the half word of the sub-band in word (sb - 1) / 2, the rest clear. */
  lemma SubBandHalves(subBand: nat)
    requires 0 < subBand < 9
    ensures var m := SubBandMask(subBand);
      var k := (subBand - 1) / 2;
      var h: Word := if subBand % 2 == 1 then 0x00FF else 0xFF00;
      m[0] == (if k == 0 then h else 0) && m[1] == (if k == 1 then h else 0)
      && m[2] == (if k == 2 then h else 0) && m[3] == (if k == 3 then h else 0)
  {
  }

  /** Words 0-3 of a sub-band mask count eight channels. */
  lemma SubBandWords(subBand: nat)
    requires 0 < subBand < 9
    ensures var m := SubBandMask(subBand);
      PopCount(m[0]) + PopCount(m[1]) + PopCount(m[2]) + PopCount(m[3]) == 8
  {
    var k := (subBand - 1) / 2;
    var h: Word := if subBand % 2 == 1 then 0x00FF else 0xFF00;
    SubBandHalves(subBand);
    PopCountHalf(h, k == 0);
    PopCountHalf(h, k == 1);
    PopCountHalf(h, k == 2);
    PopCountHalf(h, k == 3);
  }

  /** A sub-band mask enables 8 + 1 channels, the all-channels mask 64 + 8. */
  lemma SubBandCounts(subBand: nat)
    ensures Enabled125k(SubBandMask(subBand)) == if 0 < subBand < 9 then 8 else 64
    ensures PopCount(SubBandMask(subBand)[4] & 0xFF) == if 0 < subBand < 9 then 1 else 8
  {
    PopCountOfPatterns();
    if 0 < subBand < 9 {
      PopCountBit(subBand - 1);
      LowBit(subBand - 1);
      SubBandWords(subBand);
    } else {
      assert (0x00FF as Word) & 0xFF == 0x00FF;
    }
  }

  /**
   * ValidateAdrConfiguration: bit 1 (datarate) is cleared for a datarate above
   * DR4 under ADR or for DR4 without a 500 kHz channel, bit 2 (power) for a power
   * above 30 dBm under ADR, bit 0 (mask) for a 125 kHz datarate with fewer than
   * two 125 kHz channels.
   */
  function ValidateAdrConfiguration(s: Settings, mask: seq<Word>): (status: Byte)
    requires |mask| == 5
    ensures status & 0xF8 == 0
    ensures status & 1 == 0 <==> s.session.txDatarate < 4 && Enabled125k(mask) < 2
    ensures status & 2 == 0 <==>
      (s.network.adrEnabled && s.session.txDatarate > MAX_DATARATE)
      || (s.session.txDatarate == 4 && PopCount(mask[4] & 0xFF) == 0)
    ensures status & 4 == 0 <==> s.network.adrEnabled && s.session.txPower > MAX_TX_POWER
  {
    var dr := s.session.txDatarate;
    var s1: Byte := if s.network.adrEnabled && dr > MAX_DATARATE then 0x07 & 0xFD else 0x07;
    var s2 := if s.network.adrEnabled && s.session.txPower > MAX_TX_POWER then s1 & 0xFB else s1;
    var s3 := if dr < 4 && Enabled125k(mask) < 2 then s2 & 0xFE else s2;
    if dr == 4 && PopCount(mask[4] & 0xFF) == 0 then s3 & 0xFD else s3
  }

  /** Every mask SetFrequencySubBand installs passes the channel-mask check, and DR4 finds a 500 kHz channel. */
  lemma SubBandMaskPassesAdr(s: Settings, subBand: nat)
    ensures ValidateAdrConfiguration(s, SubBandMask(subBand)) & 1 == 1
    ensures s.session.txDatarate == 4 ==> ValidateAdrConfiguration(s, SubBandMask(subBand)) & 2 == 2
  {
    SubBandCounts(subBand);
  }

  /** The US902-928 RX1 datarate table (section 2.2.7 of the Regional Parameters), by uplink DR0-4 and RX1DROffset 0-3. */
  const RX1_DATARATES: seq<seq<nat>> := [
    [10, 9, 8, 8],
    [11, 10, 9, 8],
    [12, 11, 10, 9],
    [13, 12, 11, 10],
    [13, 13, 12, 11]]

  /** The frequency of downlink channel k (923.3 + 0.6 k MHz). */
  function DownlinkFrequency(k: nat): nat
  {
    DBASE_500K + k * DSTEP_500K
  }

  /** The RX1 datarate GetRxWindow computes from the uplink datarate and Rx1DatarateOffset. */
  function Rx1Datarate(txDatarate: nat, offset: nat): int
  {
    if txDatarate <= 4 then
      var index := txDatarate + 10 - offset;
      if index < 8 then 8 else if index > 13 then 13 else index
    else if txDatarate >= 8 then
      var index := txDatarate - offset;
      if index < 8 then 8 else index
    else
      0
  }

  /**
   * GetRxWindow: the frequency and datarate of a receive window. In peer-to-peer
   * mode every window is the transmit frequency and datarate; otherwise RX1 is
   * the downlink channel paired with the uplink channel, the beacon and ping
   * slots use the session's values or a multicast session, and RX2 (with RXC
   * not claimed by an active multicast session, and the test window) uses the
   * session's RX2 settings.
   */
  function GetRxWindow(s: Settings, txChannel: nat, window: Window, id: int): (w: RxWindow)
    requires SettingsOk(s)
    ensures P2PEnabled(s) ==> w == RxWindow(s.network.txFrequency, s.session.txDatarate)
    ensures !P2PEnabled(s) && window == Rx1 ==>
      w.datarateIndex == Rx1Datarate(s.session.txDatarate, s.session.rx1DatarateOffset)
    ensures !P2PEnabled(s) && window == Rx1 && txChannel < NUM_CHANS ==>
      exists k :: 0 <= k < 8 && w.frequency == DownlinkFrequency(k)
    ensures !P2PEnabled(s) && window == Rx1 && txChannel < NUM_CHANS_125K && s.network.mode != PrivateMts ==>
      w.frequency == DownlinkFrequency(txChannel % 8)
    ensures !P2PEnabled(s) && window == Rx1 && txChannel >= NUM_CHANS_125K ==>
      w.frequency == DownlinkFrequency(txChannel - NUM_CHANS_125K)
    ensures !P2PEnabled(s) && window == RxBeacon ==> w == RxWindow(s.session.beaconFrequency, BEACON_DR)
    ensures !P2PEnabled(s) && window == RxSlot && 0 < id < 8 ==>
      w == RxWindow(s.multicast[id].frequency, s.multicast[id].datarateIndex)
    ensures !P2PEnabled(s) && window == RxSlot && !(0 < id < 8) ==>
      w == RxWindow(s.session.pingSlotFrequency, s.session.pingSlotDatarateIndex)
    ensures !P2PEnabled(s) && window == RxC && 0 < id <= MAX_MULTICAST_SESSIONS && s.multicast[id - 1].active ==>
      w == RxWindow(s.multicast[id - 1].frequency, s.multicast[id - 1].datarateIndex)
    ensures !P2PEnabled(s) && (window == Rx2 || window == RxTest
                               || (window == RxC && !(0 < id <= MAX_MULTICAST_SESSIONS && s.multicast[id - 1].active))) ==>
      w.datarateIndex == s.session.rx2DatarateIndex
      && (s.network.mode != PrivateMts ==> w.frequency == s.session.rx2Frequency)
  {
    if P2PEnabled(s) then
      RxWindow(s.network.txFrequency, s.session.txDatarate)
    else
      match window
      case Rx1 =>
        var f :=
          if txChannel < NUM_CHANS_125K then
            if s.network.mode == PrivateMts then DownlinkFrequency(txChannel / 8) else DownlinkFrequency(txChannel % 8)
          else DownlinkFrequency(txChannel - NUM_CHANS_125K);
        RxWindow(f, Rx1Datarate(s.session.txDatarate, s.session.rx1DatarateOffset))
      case RxBeacon =>
        RxWindow(s.session.beaconFrequency, BEACON_DR)
      case RxSlot =>
        if 0 < id < 8 then RxWindow(s.multicast[id].frequency, s.multicast[id].datarateIndex)
        else RxWindow(s.session.pingSlotFrequency, s.session.pingSlotDatarateIndex)
      case RxC =>
        if 0 < id <= MAX_MULTICAST_SESSIONS && s.multicast[id - 1].active then
          RxWindow(s.multicast[id - 1].frequency, s.multicast[id - 1].datarateIndex)
        else Rx2Window(s, txChannel)
      case _ =>
        Rx2Window(s, txChannel)
  }

  /** The RX2 branch of GetRxWindow, shared by RX2, RX_TEST and an unclaimed RXC. */
  function Rx2Window(s: Settings, txChannel: nat): RxWindow
  {
    var f :=
      if s.network.mode == PrivateMts then
        if txChannel < NUM_CHANS_125K then DownlinkFrequency(txChannel / 8) else DownlinkFrequency(txChannel % 8)
      else s.session.rx2Frequency;
    RxWindow(f, s.session.rx2DatarateIndex)
  }

  /** GetRxWindow's RX1 datarate is the table entry of the Regional Parameters for every uplink DR0-4 and offset 0-3. */
  lemma Rx1FollowsTable(s: Settings, txChannel: nat, id: int)
    requires SettingsOk(s) && !P2PEnabled(s)
    requires s.session.txDatarate <= 4 && s.session.rx1DatarateOffset <= MAX_DATARATE_OFFSET
    ensures GetRxWindow(s, txChannel, Rx1, id).datarateIndex
            == RX1_DATARATES[s.session.txDatarate][s.session.rx1DatarateOffset]
  {
  }

  /** On an uplink at DR8-13 the RX1 datarate is never above the uplink's and never below DR8. */
  lemma Rx1HighDatarates(s: Settings, txChannel: nat, id: int)
    requires SettingsOk(s) && !P2PEnabled(s) && s.session.txDatarate >= 8
    ensures 8 <= GetRxWindow(s, txChannel, Rx1, id).datarateIndex <= s.session.txDatarate
  {
  }

  /**
   * GetTimeOffAir: the longer of the aggregated duty-cycle wait (ms on the duty
   * timer) and the join back-off (wall-clock seconds converted to ms).
   */
  function GetTimeOffAir(s: Settings, now: nat, wallNow: nat): (t: nat)
    ensures t >= AggregatedWait(s.session, now) && t >= JoinWait(s.session, wallNow)
    ensures t == AggregatedWait(s.session, now) || t == JoinWait(s.session, wallNow)
    ensures t == 0 <==> s.session.aggregatedTimeOffEnd <= now && JoinWait(s.session, wallNow) == 0
  {
    Max(JoinWait(s.session, wallNow), AggregatedWait(s.session, now))
  }

  /** The beacon channel FrequencyHop computes: (time / period + offset) in uint32, modulo 8. */
  function HopChannel(time: nat, period: nat, offset: nat): (c: nat)
    requires period > 0
    ensures c < BEACON_CHANNELS
  {
    Wrap32(time / period + offset) % BEACON_CHANNELS
  }

  /** The frequency of a hopped beacon or ping-slot channel: one of the 8 beacon channels. */
  function HopFrequency(time: nat, period: nat, offset: nat): (f: nat)
    requires period > 0
    ensures BEACON_FREQ_BASE <= f <= BEACON_FREQ_BASE + 7 * BEACON_FREQ_STEP
    ensures (f - BEACON_FREQ_BASE) % BEACON_FREQ_STEP == 0
  {
    BEACON_FREQ_BASE + HopChannel(time, period, offset) * BEACON_FREQ_STEP
  }

  lemma Mod32Mod8(x: nat)
    ensures (x % U32) % 8 == x % 8
  {
    var q := x / 0x1_0000_0000;
    var r := x % 0x1_0000_0000;
    var q8 := 0x2000_0000 * q;
    assert x == 8 * q8 + r;
  }

  lemma DivNext(t: nat, p: nat)
    requires p > 0
    ensures (t + p) / p == t / p + 1
  {
    var q := t / p;
    var r := t % p;
    assert t + p == (q + 1) * p + r;
    var d := (t + p) / p;
    var m := (t + p) % p;
    assert (d - q - 1) * p == r - m;
    if d > q + 1 {
      MulAtLeast(d - q - 1, p);
    } else if d < q + 1 {
      MulAtLeast(q + 1 - d, p);
    }
  }

  lemma {:induction false} MulAtLeast(a: nat, p: nat)
    requires a >= 1
    ensures a * p >= p
  {
    if a > 1 {
      MulAtLeast(a - 1, p);
      assert a * p == (a - 1) * p + p;
    }
  }

  /** The uint32 wrap of the sum never changes the channel: 8 divides 2^32. */
  lemma HopChannelIgnoresWrap(time: nat, period: nat, offset: nat)
    requires period > 0
    ensures HopChannel(time, period, offset) == (time / period + offset) % BEACON_CHANNELS
  {
    Mod32Mod8(time / period + offset);
  }

  /** One period later every hopping schedule moves to the next of the 8 beacon channels. */
  lemma HopAdvances(time: nat, period: nat, offset: nat)
    requires period > 0
    ensures HopChannel(time + period, period, offset) == (HopChannel(time, period, offset) + 1) % BEACON_CHANNELS
  {
    var a := time / period + offset;
    var b := (time + period) / period + offset;
    HopChannelIgnoresWrap(time, period, offset);
    HopChannelIgnoresWrap(time + period, period, offset);
    DivNext(time, period);
    assert b == a + 1;
    SuccMod8(a);
  }

  lemma SuccMod8(a: nat)
    ensures (a + 1) % 8 == (a % 8 + 1) % 8
  {
    var q := a / 8;
    var r := a % 8;
    assert a + 1 == 8 * q + (r + 1);
    if r == 7 {
      assert a + 1 == 8 * (q + 1);
    }
  }

  /** The word ChMaskCntl 5 writes for bits 2k and 2k + 1 of ChMask: 0x00FF and 0xFF00 halves. */
  function Ctrl5Word(m: Word, k: nat): Word
    requires k < 4
  {
    (if BitSet(m, 2 * k) then 0x00FF else 0) | (if BitSet(m, 2 * k + 1) then 0xFF00 else 0)
  }

  /** The mask HandleAdrCommand leaves for ChMaskCntl ctrl and ChMask m. */
  function AdrMask(mask: seq<Word>, ctrl: nat, m: Word): (r: seq<Word>)
    requires |mask| == 5
    ensures |r| == 5
  {
    if ctrl < 5 then SetWord(mask, ctrl, m)
    else if ctrl == 5 then
      if m != 0 then [Ctrl5Word(m, 0), Ctrl5Word(m, 1), Ctrl5Word(m, 2), Ctrl5Word(m, 3), m] else mask
    else if ctrl == 6 then [0xFFFF, 0xFFFF, 0xFFFF, 0xFFFF, m]
    else [0, 0, 0, 0, m]
  }

  /**
   * The meaning of ChMaskCntl (section 2.2.5 of the Regional Parameters and the
   * sub-band form of control 5): 0-4 replace the word of channels 16 ctrl ..
   * 16 ctrl + 15; 5 turns on 125 kHz block k of 8 channels exactly when ChMask
   * bit k is set; 6 turns all 125 kHz channels on and 7 all off; for 5-7 ChMask
   * bits 0-7 select the 500 kHz channels.
   */
  lemma AdrMaskChannels(mask: seq<Word>, ctrl: nat, m: Word, ch: nat)
    requires |mask| == 5 && ctrl < 8 && ch < NUM_CHANS
    requires !(ctrl == 5 && m == 0)
    ensures ctrl < 5 ==>
      (IsChannelEnabled(AdrMask(mask, ctrl, m), ch) <==> if ch / 16 == ctrl then BitSet(m, ch % 16) else IsChannelEnabled(mask, ch))
    ensures ctrl >= 5 && ch >= NUM_CHANS_125K ==> (IsChannelEnabled(AdrMask(mask, ctrl, m), ch) <==> BitSet(m, ch - NUM_CHANS_125K))
    ensures ctrl == 5 && ch < NUM_CHANS_125K ==> (IsChannelEnabled(AdrMask(mask, ctrl, m), ch) <==> BitSet(m, ch / 8))
    ensures ctrl == 6 && ch < NUM_CHANS_125K ==> IsChannelEnabled(AdrMask(mask, ctrl, m), ch)
    ensures ctrl == 7 && ch < NUM_CHANS_125K ==> !IsChannelEnabled(AdrMask(mask, ctrl, m), ch)
  {
    if ctrl < 5 {
      AdrMaskWord(mask, ctrl, m, ch);
    } else if ch >= NUM_CHANS_125K {
      AdrMask500k(mask, ctrl, m, ch);
    } else if ctrl == 5 {
      EnabledIsBit(AdrMask(mask, ctrl, m), ch);
      Ctrl5Channels(m, ch);
    } else {
      AdrMaskAllOrNone(mask, ctrl, m, ch);
    }
  }

  lemma AdrMaskWord(mask: seq<Word>, ctrl: nat, m: Word, ch: nat)
    requires |mask| == 5 && ctrl < 5 && ch < NUM_CHANS
    ensures IsChannelEnabled(AdrMask(mask, ctrl, m), ch) <==>
      if ch / 16 == ctrl then BitSet(m, ch % 16) else IsChannelEnabled(mask, ch)
  {
    EnabledIsBit(AdrMask(mask, ctrl, m), ch);
    EnabledIsBit(mask, ch);
  }

  lemma AdrMask500k(mask: seq<Word>, ctrl: nat, m: Word, ch: nat)
    requires |mask| == 5 && 5 <= ctrl < 8 && NUM_CHANS_125K <= ch < NUM_CHANS && !(ctrl == 5 && m == 0)
    ensures IsChannelEnabled(AdrMask(mask, ctrl, m), ch) <==> BitSet(m, ch - NUM_CHANS_125K)
  {
    EnabledIsBit(AdrMask(mask, ctrl, m), ch);
    assert AdrMask(mask, ctrl, m)[4] == m;
  }

  lemma AdrMaskAllOrNone(mask: seq<Word>, ctrl: nat, m: Word, ch: nat)
    requires |mask| == 5 && (ctrl == 6 || ctrl == 7) && ch < NUM_CHANS_125K
    ensures IsChannelEnabled(AdrMask(mask, ctrl, m), ch) <==> ctrl == 6
  {
    EnabledIsBit(AdrMask(mask, ctrl, m), ch);
    PatternBits(ch % 16);
    assert AdrMask(mask, ctrl, m)[ch / 16] == if ctrl == 6 then 0xFFFF else 0;
  }

  /** Under ChMaskCntl 5, 125 kHz channel ch follows ChMask bit ch / 8. */
  lemma Ctrl5Channels(m: Word, ch: nat)
    requires ch < NUM_CHANS_125K
    ensures BitSet(Ctrl5Word(m, ch / 16), ch % 16) <==> BitSet(m, ch / 8)
  {
    var k := ch / 16;
    HalvesBits(BitSet(m, 2 * k), BitSet(m, 2 * k + 1), ch % 16);
    assert ch / 8 == if ch % 16 < 8 then 2 * k else 2 * k + 1;
  }

  /**
   * The conducted power SetTxConfig hands to getTxPowerIndex: the session power,
   * capped at 21 dBm when the 125 kHz limit applies, and at the band's power
   * minus the antenna gain above 6 dBi; every store is to an int8_t.
   */
  function ConductedPower(txPower: int, powerMax: int, gain: int, limit21: bool): int
  {
    var pwr0 := ToInt8(txPower);
    var pwr1 := if limit21 && pwr0 > 21 then 21 else pwr0;
    var max0 := ToInt8(powerMax);
    var max1 := if pwr1 + gain >= max0 + 6 && gain > 6 then ToInt8(max0 - (gain - 6)) else max0;
    if pwr1 < max1 then pwr1 else max1
  }

  /**
   * Within int8_t range the conducted power never exceeds the session power or
   * the band's cap, is at most 21 dBm under the 125 kHz limit, and with an
   * antenna gain above 6 dBi keeps the radiated power within the cap plus 6 dBi.
   */
  lemma ConductedPowerLimits(txPower: int, powerMax: int, gain: int, limit21: bool)
    requires 0 <= txPower < 128 && -128 <= powerMax < 128
    requires gain > 6 ==> -128 <= powerMax - (gain - 6)
    ensures ConductedPower(txPower, powerMax, gain, limit21) <= txPower
    ensures ConductedPower(txPower, powerMax, gain, limit21) <= powerMax
    ensures limit21 ==> ConductedPower(txPower, powerMax, gain, limit21) <= 21
    ensures gain > 6 ==> ConductedPower(txPower, powerMax, gain, limit21) + gain <= powerMax + 6
    ensures gain <= 6 && !limit21 ==>
      ConductedPower(txPower, powerMax, gain, limit21) == if txPower < powerMax then txPower else powerMax
  {
  }

  /** Whether channel ch may carry the next uplink at datarate dr under the mask and the released bands. */
  predicate Eligible(mask: seq<Word>, bands: seq<DutyBand>, dr: nat, ch: nat)
    requires |mask| == 5 && ch < NUM_CHANS
  {
    IsChannelEnabled(mask, ch) && DatarateInRange(dr, GetChannel(ch))
    && var b := GetDutyBand(bands, GetChannel(ch).frequency);
    b != -1 && bands[b].timeOffEnd == 0
  }

  function EligibleFlags(mask: seq<Word>, bands: seq<DutyBand>, dr: nat): (r: seq<bool>)
    requires |mask| == 5
    ensures |r| == NUM_CHANS
    ensures forall ch :: 0 <= ch < NUM_CHANS ==> r[ch] == Eligible(mask, bands, dr, ch)
  {
    seq(NUM_CHANS, ch requires 0 <= ch < NUM_CHANS => Eligible(mask, bands, dr, ch))
  }

  /** The first channel of the search: the 500 kHz block for a 500 kHz datarate. */
  function SearchStart(dr: nat): nat
    requires dr < 16
  {
    if DATARATES[dr].bandwidth == Bw500 then NUM_CHANS_125K else 0
  }

  function SearchCount(dr: nat): nat
    requires dr < 16
  {
    if DATARATES[dr].bandwidth == Bw500 then NUM_CHANS_500K else NUM_CHANS_125K
  }

  /** The enabledChannels list GetNextChannel builds. */
  function Candidates(mask: seq<Word>, bands: seq<DutyBand>, dr: nat): seq<nat>
    requires |mask| == 5 && dr < 16
  {
    Selected(EligibleFlags(mask, bands, dr), SearchStart(dr), SearchStart(dr) + SearchCount(dr))
  }

  /** A channel is a candidate exactly when it is in the datarate's block and eligible. */
  lemma CandidatesMembers(mask: seq<Word>, bands: seq<DutyBand>, dr: nat, ch: nat)
    requires |mask| == 5 && dr < 16
    ensures ch in Candidates(mask, bands, dr) <==>
      (if dr < 4 then ch < NUM_CHANS_125K else NUM_CHANS_125K <= ch < NUM_CHANS) && Eligible(mask, bands, dr, ch)
  {
    DatarateBandwidths(dr);
    SelectedMembers(EligibleFlags(mask, bands, dr), SearchStart(dr), SearchStart(dr) + SearchCount(dr), ch);
  }

  /**
   * Under the plan's single band with no time-off pending, the candidates are
   * the enabled 125 kHz channels for DR0-3, the enabled 500 kHz channels for
   * DR4, and none for any other datarate.
   */
  lemma CandidatesAreEnabledChannels(mask: seq<Word>, bands: seq<DutyBand>, dr: nat, ch: nat)
    requires |mask| == 5 && dr < 16
    requires |bands| == 1 && bands[0].frequencyMin == FREQ_MIN && bands[0].frequencyMax == FREQ_MAX
    requires bands[0].timeOffEnd == 0
    ensures ch in Candidates(mask, bands, dr) <==>
      ((dr < 4 && ch < NUM_CHANS_125K) || (dr == 4 && NUM_CHANS_125K <= ch < NUM_CHANS)) && IsChannelEnabled(mask, ch)
  {
    CandidatesMembers(mask, bands, dr, ch);
    if ch < NUM_CHANS {
      GridInDefaultBand(ch, bands);
    }
  }

  /** The PowerMax GetNextChannel gives band 0: 26 dBm at 500 kHz, else 21 dBm below 50 channels and 30 dBm from 50. */
  function PowerCap(dr: nat, candidates: nat): int
    requires dr < 16
  {
    if DATARATES[dr].bandwidth == Bw500 then 26 else if candidates < 50 then 21 else 30
  }

  /** Whether the duty band of frequency f still has time off pending. */
  predicate BandBlocked(bands: seq<DutyBand>, f: nat)
  {
    var b := GetDutyBand(bands, f);
    b != -1 && bands[b].timeOffEnd != 0
  }

  /** The datarate the channel search uses: DR4 drops to DR3 when no 500 kHz channel word is set. */
  function SearchDatarate(s: Settings, mask: seq<Word>): nat
    requires |mask| == 5
  {
    if s.session.txDatarate == MaxDatarate(s) && mask[4] == 0 then MaxDatarate(s) - 1 else s.session.txDatarate
  }

  /** The sub-band a join attempt uses: nonces 1-8 modulo 9 pick sub-bands 1-8, a multiple of 9 the next DR4 sub-band. */
  function JoinSubBand(devNonce: nat): (sb: nat)
    ensures 1 <= sb <= 8
  {
    if devNonce % 9 == 0 then (devNonce / 9) % 8 + 1 else devNonce % 9
  }

  /**
   * In every run of nine nonces starting at a multiple of 9 the last eight visit
   * sub-bands 1-8 in order, and successive multiples of 9 rotate through the
   * sub-bands for DR4.
   */
  lemma JoinSubBandSweep(k: nat, r: nat)
    requires 1 <= r <= 8
    ensures JoinSubBand(9 * k + r) == r
    ensures JoinSubBand(9 * (k + 1)) == JoinSubBand(9 * k) % 8 + 1
  {
    assert JoinSubBand(9 * k + r) == r by {
      assert (9 * k + r) % 9 == r;
    }
    assert JoinSubBand(9 * k) == k % 8 + 1 by {
      assert (9 * k) % 9 == 0 && (9 * k) / 9 == k;
    }
    assert JoinSubBand(9 * (k + 1)) == (k + 1) % 8 + 1 by {
      assert (9 * (k + 1)) % 9 == 0 && (9 * (k + 1)) / 9 == k + 1;
    }
  }

  /** The datarate GetJoinDatarate returns (DR0 or DR4 unless random join datarates are disabled). */
  function JoinDatarate(s: Settings, mask: seq<Word>): nat
    requires |mask| == 5
  {
    if s.test.disableRandomJoinDatarate then s.session.txDatarate
    else if s.network.frequencySubBand == 0 then (if s.network.devNonce % 9 == 0 then 4 else 0)
    else if s.network.devNonce % 2 == 0 && mask[4] != 0 then 4 else 0
  }

  /**
   * A join at DR4 always has a 500 kHz channel word set in the mask it is sent
   * under, and with no configured sub-band DR0 has eight 125 kHz channels.
   */
  lemma JoinDatarateHasChannels(s: Settings, mask: seq<Word>)
    requires |mask| == 5 && !s.test.disableRandomJoinDatarate
    ensures var m := if s.network.frequencySubBand == 0 then SubBandMask(JoinSubBand(s.network.devNonce)) else mask;
      (JoinDatarate(s, mask) == 4 ==> PopCount(m[4]) > 0)
      && (s.network.frequencySubBand == 0 && JoinDatarate(s, mask) == 0 ==> Enabled125k(m) == 8)
  {
    var sb := JoinSubBand(s.network.devNonce);
    SubBandCounts(sb);
    PopCountBit(sb - 1);
    PopCountZero(mask[4]);
  }

  /** The words HandleJoinAccept copies from a CFList of a join accept of size bytes. */
  function CfListWords(size: nat): nat
  {
    if size > 17 then (size - 17) / 2 else 0
  }

  /** The mask after the first n CFList words (bytes 13 + 2k, low byte first) are written. */
  function CfListMask(mask: seq<Word>, buffer: seq<Byte>, n: nat): (r: seq<Word>)
    requires 13 + 2 * n <= |buffer|
    ensures |r| == |mask|
  {
    if n == 0 then mask else SetWord(CfListMask(mask, buffer, n - 1), n - 1, MaskWordAt(buffer, 13 + 2 * (n - 1)))
  }

  /** Word k of the result is CFList word k when k < n, and the old word otherwise. */
  lemma {:induction false} CfListMaskWords(mask: seq<Word>, buffer: seq<Byte>, n: nat, k: nat)
    requires 13 + 2 * n <= |buffer| && k < |mask|
    ensures CfListMask(mask, buffer, n)[k] == if k < n then MaskWordAt(buffer, 13 + 2 * k) else mask[k]
  {
    if n > 0 {
      CfListMaskWords(mask, buffer, n - 1, k);
    }
  }

  /**
   * A 33-byte join accept carries the CFList of type 1 (section 2.2.4 of the
   * Regional Parameters 1.0.3): its first ten bytes become mask words 0-4; the
   * rest is ignored.
   */
  lemma JoinAcceptCfList(mask: seq<Word>, buffer: seq<Byte>)
    requires |mask| == 5 && |buffer| >= 33
    ensures forall k :: 0 <= k < 5 ==> CfListMask(mask, buffer, CfListWords(33))[k] == MaskWordAt(buffer, 13 + 2 * k)
  {
    forall k | 0 <= k < 5 ensures CfListMask(mask, buffer, 8)[k] == MaskWordAt(buffer, 13 + 2 * k) {
      CfListMaskWords(mask, buffer, 8, k);
    }
  }

  /** The mask after the control-5 loop has written words 0 .. n - 1. */
  function Ctrl5Prefix(mask: seq<Word>, m: Word, n: nat): (r: seq<Word>)
    requires |mask| == 5 && n <= 4
    ensures |r| == 5
  {
    seq(5, k requires 0 <= k < 5 => if k < n then Ctrl5Word(m, k) else mask[k])
  }

  lemma Ctrl5PrefixStep(mask: seq<Word>, m: Word, n: nat)
    requires |mask| == 5 && n < 4
    ensures SetWord(Ctrl5Prefix(mask, m, n), n, Ctrl5Word(m, n)) == Ctrl5Prefix(mask, m, n + 1)
  {
  }

  lemma Ctrl5PrefixFull(mask: seq<Word>, m: Word)
    requires |mask| == 5 && m != 0
    ensures SetWord(Ctrl5Prefix(mask, m, 4), 4, m) == AdrMask(mask, 5, m)
  {
  }

  /** The value t_125k holds when the control-5 loop reaches bit i. */
  function PartialWord(m: Word, i: nat): Word
    requires i < 8
  {
    if i % 2 == 0 then 0 else if BitSet(m, i - 1) then 0x00FF else 0
  }

  /** One iteration of the control-5 loop on bit i. */
  lemma Ctrl5Bit(m: Word, i: nat)
    requires i < 8
    ensures var t := PartialWord(m, i);
      var t' := if (m >> i) & 1 == 1 then t | ((0xFF as Word) << ((i % 2) * 8)) else t;
      (i % 2 == 1 ==> t' == Ctrl5Word(m, i / 2)) && (i % 2 == 0 ==> t' == PartialWord(m, i + 1))
  {
  }

  /** The control-5 loop body on bit i: set the low or high half of t_125k when ChMask bit i is set. */
  method Ctrl5Half(t: Word, m: Word, i: nat) returns (t': Word)
    requires i < 8 && t == PartialWord(m, i)
    ensures i % 2 == 1 ==> t' == Ctrl5Word(m, i / 2)
    ensures i % 2 == 0 ==> t' == PartialWord(m, i + 1)
  {
    Ctrl5Bit(m, i);
    t' := t;
    if (m >> i) & 1 == 1 {
      t' := t | ((0xFF as Word) << ((i % 2) * 8));
    }
  }

  /** The settings Init leaves: RX2, beacon and ping-slot defaults, DR0 and the configured power. */
  function InitSettings(s: Settings): (r: Settings)
    ensures r.network == s.network && r.multicast == s.multicast && r.test == s.test
  {
    s.(session := s.session.(
      rx2Frequency := DBASE_500K,
      beaconFrequency := BEACON_FREQ_BASE,
      beaconFreqHop := true,
      pingSlotFrequency := BEACON_FREQ_BASE,
      pingSlotDatarateIndex := BEACON_DR,
      pingSlotFreqHop := true,
      rx2DatarateIndex := MIN_RX2_DATARATE,
      txDatarate := 0,
      txPower := s.network.txPower))
  }

  /** ChannelPlan_US915: the channel mask, the duty band and the channel in use. */
  class ChannelPlan {
    var settings: Settings
    var channelMask: seq<Word>
    var dutyBands: seq<DutyBand>
    var txChannel: nat
    var txFrequencySubBand: nat
    var numChans: nat

    /** What Init establishes and every operation keeps. */
    ghost predicate Valid()
      reads this
    {
      SettingsOk(settings) && |channelMask| == 5 && numChans == NUM_CHANS
      && |dutyBands| == 1 && dutyBands[0].frequencyMin == FREQ_MIN && dutyBands[0].frequencyMax == FREQ_MAX
    }

    constructor(s: Settings)
      requires SettingsOk(s)
      ensures settings == s && channelMask == [] && dutyBands == []
      ensures txChannel == 0 && txFrequencySubBand == 0 && numChans == 0
    {
      settings := s;
      channelMask := [];
      dutyBands := [];
      txChannel := 0;
      txFrequencySubBand := 0;
      numChans := 0;
    }

    /** SetNumberOfChannels: size the mask for the given number of channels. */
    method SetNumberOfChannels(channels: nat)
      requires channels < 256
      modifies this
      ensures channelMask == Resized(old(channelMask), MaskWords(channels)) && numChans == channels
      ensures settings == old(settings) && dutyBands == old(dutyBands)
      ensures txChannel == old(txChannel) && txFrequencySubBand == old(txFrequencySubBand)
    {
      var newSize := MaskWords(channels);
      channelMask := Resized(channelMask, newSize);
      numChans := channels;
    }

    /** SetFrequencySubBand: install the mask of a sub-band (or of all channels). */
    method SetFrequencySubBand(subBand: nat)
      requires Valid()
      modifies this
      ensures Valid()
      ensures channelMask == SubBandMask(subBand) && txFrequencySubBand == subBand
      ensures settings == old(settings) && dutyBands == old(dutyBands) && txChannel == old(txChannel)
    {
      txFrequencySubBand := subBand;
      if 0 < subBand < 9 {
        channelMask := SetWord(channelMask, 0, 0);
        channelMask := SetWord(channelMask, 1, 0);
        channelMask := SetWord(channelMask, 2, 0);
        channelMask := SetWord(channelMask, 3, 0);
        channelMask := SetWord(channelMask, 4, 0);
        channelMask := SetWord(channelMask, (subBand - 1) / 2, if subBand % 2 == 1 then 0x00FF else 0xFF00);
        channelMask := SetWord(channelMask, 4, Bit(subBand - 1));
      } else {
        channelMask := SetWord(channelMask, 0, 0xFFFF);
        channelMask := SetWord(channelMask, 1, 0xFFFF);
        channelMask := SetWord(channelMask, 2, 0xFFFF);
        channelMask := SetWord(channelMask, 3, 0xFFFF);
        channelMask := SetWord(channelMask, 4, 0x00FF);
      }
    }

    /** EnableDefaultChannels: back to the configured sub-band. */
    method EnableDefaultChannels()
      requires Valid()
      modifies this
      ensures Valid()
      ensures channelMask == SubBandMask(old(settings).network.frequencySubBand)
      ensures txFrequencySubBand == old(settings).network.frequencySubBand
      ensures settings == old(settings) && dutyBands == old(dutyBands) && txChannel == old(txChannel)
    {
      SetFrequencySubBand(settings.network.frequencySubBand);
    }

    /** Init: the 72-channel mask of the configured sub-band, one duty band, the session defaults. */
    method Init()
      requires SettingsOk(settings)
      modifies this
      ensures Valid()
      ensures dutyBands == [DEFAULT_BAND]
      ensures channelMask == SubBandMask(old(settings).network.frequencySubBand)
      ensures txFrequencySubBand == old(settings).network.frequencySubBand
      ensures settings == InitSettings(old(settings)) && txChannel == old(txChannel)
    {
      dutyBands := [];
      settings := settings.(session := settings.session.(
        rx2Frequency := DBASE_500K,
        beaconFrequency := BEACON_FREQ_BASE,
        beaconFreqHop := true,
        pingSlotFrequency := BEACON_FREQ_BASE,
        pingSlotDatarateIndex := BEACON_DR,
        pingSlotFreqHop := true));
      SetNumberOfChannels(NUM_CHANS_125K + NUM_CHANS_500K);
      dutyBands := dutyBands + [DEFAULT_BAND];
      settings := settings.(session := settings.session.(rx2DatarateIndex := MIN_RX2_DATARATE));
      settings := settings.(session := settings.session.(txDatarate := 0, txPower := settings.network.txPower));
      SetFrequencySubBand(settings.network.frequencySubBand);
    }

    /**
     * HandleJoinAccept: a CFList of type 1 (byte 28 equal to 1) replaces the mask
     * words it carries, and the top datarate drops by one when no 500 kHz channel
     * word is left; without one the configured sub-band is restored.
     */
    method HandleJoinAccept(buffer: seq<Byte>, size: nat) returns (r: Status)
      requires Valid()
      requires size <= |buffer| && (size > 17 ==> |buffer| > 28)
      modifies this
      ensures Valid() && r == Ok
      ensures dutyBands == old(dutyBands) && txChannel == old(txChannel)
      ensures size > 17 && buffer[28] == 0x01 ==>
        channelMask == CfListMask(old(channelMask), buffer, CfListWords(size))
        && txFrequencySubBand == old(txFrequencySubBand)
        && settings == if old(settings).session.txDatarate == MaxDatarate(old(settings)) && channelMask[4] == 0
                       then old(settings).(session := old(settings).session.(txDatarate := MaxDatarate(old(settings)) - 1))
                       else old(settings)
      ensures !(size > 17 && buffer[28] == 0x01) ==>
        channelMask == SubBandMask(old(settings).network.frequencySubBand)
        && txFrequencySubBand == old(settings).network.frequencySubBand
        && settings == old(settings)
    {
      if size > 17 && buffer[28] == 0x01 {
        var i: int := 13;
        while i < size as int - 5
          invariant 13 <= i && (i - 13) % 2 == 0 && (i - 13) / 2 <= CfListWords(size)
          invariant channelMask == CfListMask(old(channelMask), buffer, (i - 13) / 2)
          invariant settings == old(settings) && dutyBands == old(dutyBands) && numChans == old(numChans)
          invariant txChannel == old(txChannel) && txFrequencySubBand == old(txFrequencySubBand)
          decreases size - i
        {
          channelMask := SetWord(channelMask, (i - 13) / 2, MaskWordAt(buffer, i));
          i := i + 2;
        }
        if settings.session.txDatarate == MaxDatarate(settings) && channelMask[4] == 0 {
          settings := settings.(session := settings.session.(txDatarate := MaxDatarate(settings) - 1));
        }
      } else {
        EnableDefaultChannels();
      }
      r := Ok;
    }

    /** HandleRxParamSetup (RXParamSetupReq): acknowledge each field, apply all three only when all are valid. */
    method HandleRxParamSetup(payload: seq<Byte>, index: nat, checkRf: nat -> bool) returns (r: Status, status: Byte)
      requires Valid() && index + 4 <= |payload|
      modifies this
      ensures Valid() && r == Ok
      ensures channelMask == old(channelMask) && dutyBands == old(dutyBands)
      ensures txChannel == old(txChannel) && txFrequencySubBand == old(txFrequencySubBand)
      ensures var dr := LowNibble(payload[index]);
        var offset := MidBits(payload[index]);
        var f := FrequencyAt(payload, index + 1);
        (status & 1 == 1 <==> checkRf(f))
        && (status & 2 == 2 <==> MIN_RX2_DATARATE <= dr <= MAX_RX2_DATARATE)
        && (status & 4 == 4 <==> offset <= MAX_DATARATE_OFFSET)
        && status & 0xF8 == 0
        && settings == if status == 0x07
                       then old(settings).(session := old(settings).session.(rx2DatarateIndex := dr, rx2Frequency := f, rx1DatarateOffset := offset))
                       else old(settings)
    {
      status := 0x07;
      var datarate := LowNibble(payload[index]);
      var drOffset := MidBits(payload[index]);
      var freq := FrequencyAt(payload, index + 1);
      if !checkRf(freq) {
        status := status & 0xFE;
      }
      if datarate < MIN_RX2_DATARATE || datarate > MAX_RX2_DATARATE {
        status := status & 0xFD;
      }
      if drOffset > MAX_DATARATE_OFFSET {
        status := status & 0xFB;
      }
      if status & 0x07 == 0x07 {
        settings := settings.(session := settings.session.(rx2DatarateIndex := datarate));
        settings := settings.(session := settings.session.(rx2Frequency := freq));
        settings := settings.(session := settings.session.(rx1DatarateOffset := drOffset));
      }
      r := Ok;
    }

    /** HandleNewChannel (NewChannelReq): not supported with a fixed channel grid. */
    method HandleNewChannel(payload: seq<Byte>, index: nat) returns (r: Status, status: Byte)
      ensures r == Unsupported && status == 0
    {
      status := 0;
      r := Unsupported;
    }

    /** HandleDownlinkChannelReq (DlChannelReq): not supported with a fixed channel grid. */
    method HandleDownlinkChannelReq(payload: seq<Byte>, index: nat) returns (r: Status, status: Byte)
      ensures r == Unsupported && status == 0
    {
      status := 0;
      r := Unsupported;
    }

    /**
     * HandlePingSlotChannelReq: frequency 0 restores the hopping default; the new
     * frequency and datarate are applied only when both are acknowledged.
     */
    method HandlePingSlotChannelReq(payload: seq<Byte>, index: nat, checkRf: nat -> bool) returns (r: Status, status: Byte)
      requires Valid() && index + 4 <= |payload|
      modifies this
      ensures Valid() && r == Ok
      ensures channelMask == old(channelMask) && dutyBands == old(dutyBands)
      ensures txChannel == old(txChannel) && txFrequencySubBand == old(txFrequencySubBand)
      ensures var f := FrequencyAt(payload, index);
        var dr := LowNibble(payload[index + 3]);
        (status & 1 == 1 <==> f == 0 || checkRf(f))
        && (status & 2 == 2 <==> MIN_RX2_DATARATE <= dr <= MAX_RX2_DATARATE)
        && status & 0xFC == 0
        && settings == if status == 0x03
                       then old(settings).(session := old(settings).session.(
                              pingSlotFrequency := if f == 0 then BEACON_FREQ_BASE else f,
                              pingSlotDatarateIndex := dr,
                              pingSlotFreqHop := f == 0))
                       else old(settings)
    {
      status := 0x03;
      var freq := FrequencyAt(payload, index);
      var datarate := LowNibble(payload[index + 3]);
      var freqHop := false;
      if freq == 0 {
        freq := BEACON_FREQ_BASE;
        freqHop := true;
      } else if !checkRf(freq) {
        status := status & 0xFE;
      }
      if datarate < MIN_RX2_DATARATE || datarate > MAX_RX2_DATARATE {
        status := status & 0xFD;
      }
      if status & 0x03 == 0x03 {
        settings := settings.(session := settings.session.(
          pingSlotFrequency := freq, pingSlotDatarateIndex := datarate, pingSlotFreqHop := freqHop));
      }
      r := Ok;
    }

    /** HandleBeaconFrequencyReq: frequency 0 restores the hopping default. */
    method HandleBeaconFrequencyReq(payload: seq<Byte>, index: nat, checkRf: nat -> bool) returns (r: Status, status: Byte)
      requires Valid() && index + 3 <= |payload|
      modifies this
      ensures Valid() && r == Ok
      ensures channelMask == old(channelMask) && dutyBands == old(dutyBands)
      ensures txChannel == old(txChannel) && txFrequencySubBand == old(txFrequencySubBand)
      ensures var f := FrequencyAt(payload, index);
        (status == 1 <==> f == 0 || checkRf(f)) && (status == 0 || status == 1)
        && settings == if status == 1
                       then old(settings).(session := old(settings).session.(
                              beaconFrequency := if f == 0 then BEACON_FREQ_BASE else f,
                              beaconFreqHop := f == 0))
                       else old(settings)
    {
      status := 0x01;
      var freq := FrequencyAt(payload, index);
      var freqHop := false;
      if freq == 0 {
        freq := BEACON_FREQ_BASE;
        freqHop := true;
      } else if !checkRf(freq) {
        status := status & 0xFE;
      }
      if status & 0x01 != 0 {
        settings := settings.(session := settings.session.(beaconFrequency := freq, beaconFreqHop := freqHop));
      }
      r := Ok;
    }

    /** The ChMaskCntl 5 branch of HandleAdrCommand: each ChMask bit k sets one half of word k / 2. */
    method SetCtrl5Mask(mask: Word)
      requires |channelMask| == 5 && mask != 0
      modifies this
      ensures channelMask == AdrMask(old(channelMask), 5, mask)
      ensures settings == old(settings) && dutyBands == old(dutyBands) && numChans == old(numChans)
      ensures txChannel == old(txChannel) && txFrequencySubBand == old(txFrequencySubBand)
    {
      ghost var m0 := channelMask;
      var t125k: Word := 0;
      var i := 0;
      while i < 8
        invariant 0 <= i <= 8
        invariant channelMask == Ctrl5Prefix(m0, mask, i / 2)
        invariant i < 8 ==> t125k == PartialWord(mask, i)
        invariant settings == old(settings) && dutyBands == old(dutyBands) && numChans == old(numChans)
        invariant txChannel == old(txChannel) && txFrequencySubBand == old(txFrequencySubBand)
      {
        t125k := Ctrl5Half(t125k, mask, i);
        if i % 2 == 1 {
          Ctrl5PrefixStep(m0, mask, i / 2);
          channelMask := SetWord(channelMask, i / 2, t125k);
          t125k := 0;
        }
        i := i + 1;
      }
      Ctrl5PrefixFull(m0, mask);
      channelMask := SetWord(channelMask, 4, mask);
    }

    /** The ChMaskCntl switch of HandleAdrCommand, for every control but the refused all-zero control 5. */
    method ApplyChannelMask(ctrl: nat, mask: Word)
      requires |channelMask| == 5 && ctrl < 8 && !(ctrl == 5 && mask == 0)
      modifies this
      ensures channelMask == AdrMask(old(channelMask), ctrl, mask)
      ensures settings == old(settings) && dutyBands == old(dutyBands) && numChans == old(numChans)
      ensures txChannel == old(txChannel) && txFrequencySubBand == old(txFrequencySubBand)
    {
      if ctrl < 5 {
        channelMask := SetWord(channelMask, ctrl, mask);
      } else if ctrl == 5 {
        SetCtrl5Mask(mask);
      } else if ctrl == 6 {
        channelMask := SetWord(channelMask, 0, 0xFFFF);
        channelMask := SetWord(channelMask, 1, 0xFFFF);
        channelMask := SetWord(channelMask, 2, 0xFFFF);
        channelMask := SetWord(channelMask, 3, 0xFFFF);
        channelMask := SetWord(channelMask, 4, mask);
      } else {
        channelMask := SetWord(channelMask, 0, 0);
        channelMask := SetWord(channelMask, 1, 0);
        channelMask := SetWord(channelMask, 2, 0);
        channelMask := SetWord(channelMask, 3, 0);
        channelMask := SetWord(channelMask, 4, mask);
      }
    }

    /**
     * HandleAdrCommand (LinkADRReq): bit 1 rejects a datarate above DR4, bit 2 a
     * power index above 14 (15 keeps the current value), bit 0 an all-zero
     * control-5 mask, which is refused with LORA_ERROR and changes nothing; the
     * mask is always applied otherwise, and with ADR enabled a fully acknowledged
     * request sets datarate, power and redundancy (NbRep 0 meaning 1).
     */
    method HandleAdrCommand(payload: seq<Byte>, index: nat) returns (r: Status, status: Byte)
      requires Valid() && index + 4 <= |payload|
      modifies this
      ensures Valid()
      ensures dutyBands == old(dutyBands) && txChannel == old(txChannel) && txFrequencySubBand == old(txFrequencySubBand)
      ensures var q := DecodeLinkAdrReq(payload, index);
        (status & 2 == 0 <==> q.datarate != 0xF && q.datarate > MAX_DATARATE)
        && (status & 4 == 0 <==> q.power != 0xF && q.power > 14)
        && (status & 1 == 0 <==> q.ctrl == 5 && q.mask == 0)
        && status & 0xF8 == 0
        && (r == Error <==> q.ctrl == 5 && q.mask == 0) && (r == Ok || r == Error)
        && channelMask == AdrMask(old(channelMask), q.ctrl, q.mask)
        && settings == if r == Ok && old(settings).network.adrEnabled && status == 0x07
                       then old(settings).(session := old(settings).session.(
                              txDatarate := if q.datarate != 0xF then q.datarate else old(settings).session.txDatarate,
                              txPower := if q.power != 0xF then TX_POWERS[q.power] else old(settings).session.txPower,
                              redundancy := if q.nbRep == 0 then 1 else q.nbRep))
                       else old(settings)
    {
      var q := DecodeLinkAdrReq(payload, index);
      var datarate := q.datarate;
      var power := q.power;
      var mask := q.mask;
      var ctrl := q.ctrl;
      var nbRep := q.nbRep;
      if nbRep == 0 {
        nbRep := 1;
      }
      status := 0x07;
      if datarate != 0xF && datarate > MAX_DATARATE {
        status := status & 0xFD;
      }
      if power != 0xF && power > 14 {
        status := status & 0xFB;
      }
      if ctrl == 5 && mask == 0 {
        status := status & 0xFE;
        return Error, status;
      }
      ApplyChannelMask(ctrl, mask);
      if settings.network.adrEnabled {
        if status == 0x07 {
          CommitAdr(datarate, power, nbRep);
        }
      }
      r := Ok;
    }

    /** The accepted LinkADRReq's datarate (0xF: unchanged), power index (0xF: unchanged) and NbRep take effect. */
    method CommitAdr(datarate: nat, power: nat, nbRep: nat)
      requires Valid() && (datarate == 0xF || datarate <= MAX_DATARATE) && (power == 0xF || power <= 14)
      modifies this
      ensures Valid()
      ensures channelMask == old(channelMask) && dutyBands == old(dutyBands) && numChans == old(numChans)
      ensures txChannel == old(txChannel) && txFrequencySubBand == old(txFrequencySubBand)
      ensures settings == old(settings).(session := old(settings).session.(
        txDatarate := if datarate != 0xF then datarate else old(settings).session.txDatarate,
        txPower := if power != 0xF then TX_POWERS[power] else old(settings).session.txPower,
        redundancy := nbRep))
    {
      if datarate != 0xF {
        settings := settings.(session := settings.session.(txDatarate := datarate));
      }
      if power != 0xF {
        settings := settings.(session := settings.session.(txPower := TX_POWERS[power]));
      }
      settings := settings.(session := settings.session.(redundancy := nbRep));
    }

    /**
     * GetNextChannel: refused while the aggregated duty cycle is pending; with a
     * fixed transmit frequency only that frequency's band is checked; otherwise
     * the bands whose time-off has passed are released, the channels enabled
     * for the datarate in a released band are listed, band 0's power cap is set
     * from the datarate and the list's length, and the random selector, which
     * may fail, picks one of them.
     */
    method GetNextChannel(now: nat) returns (r: Status)
      requires Valid()
      modifies this
      ensures Valid()
      ensures channelMask == old(channelMask) && txFrequencySubBand == old(txFrequencySubBand)
      ensures old(settings).session.aggregatedTimeOffEnd != 0 ==>
        r == AggregatedDutyCycle && settings == old(settings) && dutyBands == old(dutyBands) && txChannel == old(txChannel)
      ensures old(settings).session.aggregatedTimeOffEnd == 0
              && (P2PEnabled(old(settings)) || old(settings).network.txFrequency != 0) ==>
        settings == old(settings) && txChannel == old(txChannel)
        && r == (if !old(settings).test.disableDutyCycle && BandBlocked(old(dutyBands), old(settings).network.txFrequency)
                 then NoChansEnabled else Ok)
        && dutyBands == if r == Ok then old(dutyBands)[0 := old(dutyBands)[0].(powerMax := 26)] else old(dutyBands)
      ensures old(settings).session.aggregatedTimeOffEnd == 0
              && !(P2PEnabled(old(settings)) || old(settings).network.txFrequency != 0) ==>
        var dr := SearchDatarate(old(settings), old(channelMask));
        var released := ReleasedBands(old(dutyBands), now, old(settings).test.disableDutyCycle);
        var candidates := Candidates(old(channelMask), released, dr);
        settings == old(settings).(session := old(settings).session.(txDatarate := dr))
        && dutyBands == released[0 := released[0].(powerMax := PowerCap(dr, |candidates|))]
        && (r == Ok <==> |candidates| > 0) && (r == Ok || r == NoChansEnabled)
        && (txChannel == old(txChannel) || txChannel in candidates)
    {
      if settings.session.aggregatedTimeOffEnd != 0 {
        return AggregatedDutyCycle;
      }
      if P2PEnabled(settings) || settings.network.txFrequency != 0 {
        r := UseTxFrequency();
      } else {
        r := SearchChannel(now);
      }
    }

    /** The fixed-frequency branch of GetNextChannel (peer-to-peer or Network.TxFrequency set). */
    method UseTxFrequency() returns (r: Status)
      requires Valid()
      modifies this
      ensures Valid()
      ensures channelMask == old(channelMask) && txFrequencySubBand == old(txFrequencySubBand)
      ensures settings == old(settings) && txChannel == old(txChannel)
      ensures r == (if !old(settings).test.disableDutyCycle && BandBlocked(old(dutyBands), old(settings).network.txFrequency)
                    then NoChansEnabled else Ok)
      ensures dutyBands == if r == Ok then old(dutyBands)[0 := old(dutyBands)[0].(powerMax := 26)] else old(dutyBands)
    {
      if !settings.test.disableDutyCycle {
        var band := GetDutyBand(dutyBands, settings.network.txFrequency);
        if band != -1 && dutyBands[band].timeOffEnd != 0 {
          return NoChansEnabled;
        }
      }
      dutyBands := dutyBands[0 := dutyBands[0].(powerMax := 26)];
      r := Ok;
    }

    /** The channel-search branch of GetNextChannel. */
    method SearchChannel(now: nat) returns (r: Status)
      requires Valid()
      modifies this
      ensures Valid()
      ensures channelMask == old(channelMask) && txFrequencySubBand == old(txFrequencySubBand)
      ensures var dr := SearchDatarate(old(settings), old(channelMask));
        var released := ReleasedBands(old(dutyBands), now, old(settings).test.disableDutyCycle);
        var candidates := Candidates(old(channelMask), released, dr);
        settings == old(settings).(session := old(settings).session.(txDatarate := dr))
        && dutyBands == released[0 := released[0].(powerMax := PowerCap(dr, |candidates|))]
        && (r == Ok <==> |candidates| > 0) && (r == Ok || r == NoChansEnabled)
        && (txChannel == old(txChannel) || txChannel in candidates)
    {
      UseSearchDatarate();
      var dr := settings.session.txDatarate;
      ReleaseBands(now);
      var enabledChannels, nbEnabled := EnabledChannels(dr);
      SetPowerCap(dr, nbEnabled);
      if nbEnabled == 0 {
        return NoChansEnabled;
      }
      PickChannel(enabledChannels, nbEnabled);
      r := Ok;
    }

    /** The start of the channel search: DR4 without a 500 kHz channel becomes DR3. */
    method UseSearchDatarate()
      requires Valid()
      modifies this
      ensures Valid()
      ensures settings == old(settings).(session := old(settings).session.(txDatarate := SearchDatarate(old(settings), old(channelMask))))
      ensures channelMask == old(channelMask) && dutyBands == old(dutyBands) && numChans == old(numChans)
      ensures txChannel == old(txChannel) && txFrequencySubBand == old(txFrequencySubBand)
    {
      if settings.session.txDatarate == MaxDatarate(settings) && channelMask[4] == 0 {
        settings := settings.(session := settings.session.(txDatarate := MaxDatarate(settings) - 1));
      }
    }

    /** Band 0's PowerMax after the search: 26 dBm at 500 kHz, else 21 dBm below 50 candidates and 30 dBm from 50. */
    method SetPowerCap(dr: nat, nbEnabled: nat)
      requires Valid() && dr < 16
      modifies this
      ensures Valid()
      ensures dutyBands == old(dutyBands)[0 := old(dutyBands)[0].(powerMax := PowerCap(dr, nbEnabled))]
      ensures settings == old(settings) && channelMask == old(channelMask) && numChans == old(numChans)
      ensures txChannel == old(txChannel) && txFrequencySubBand == old(txFrequencySubBand)
    {
      if DATARATES[dr].bandwidth == Bw500 {
        dutyBands := dutyBands[0 := dutyBands[0].(powerMax := 26)];
      } else if nbEnabled < 50 {
        dutyBands := dutyBands[0 := dutyBands[0].(powerMax := 21)];
      } else {
        dutyBands := dutyBands[0 := dutyBands[0].(powerMax := 30)];
      }
    }

    /** _randomChannel.NextChannel: may fail (the channel is kept) or pick one of the listed channels. */
    method PickChannel(enabledChannels: array<nat>, nbEnabled: nat)
      requires 0 < nbEnabled <= enabledChannels.Length
      modifies this
      ensures txChannel == old(txChannel) || txChannel in enabledChannels[..nbEnabled]
      ensures settings == old(settings) && channelMask == old(channelMask) && numChans == old(numChans)
      ensures dutyBands == old(dutyBands) && txFrequencySubBand == old(txFrequencySubBand)
    {
      if * {
        var k :| 0 <= k < nbEnabled;
        assert enabledChannels[k] == enabledChannels[..nbEnabled][k];
        txChannel := enabledChannels[k];
      }
    }

    /** The search loop of GetNextChannel: the candidate channels for datarate dr, in increasing order. */
    method EnabledChannels(dr: nat) returns (enabledChannels: array<nat>, nbEnabled: nat)
      requires Valid() && dr < 16
      ensures fresh(enabledChannels)
      ensures nbEnabled <= enabledChannels.Length
      ensures enabledChannels[..nbEnabled] == Candidates(channelMask, dutyBands, dr)
    {
      var start := 0;
      var maxChannels := NUM_CHANS_125K;
      enabledChannels := new nat[NUM_CHANS_125K];
      if DATARATES[dr].bandwidth == Bw500 {
        maxChannels := NUM_CHANS_500K;
        start := NUM_CHANS_125K;
      }
      nbEnabled := 0;
      var ch := start;
      ghost var flags := EligibleFlags(channelMask, dutyBands, dr);
      while ch < start + maxChannels
        invariant start <= ch <= start + maxChannels <= NUM_CHANS && nbEnabled <= ch - start
        invariant enabledChannels[..nbEnabled] == Selected(flags, start, ch)
        modifies enabledChannels
      {
        var c := GetChannel(ch);
        var taken := false;
        if IsChannelEnabled(channelMask, ch) && RangeMin(c.drRange) <= dr && dr <= RangeMax(c.drRange) {
          var band := GetDutyBand(dutyBands, c.frequency);
          if band != -1 && dutyBands[band].timeOffEnd == 0 {
            Push(enabledChannels, nbEnabled, ch);
            nbEnabled := nbEnabled + 1;
            taken := true;
          }
        }
        assert taken == flags[ch];
        ch := ch + 1;
      }
    }

    /** The release loop of GetNextChannel: a band whose time-off has passed, or every band with duty cycling disabled, is freed. */
    method ReleaseBands(now: nat)
      modifies this
      ensures dutyBands == ReleasedBands(old(dutyBands), now, settings.test.disableDutyCycle)
      ensures settings == old(settings) && channelMask == old(channelMask) && numChans == old(numChans)
      ensures txChannel == old(txChannel) && txFrequencySubBand == old(txFrequencySubBand)
    {
      var i := 0;
      while i < |dutyBands|
        invariant 0 <= i <= |dutyBands| == |old(dutyBands)|
        invariant forall j :: 0 <= j < i ==> dutyBands[j] == ReleasedBand(old(dutyBands)[j], now, settings.test.disableDutyCycle)
        invariant forall j :: i <= j < |dutyBands| ==> dutyBands[j] == old(dutyBands)[j]
        invariant settings == old(settings) && channelMask == old(channelMask) && numChans == old(numChans)
        invariant txChannel == old(txChannel) && txFrequencySubBand == old(txFrequencySubBand)
      {
        if dutyBands[i].timeOffEnd < now || settings.test.disableDutyCycle {
          dutyBands := dutyBands[i := dutyBands[i].(timeOffEnd := 0)];
        }
        i := i + 1;
      }
    }

    /**
     * GetJoinDatarate: with no configured sub-band the nonce picks the sub-band
     * to join on (JoinSubBand); the datarate is DR4 on a multiple of 9 and DR0
     * otherwise, or, with a configured sub-band, DR4 on even nonces when the
     * mask has a 500 kHz word set.
     */
    method GetJoinDatarate() returns (dr: nat)
      requires Valid()
      modifies this
      ensures Valid()
      ensures settings == old(settings) && dutyBands == old(dutyBands) && txChannel == old(txChannel)
      ensures dr == JoinDatarate(old(settings), old(channelMask))
      ensures old(settings).network.frequencySubBand == 0 ==>
        channelMask == SubBandMask(JoinSubBand(old(settings).network.devNonce))
        && txFrequencySubBand == JoinSubBand(old(settings).network.devNonce)
      ensures old(settings).network.frequencySubBand != 0 ==>
        channelMask == old(channelMask) && txFrequencySubBand == old(txFrequencySubBand)
    {
      dr := settings.session.txDatarate;
      var devNonce := settings.network.devNonce;
      var altdr := devNonce % 2 == 0;
      var fsb := 1;
      var dr4Fsb := 1;
      if devNonce % 9 == 0 {
        dr4Fsb := (devNonce / 9) % 8 + 1;
        fsb := 9;
      } else {
        fsb := devNonce % 9;
      }
      if settings.network.frequencySubBand == 0 {
        if fsb < 9 {
          SetFrequencySubBand(fsb);
        } else {
          SetFrequencySubBand(dr4Fsb);
        }
      }
      if !settings.test.disableRandomJoinDatarate {
        if settings.network.frequencySubBand == 0 {
          if fsb < 9 {
            dr := 0;
          } else {
            dr := 4;
          }
        } else if altdr && PopCount(if channelMask[4] > 0 then 1 else 0) > 0 {
          dr := 4;
        } else {
          dr := 0;
        }
      }
    }

    /**
     * SetTxConfig: the radio configuration of the next uplink; the power index is
     * getTxPowerIndex of the conducted power ConductedPower allows.
     */
    method SetTxConfig(powerIndex: int -> int) returns (cfg: TxConfig)
      requires Valid()
      requires GetDutyBand(dutyBands, GetChannel(txChannel).frequency) != -1
      ensures var band := GetDutyBand(dutyBands, GetChannel(txChannel).frequency);
        var dr := settings.session.txDatarate;
        var limit21 := DATARATES[dr].bandwidth == Bw125 && Enabled125k(channelMask) < 50;
        cfg == TxConfig(ModemLora,
                        ToInt8(powerIndex(ConductedPower(settings.session.txPower, dutyBands[band].powerMax,
                                                         settings.network.antennaGain, limit21))),
                        0)
    {
      var band := GetDutyBand(dutyBands, GetChannel(txChannel).frequency);
      var pwr := TxPowerOf(band);
      var index := ToInt8(powerIndex(pwr));
      var txDr := DATARATES[settings.session.txDatarate];
      DatarateBandwidths(settings.session.txDatarate);
      var modem := ModemLora;
      var fdev := 0;
      if txDr.spreadingFactor == SfFsk {
        modem := ModemFsk;
        fdev := 25000;
      }
      cfg := TxConfig(modem, index, fdev);
    }

    /** The power computation of SetTxConfig for the duty band band of the transmit channel. */
    method TxPowerOf(band: nat) returns (pwr: int)
      requires Valid() && band < |dutyBands|
      ensures var limit21 := DATARATES[settings.session.txDatarate].bandwidth == Bw125 && Enabled125k(channelMask) < 50;
        pwr == ConductedPower(settings.session.txPower, dutyBands[band].powerMax, settings.network.antennaGain, limit21)
    {
      var txDr := DATARATES[settings.session.txDatarate];
      ghost var limit21 := txDr.bandwidth == Bw125 && Enabled125k(channelMask) < 50;
      var maxPwr := ToInt8(dutyBands[band].powerMax);
      pwr := ToInt8(settings.session.txPower);
      if txDr.bandwidth == Bw125 {
        var chansEnabled := 0;
        chansEnabled := chansEnabled + PopCount(channelMask[0]);
        chansEnabled := chansEnabled + PopCount(channelMask[1]);
        chansEnabled := chansEnabled + PopCount(channelMask[2]);
        chansEnabled := chansEnabled + PopCount(channelMask[3]);
        assert chansEnabled == Enabled125k(channelMask);
        if chansEnabled < 50 && pwr > 21 {
          pwr := 21;
        }
      }
      assert pwr == if limit21 && ToInt8(settings.session.txPower) > 21 then 21 else ToInt8(settings.session.txPower);
      var gain := settings.network.antennaGain;
      if pwr + gain >= maxPwr + 6 && gain > 6 {
        maxPwr := ToInt8(maxPwr - (gain - 6));
      }
      pwr := if pwr < maxPwr then pwr else maxPwr;
    }

    /**
     * FrequencyHop: the beacon, the ping slot and every multicast session with an
     * address move to the beacon channel of the current period.
     */
    method FrequencyHop(time: nat, period: nat, devAddr: nat)
      requires Valid() && period > 0
      modifies this
      ensures Valid()
      ensures channelMask == old(channelMask) && dutyBands == old(dutyBands)
      ensures txChannel == old(txChannel) && txFrequencySubBand == old(txFrequencySubBand)
      ensures settings.network == old(settings).network && settings.test == old(settings).test
      ensures settings.session == old(settings).session.(
        beaconFrequency := if old(settings).session.beaconFreqHop then HopFrequency(time, period, 0)
                           else old(settings).session.beaconFrequency,
        pingSlotFrequency := if old(settings).session.pingSlotFreqHop then HopFrequency(time, period, devAddr)
                             else old(settings).session.pingSlotFrequency)
      ensures |settings.multicast| == MAX_MULTICAST_SESSIONS
      ensures forall i :: 0 <= i < MAX_MULTICAST_SESSIONS ==>
        settings.multicast[i] == if old(settings).multicast[i].address != 0
                                 then old(settings).multicast[i].(frequency := HopFrequency(time, period, old(settings).multicast[i].address))
                                 else old(settings).multicast[i]
    {
      if settings.session.beaconFreqHop {
        settings := settings.(session := settings.session.(beaconFrequency := HopFrequency(time, period, 0)));
      }
      if settings.session.pingSlotFreqHop {
        settings := settings.(session := settings.session.(pingSlotFrequency := HopFrequency(time, period, devAddr)));
      }
      var i := 0;
      while i < MAX_MULTICAST_SESSIONS
        invariant 0 <= i <= MAX_MULTICAST_SESSIONS && |settings.multicast| == MAX_MULTICAST_SESSIONS
        invariant settings.network == old(settings).network && settings.test == old(settings).test
        invariant settings.session == old(settings).session.(
          beaconFrequency := if old(settings).session.beaconFreqHop then HopFrequency(time, period, 0)
                             else old(settings).session.beaconFrequency,
          pingSlotFrequency := if old(settings).session.pingSlotFreqHop then HopFrequency(time, period, devAddr)
                               else old(settings).session.pingSlotFrequency)
        invariant forall j :: 0 <= j < i ==>
          settings.multicast[j] == if old(settings).multicast[j].address != 0
                                   then old(settings).multicast[j].(frequency := HopFrequency(time, period, old(settings).multicast[j].address))
                                   else old(settings).multicast[j]
        invariant forall j :: i <= j < MAX_MULTICAST_SESSIONS ==> settings.multicast[j] == old(settings).multicast[j]
        invariant channelMask == old(channelMask) && dutyBands == old(dutyBands) && numChans == old(numChans)
        invariant txChannel == old(txChannel) && txFrequencySubBand == old(txFrequencySubBand)
      {
        var m := settings.multicast[i];
        if m.address != 0 {
          settings := settings.(multicast := settings.multicast[i := m.(frequency := HopFrequency(time, period, m.address))]);
        }
        i := i + 1;
      }
    }
  }
}
