/**
 * The records a channel plan reads and writes: channels with their datarate
 * ranges, duty bands, receive windows, the radio parameters of a transmission,
 * and the device Settings shared with the MAC (Network, Session, Multicast and
 * Test groups).
 */
module LoraTypes {
  import opened Bits

  /** The return codes of the channel-plan operations (LORA_OK, LORA_ERROR, ...). */
  datatype Status =
    | Ok
    | Error
    | Unsupported
    | NoChansEnabled
    | AggregatedDutyCycle
    | BeaconSize
    | BeaconCrc

  /** Network.Mode. */
  datatype Mode = Public | Private | PrivateMts | PeerToPeer

  /** The receive windows GetRxWindow resolves (RX_1, RX_2, RX_BEACON, RX_SLOT, RXC, RX_TEST). */
  datatype Window = Rx1 | Rx2 | RxBeacon | RxSlot | RxC | RxTest

  /**
   * DatarateRange is a union of a byte (Value) with two signed 4-bit bit-fields:
   * Fields.Min in the low nibble and Fields.Max in the high nibble.
   */
  function SignedNibble(n: Byte): (v: int)
    requires n < 16
    ensures -8 <= v < 8
    ensures n < 8 ==> v == n as int
  {
    if n < 8 then n as int else n as int - 16
  }

  /** DrRange.Fields.Min. */
  function RangeMin(value: Byte): int
  {
    SignedNibble(value & 0x0F)
  }

  /** DrRange.Fields.Max. */
  function RangeMax(value: Byte): int
  {
    SignedNibble(value >> 4)
  }

  /** The DrRange value with Fields.Min = lo and Fields.Max = hi. */
  function MakeRange(lo: nat, hi: nat): (value: Byte)
    requires lo < 8 && hi < 8
    ensures RangeMin(value) == lo && RangeMax(value) == hi
  {
    ((hi as bv8) << 4) | (lo as bv8)
  }

  /** A channel: its uplink frequency in Hz and its datarate range. */
  datatype Channel = Channel(frequency: nat, drRange: Byte)

  /** The channel a memset to zero leaves: frequency 0, DrRange.Value 0. */
  const ZeroChannel: Channel := Channel(0, 0)

  /** Whether datarate dr lies within the channel's [Fields.Min, Fields.Max]. */
  predicate DatarateInRange(dr: int, c: Channel)
  {
    RangeMin(c.drRange) <= dr <= RangeMax(c.drRange)
  }

  /** A duty-cycle band: its frequency span, power cap, duty-cycle divisor and time-off deadline. */
  datatype DutyBand = DutyBand(
    frequencyMin: nat,
    frequencyMax: nat,
    powerMax: int,
    dutyCycle: nat,
    timeOffEnd: nat)

  /** Whether frequency f lies within the band's [FrequencyMin, FrequencyMax]. */
  predicate BandContains(b: DutyBand, f: nat)
  {
    b.frequencyMin <= f <= b.frequencyMax
  }

  /** The frequency and datarate index of a receive window. */
  datatype RxWindow = RxWindow(frequency: nat, datarateIndex: int)

  /** Channel bandwidth of a datarate (BW_125, BW_250, BW_500, BW_FSK). */
  datatype Bandwidth = Bw125 | Bw250 | Bw500 | BwFsk

  /** Spreading factor of a datarate; FSK and RFU entries are distinct values. */
  datatype SpreadingFactor = Sf(n: nat) | SfFsk | SfInvalid

  /** One entry of a plan's datarate table. */
  datatype Datarate = Datarate(spreadingFactor: SpreadingFactor, bandwidth: Bandwidth)

  /** Radio modem selected for a transmission. */
  datatype Modem = ModemLora | ModemFsk

  /**
   * The transmit parameters whose computation the plans own: modem, the power
   * index handed to the radio, and the FSK deviation (0 for LoRa).
   */
  datatype TxConfig = TxConfig(modem: Modem, powerIndex: int, fdev: nat)

  /** Settings.Network: configuration the application sets. */
  datatype Network = Network(
    mode: Mode,
    adrEnabled: bool,
    antennaGain: int,
    frequencySubBand: nat,
    devNonce: nat,
    txFrequency: nat,
    txPower: nat)

  /** Settings.Session: state of the current network session. */
  datatype Session = Session(
    joined: bool,
    txDatarate: nat,
    txPower: nat,
    redundancy: nat,
    rx1DatarateOffset: nat,
    rx2Frequency: nat,
    rx2DatarateIndex: nat,
    aggregatedTimeOffEnd: nat,
    aggregateDutyCycle: nat,
    maxDutyCycle: nat,
    joinFirstAttempt: nat,
    joinTimeOffEnd: nat,
    beaconFrequency: nat,
    beaconFreqHop: bool,
    pingSlotFrequency: nat,
    pingSlotDatarateIndex: nat,
    pingSlotFreqHop: bool)

  /** One Settings.Multicast entry. */
  datatype MulticastSession = MulticastSession(
    address: nat,
    frequency: nat,
    datarateIndex: nat,
    active: bool)

  /** Settings.Test switches. */
  datatype TestSettings = TestSettings(disableDutyCycle: bool, disableRandomJoinDatarate: bool)

  /** The device settings a channel plan reads and updates. */
  datatype Settings = Settings(
    network: Network,
    session: Session,
    multicast: seq<MulticastSession>,
    test: TestSettings)

  /** Number of entries of Settings.Multicast. */
  const MAX_MULTICAST_SESSIONS: nat := 8

  /** Shape every plan relies on: a full multicast table and a datarate that indexes the 16-entry table. */
  predicate SettingsOk(s: Settings)
  {
    |s.multicast| == MAX_MULTICAST_SESSIONS && s.session.txDatarate < 16
  }

  /** P2PEnabled(): the device is in peer-to-peer mode. */
  predicate P2PEnabled(s: Settings)
  {
    s.network.mode == PeerToPeer
  }

  /** Beacon InfoDesc values that carry gateway GPS coordinates. */
  const GPS_FIRST_ANTENNA: Byte := 0
  const GPS_SECOND_ANTENNA: Byte := 1
  const GPS_THIRD_ANTENNA: Byte := 2
}
