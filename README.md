# LoRaWAN regional channel plans (US915, EU868, IN865, CN470)

A Dafny model of the regional channel-plan layer of the libxDotAD LoRaWAN
end-device MAC. It covers four regions.

A channel plan owns these things:
- the uplink channels and the channel mask (one bit per channel, 16 per word);
- the duty-cycle bands and their time-off deadlines;
- the transmit channel.

It reads and updates part of the device settings: RX1 and RX2 parameters,
the beacon and ping-slot frequencies, multicast sessions, the transmit
datarate and power, and the redundancy.

On its own state it implements these operations:
- the region's MAC commands: LinkADRReq, RXParamSetupReq, NewChannelReq,
  DlChannelReq, PingSlotChannelReq and BeaconFreqReq;
- the Join-Accept CFList;
- the choice of the next uplink channel and the wait before it
  (GetNextChannel, GetTimeOffAir, UpdateDutyCycle);
- the receive windows;
- the radio transmit configuration;
- the join datarate;
- class B beacon decoding and frequency hopping.

Layout, one module per concern:

- `bits.dfy`, module Bits: bytes, mask words, uint32_t and int8_t truncation, bit counts.
- `types.dfy`, module LoraTypes: channels, DrRange bit-fields, duty bands, receive windows, Settings.
- `wire.dfy`, module Wire: MAC-command field decoding (24-bit frequencies, mask words, nibbles).
- `duty.dfy`, module DutyCycle: GetDutyBand, band release and decay, the terms of GetTimeOffAir.
- `mask.dfy`, module ChannelMask: mask sizing, SetChannelMask, IsChannelEnabled, candidate lists.
- `beacon.dfy`, module Beacon: DecodeBeacon over the 23-byte BCNPayload, with the encoder it inverts.
- `us915.dfy`, module US915: ChannelPlan_US915.
- `eu868.dfy`, module EU868: ChannelPlan_EU868.
- `in865.dfy`, module IN865: ChannelPlan_IN865 (uses EU868 where its code is EU868's).
- `cn470.dfy`, module CN470: ChannelPlan_CN470 (uses US915's GetTimeOffAir and hop
  arithmetic, and EU868's conducted power).

## How each plan is modelled

Each plan is a `class ChannelPlan`:
- Its fields are the settings record, the channel table (EU868 and IN865),
  the mask words, the duty bands, the transmit channel and, in US915 and
  CN470, the sub-band.
- The MAC handlers, Init, GetNextChannel and the other state-changing
  operations are methods with `modifies this`. Each states its whole new state.
- Loops stay loops, with their invariants: the band release, the channel
  search, the CFList and ChMaskCntl loops, the GetTimeOffAir scan and the
  multicast hop.
- Each method is proved against a function on the old state (`Candidates`,
  `AdrMask`, `CfMask`, `TimeOffAir`, `SubBandMask`, …). What the code promises
  is proved about that function in lemmas.

Code that only computes a value is a function over the state values. This
covers GetChannel, GetRxWindow, ValidateAdrConfiguration (US915, CN470),
GetTimeOffAir (US915, CN470), GetJoinDatarate (EU868, IN865, CN470) and
DecodeBeacon.

Effects outside the plan are parameters:
- the duty-cycle timer's reading `now`;
- the wall clock `wallNow`;
- `CheckRfFrequency`, `getTxPowerIndex` and `CRC16`, each a function parameter;
- the random channel choice, a non-deterministic pick.

Constants:
- US915, EU868 and IN865: ChannelPlan_US915.h, ChannelPlan_EU868.h and
  ChannelPlan_IN865.h are not part of this model. Their constants (grids,
  region limits, RX2 and beacon defaults, datarate limits and ETSI band edges)
  are the values of the LoRaWAN Regional Parameters 1.0.2, in its sections on
  the US902-928, EU863-870 and IN865-867 bands.
- The IN865 beacon is taken at 866.55 MHz, DR4.
- EU868 and IN865 are built without the optional datarates, so their maximum
  is DR5.
- CN470: the constants are those of plans/ChannelPlan_CN470.h, lines 26-50.
  Lora.h is not part of this model either.
- DrRange is a byte union of two signed 4-bit bit-fields. `Fields.Min` is in
  the low nibble and `Fields.Max` in the high one (`MakeRange`, `RangeMin`,
  `RangeMax`).
- Datarate entries whose bandwidth the plan does not set are 125 kHz.

Where the code and the LoRaWAN documents differ, the model follows the code:
- IN865 NewChannelReq tests only upper bounds, so a negative `Fields.Min` is
  accepted (`IN865.NegativeMinAccepted`).
- CN470 Init sets the transmit datarate to DR0, below the plan's own minimum
  of DR1.
- CN470 ignores a CFList.
- CN470 LinkADRReq accepts DR0.

## Model

| member | source | states |
|---|---|---|
| Bits.Wrap32 | plans/ChannelPlan_US915.cpp:1029 | the value a uint32_t assignment stores: below 2^32, congruent to the input, the input itself when it fits |
| Bits.ToInt8 | plans/ChannelPlan_CN470.cpp:242-246 | the value an int8_t assignment stores: within -128..127, congruent modulo 256, the input itself when it fits |
| Bits.PopCount | plans/ChannelPlan_CN470.cpp:640-645 | CountBits of a mask word is at most 16 |
| Bits.PopCountZero | plans/ChannelPlan_CN470.cpp:647 | a word counts no set bits exactly when it is zero |
| Wire.Le24 | plans/ChannelPlan_US915.cpp:476-478 | three payload bytes assembled low byte first are below 2^24 |
| Wire.NibblesDetermine | plans/ChannelPlan_US915.cpp:473-474 | a byte is determined by its two nibbles |
| Wire.MaskWordDetermines | plans/ChannelPlan_US915.cpp:607-608 | equal decoded ChMask words come from equal payload bytes |
| ChannelMask.Selected | plans/ChannelPlan_US915.cpp:861-872 | the candidate list of a range of channels is no longer than the range |
| Wire.FrequencyAt | plans/ChannelPlan_US915.cpp:476-479 | the 24-bit little-endian frequency times 100 is a multiple of 100 Hz and fits a uint32_t |
| Wire.FrequencyDetermines | plans/ChannelPlan_EU868.cpp:435-438 | equal decoded frequencies come from equal payload bytes: decoding loses nothing |
| Wire.MaskWordRoundTrip | plans/ChannelPlan_US915.cpp:607-608 | a ChMask word encoded low byte first decodes back to itself |
| Wire.NibblesCompose | plans/ChannelPlan_US915.cpp:473-474 | a byte is its low nibble plus 16 times its high nibble; bits 4-6 are the high nibble modulo 8 |
| Wire.DecodeLinkAdrReq | plans/ChannelPlan_US915.cpp:603-612 | DataRate (high nibble), TXPower (low nibble), ChMask, ChMaskCntl (bits 4-6) and NbRep (bits 0-3) are in range |
| Wire.LinkAdrReqDetermines | plans/ChannelPlan_CN470.cpp:552-561 | two LinkADRReqs that decode alike agree on every byte except the RFU bit 7 of Redundancy |
| LoraTypes.MakeRange | plans/ChannelPlan_CN470.cpp:303-305 | the DrRange byte whose Fields.Min and Fields.Max read back as the given bounds |
| LoraTypes.SignedNibble | plans/ChannelPlan_IN865.cpp:452-462 | a 4-bit bit-field read as signed: -8..7, nibbles below 8 unchanged |
| DutyCycle.GetDutyBand | plans/ChannelPlan_CN470.cpp:770-772 | the first band whose span holds the frequency, or -1 exactly when no band does |
| DutyCycle.GetDutyBandSpansOnly | plans/ChannelPlan_US915.cpp:855-866 | the band lookup depends only on band spans, so clearing deadlines never changes it |
| DutyCycle.ReleasedBand | plans/ChannelPlan_CN470.cpp:759-763 | a deadline is cleared exactly when it has passed or duty cycling is disabled; span, cap and divisor are kept |
| DutyCycle.ReleasedBands | plans/ChannelPlan_EU868.cpp:837-841 | the release loop keeps the table's length and spans and releases every band |
| DutyCycle.DecayedTimeOff | plans/ChannelPlan_EU868.cpp:748-753 | a passed deadline becomes 0; any other is made relative to now and never grows |
| DutyCycle.AggregatedWait | plans/ChannelPlan_CN470.cpp:660-662 | positive exactly while the aggregated deadline is ahead, and then the time left |
| DutyCycle.JoinWait | plans/ChannelPlan_CN470.cpp:664-669 | positive only during a join back-off; the seconds left converted to ms, truncated to uint32_t |
| DutyCycle.MinWaitFromZero | plans/ChannelPlan_EU868.cpp:695-711 | once the scan meets a free band the minimum stays 0 |
| DutyCycle.MinWaitZero | plans/ChannelPlan_EU868.cpp:695-711 | the scanned minimum is 0 exactly when some counted channel's band is free |
| DutyCycle.MinWaitBelow | plans/ChannelPlan_EU868.cpp:695-711 | the scanned minimum is no larger than the start nor than any counted wait |
| DutyCycle.MinWaitAttained | plans/ChannelPlan_EU868.cpp:695-711 | the scanned minimum is the start value, 0, or one of the counted waits |
| ChannelMask.MaskWords | plans/ChannelPlan_US915.cpp:190-200 | the number of words ((channels - 1) / 16) + 1 is the least that holds every channel |
| ChannelMask.Resized | plans/ChannelPlan_CN470.cpp:170-180 | resizing keeps the first words and pads with zero words |
| ChannelMask.SetWord | plans/ChannelPlan_CN470.cpp:318-332 | SetChannelMask replaces exactly word index and keeps the others and the length |
| ChannelMask.EnabledIsBit | plans/ChannelPlan_CN470.cpp:182-194 | channel ch is enabled exactly when bit ch % 16 of word ch / 16 is set |
| ChannelMask.SetWordKeepsOthers | plans/ChannelPlan_US915.cpp:636 | writing one word leaves every channel of the other words as it was |
| ChannelMask.SelectedMembers | plans/ChannelPlan_CN470.cpp:765-775 | the list holds exactly the indices in range whose test passes |
| ChannelMask.SelectedIncreasing | plans/ChannelPlan_CN470.cpp:765-775 | the list is in strictly increasing channel order |
| ChannelMask.Push | plans/ChannelPlan_CN470.cpp:773 | appending to enabledChannels keeps the earlier entries and adds one |
| Beacon.DecodeBeacon | plans/ChannelPlan_CN470.cpp:840-873 | a frame that is not 23 bytes is refused with LORA_BEACON_SIZE and a CRC1 mismatch with LORA_BEACON_CRC, the output untouched; Ok fills Time and InfoDesc; Latitude and Longitude change only on a CRC2 match for a GPS InfoDesc. The US915 (lines 983-1016), EU868 (938-971, CRC2 over GwSpecific only) and IN865 (926-959) decoders are assumed to share this layout and use this definition. |
| Beacon.EncodeBeacon | plans/ChannelPlan_CN470.h:304-311 | a frame laid out as BCNPayload (RFU1, Time, CRC1, GwSpecific, RFU2, CRC2) is 23 bytes |
| Beacon.DecodeEncoded | plans/ChannelPlan_CN470.cpp:840-873 | a well-formed frame decodes to Ok with the Time and InfoDesc sent, and the GPS fields when InfoDesc names an antenna |
| Beacon.FrameSlices | plans/ChannelPlan_CN470.h:304-311 | each field of an assembled frame sits at its BCNPayload offset |
| Beacon.Rfu2IgnoredWithoutSpan | plans/ChannelPlan_EU868.cpp:957 | when CRC2 covers GwSpecific alone, the bytes after GwSpecific never influence the result (under the assumed CN470 layout) |
| Beacon.Le16RoundTrip | plans/ChannelPlan_CN470.cpp:850 | a uint16_t copied out and back byte-wise is unchanged |
| Beacon.Le32RoundTrip | plans/ChannelPlan_CN470.cpp:856 | a uint32_t copied out and back byte-wise is unchanged |
| Beacon.Store24 | plans/ChannelPlan_CN470.cpp:868-869 | a three-byte memcpy into a 32-bit field keeps its top byte |
| US915.DatarateBandwidths | plans/ChannelPlan_US915.cpp:52-160 | DR0-3 are 125 kHz and all others 500 kHz |
| US915.GetChannel | plans/ChannelPlan_US915.cpp:321-342 | a grid channel of 0-71 lies in the region with its block's datarate range; beyond, a zeroed channel |
| US915.ChannelGrid | plans/ChannelPlan_US915.cpp:321-342 | channel n < 64 at 902.3 + 0.2 n MHz, channel 64 + n at 903.0 + 1.6 n MHz, all distinct |
| US915.GridInDefaultBand | plans/ChannelPlan_US915.cpp:77-139 | every grid channel lies in the one duty band Init adds |
| US915.SubBandMask | plans/ChannelPlan_US915.cpp:344-365 | the sub-band mask has five words |
| US915.SubBandEnables | plans/ChannelPlan_US915.cpp:344-365 | sub-band 1-8 enables exactly its eight 125 kHz channels and 500 kHz channel 63 + sb; any other value all 72 |
| US915.SubBandCounts | plans/ChannelPlan_US915.cpp:344-365 | a sub-band mask enables 8 + 1 channels, the all-channel mask 64 + 8 |
| US915.SubBandHalves | plans/ChannelPlan_US915.cpp:354 | the sub-band's half word sits in word (sb - 1) / 2 and the other 125 kHz words are clear |
| US915.SubBandWords | plans/ChannelPlan_US915.cpp:349-354 | words 0-3 of a sub-band mask count eight channels |
| US915.Enabled125k | plans/ChannelPlan_US915.cpp:260-263 | the CountBits sum over words 0-3 is at most 64 |
| US915.ValidateAdrConfiguration | plans/ChannelPlan_US915.cpp:701-735 | bit 1 clear iff the datarate is above DR4 under ADR or DR4 lacks a 500 kHz channel; bit 2 iff the power is above 30 dBm under ADR; bit 0 iff a 125 kHz datarate has fewer than two channels |
| US915.SubBandMaskPassesAdr | plans/ChannelPlan_US915.cpp:701-735 | every mask SetFrequencySubBand installs passes the channel-mask check, and DR4 has a 500 kHz channel |
| US915.GetRxWindow | plans/ChannelPlan_US915.cpp:387-464 | P2P uses the uplink frequency and datarate; RX1 uses downlink channel txChannel % 8 at the Rx1 table datarate; beacon, ping slot, multicast class C and RX2 each use their settings |
| US915.Rx1FollowsTable | plans/ChannelPlan_US915.cpp:387-464 | the RX1 datarate for uplink DR0-4 and offset 0-3 is the Regional Parameters table entry |
| US915.Rx1HighDatarates | plans/ChannelPlan_US915.cpp:387-464 | for uplink DR8-13 the RX1 datarate is within DR8 and the uplink's |
| US915.GetTimeOffAir | plans/ChannelPlan_US915.cpp:737-756 | at least each of the aggregated wait and the join back-off, equal to one of them, 0 exactly when neither applies. CN470 GetTimeOffAir (lines 655-674) is the same code and uses this definition. |
| US915.HopChannel | plans/ChannelPlan_US915.cpp:1018-1042 | the hopped channel is one of the 8 beacon channels |
| US915.HopFrequency | plans/ChannelPlan_US915.cpp:1018-1042 | a hopped frequency is one of the 8 beacon frequencies from 923.3 MHz in 600 kHz steps |
| US915.HopChannelIgnoresWrap | plans/ChannelPlan_US915.cpp:1029 | the uint32_t wrap of time / period + offset never changes the channel, because 8 divides 2^32. CN470 FrequencyHop (line 886) uses the same arithmetic. |
| US915.HopAdvances | plans/ChannelPlan_US915.cpp:1018-1042 | one period later every schedule moves to the next beacon channel modulo 8 |
| US915.AdrMask | plans/ChannelPlan_US915.cpp:630-680 | the LinkADRReq mask keeps five words |
| US915.AdrMaskChannels | plans/ChannelPlan_US915.cpp:630-680 | ChMaskCntl 0-4 replace one word; 5 enables 125 kHz block k exactly when ChMask bit k is set; 6 enables all 125 kHz; 7 disables them; 5-7 write ChMask to word 4 |
| US915.AdrMaskWord | plans/ChannelPlan_US915.cpp:636 | under control 0-4 a channel of word ctrl follows the ChMask bit, the others stay |
| US915.AdrMask500k | plans/ChannelPlan_US915.cpp:650-673 | under control 5-7 the 500 kHz channels follow ChMask |
| US915.AdrMaskAllOrNone | plans/ChannelPlan_US915.cpp:658-674 | under control 6 every 125 kHz channel is on, under 7 every one is off |
| US915.Ctrl5Channels | plans/ChannelPlan_US915.cpp:639-650 | under control 5, 125 kHz channel ch follows ChMask bit ch / 8 |
| US915.Ctrl5Half | plans/ChannelPlan_US915.cpp:642-644 | one loop step ors in the low or high half of t_125k when the bit is set |
| US915.Ctrl5Bit | plans/ChannelPlan_US915.cpp:641-648 | one iteration of the control-5 loop on bit i |
| US915.Ctrl5Prefix | plans/ChannelPlan_US915.cpp:641-649 | the mask after the loop has written words 0 .. n - 1 |
| US915.Ctrl5PrefixStep | plans/ChannelPlan_US915.cpp:645-647 | each odd bit writes one more word |
| US915.Ctrl5PrefixFull | plans/ChannelPlan_US915.cpp:641-650 | after the loop and the word 4 write the mask is AdrMask's |
| US915.ConductedPowerLimits | plans/ChannelPlan_US915.cpp:249-304 | within int8_t the conducted power never exceeds the session power or the band cap; it is at most 21 dBm under the 125 kHz limit, and with gain above 6 dBi it keeps radiated power within the cap plus 6 |
| US915.EligibleFlags | plans/ChannelPlan_US915.cpp:861-872 | flag ch is the search loop's test on channel ch |
| US915.CandidatesMembers | plans/ChannelPlan_US915.cpp:840-872 | a channel is a candidate exactly when it is in the datarate's block and passes the test |
| US915.CandidatesAreEnabledChannels | plans/ChannelPlan_US915.cpp:840-872 | with the single band free, the candidates are the enabled 125 kHz channels for DR0-3, the enabled 500 kHz ones for DR4, and none otherwise |
| US915.JoinSubBand | plans/ChannelPlan_US915.cpp:941-981 | nonces 1-8 modulo 9 pick sub-bands 1-8; a multiple of 9 picks the next DR4 sub-band |
| US915.JoinSubBandSweep | plans/ChannelPlan_US915.cpp:941-981 | nine consecutive nonces sweep sub-bands 1-8 in order, and multiples of 9 rotate through them |
| US915.JoinDatarateHasChannels | plans/ChannelPlan_US915.cpp:941-981 | a join at DR4 always has a 500 kHz word set, and with no sub-band configured DR0 has eight 125 kHz channels |
| US915.CfListMask | plans/ChannelPlan_US915.cpp:164-167 | the CFList loop keeps five mask words |
| US915.CfListMaskWords | plans/ChannelPlan_US915.cpp:164-167 | word k is CFList word k for the words carried and is kept otherwise |
| US915.JoinAcceptCfList | plans/ChannelPlan_US915.cpp:164-167 | a 33-byte join accept's CFList bytes 13-22 become mask words 0-4 |
| US915.InitSettings | plans/ChannelPlan_US915.cpp:52-160 | Init changes only the session record: RX2, beacon and ping-slot defaults, DR0 and the configured power |
| US915.ChannelPlan.constructor | plans/ChannelPlan_US915.cpp:52-160 | a plan with the given settings and empty tables |
| US915.ChannelPlan.SetNumberOfChannels | plans/ChannelPlan_US915.cpp:190-200 | the mask is resized to MaskWords(channels) and the channel count stored |
| US915.ChannelPlan.SetFrequencySubBand | plans/ChannelPlan_US915.cpp:344-365 | the mask becomes SubBandMask(sb), the sub-band is stored, Ok |
| US915.ChannelPlan.EnableDefaultChannels | plans/ChannelPlan_US915.cpp:807-809 | the mask of the configured sub-band |
| US915.ChannelPlan.Init | plans/ChannelPlan_US915.cpp:52-160 | the 72-channel sub-band mask, the single band, InitSettings |
| US915.ChannelPlan.HandleJoinAccept | plans/ChannelPlan_US915.cpp:162-188 | a type-1 CFList replaces the words it carries, and the top datarate drops to DR3 without a 500 kHz word; otherwise the sub-band mask is restored |
| US915.ChannelPlan.HandleRxParamSetup | plans/ChannelPlan_US915.cpp:466-506 | bits 0-2 acknowledge frequency, RX2 datarate DR8-13 and offset 0-3; all three are applied only when all pass |
| US915.ChannelPlan.HandleNewChannel | plans/ChannelPlan_US915.cpp:508-513 | unsupported, status 0 |
| US915.ChannelPlan.HandleDownlinkChannelReq | plans/ChannelPlan_US915.cpp:515-520 | unsupported, status 0 |
| US915.ChannelPlan.HandlePingSlotChannelReq | plans/ChannelPlan_US915.cpp:522-560 | frequency 0 restores the hopping default; frequency and datarate are applied only when both pass |
| US915.ChannelPlan.HandleBeaconFrequencyReq | plans/ChannelPlan_US915.cpp:562-591 | frequency 0 restores the hopping default; a rejected frequency changes nothing |
| US915.ChannelPlan.SetCtrl5Mask | plans/ChannelPlan_US915.cpp:639-650 | the control-5 loop leaves AdrMask's words |
| US915.ChannelPlan.ApplyChannelMask | plans/ChannelPlan_US915.cpp:630-680 | the switch leaves AdrMask(old mask, ctrl, ChMask) |
| US915.ChannelPlan.HandleAdrCommand | plans/ChannelPlan_US915.cpp:594-699 | status bits for datarate > DR4, power index > 14 and an all-zero control-5 mask (LORA_ERROR, nothing changed); the mask is applied otherwise; under ADR a full ack commits datarate, power and NbRep (0 read as 1) |
| US915.ChannelPlan.CommitAdr | plans/ChannelPlan_US915.cpp:682-691 | datarate and TX_POWERS[power] are stored unless 0xF, and the redundancy always |
| US915.ChannelPlan.GetNextChannel | plans/ChannelPlan_US915.cpp:811-939 | aggregated duty cycle refuses; a fixed frequency checks only its band; otherwise bands are released, the candidates listed, band 0's cap set, and Ok with a candidate channel or the old one |
| US915.ChannelPlan.UseTxFrequency | plans/ChannelPlan_US915.cpp:819-834 | NoChansEnabled exactly when the frequency's band is blocked under duty cycling; band 0's cap becomes 26 dBm |
| US915.ChannelPlan.SearchChannel | plans/ChannelPlan_US915.cpp:836-938 | the channel search against Candidates on the released bands |
| US915.ChannelPlan.UseSearchDatarate | plans/ChannelPlan_US915.cpp:836-838 | DR4 without a 500 kHz word becomes DR3 |
| US915.ChannelPlan.SetPowerCap | plans/ChannelPlan_US915.cpp:874-881 | band 0's cap: 26 dBm at 500 kHz, else 21 dBm below 50 candidates and 30 from 50 |
| US915.ChannelPlan.PickChannel | plans/ChannelPlan_US915.cpp:916-925 | the transmit channel is kept or becomes one of the listed channels |
| US915.ChannelPlan.EnabledChannels | plans/ChannelPlan_US915.cpp:840-872 | the array holds exactly Candidates, in order |
| US915.ChannelPlan.ReleaseBands | plans/ChannelPlan_US915.cpp:855-859 | the bands become ReleasedBands |
| US915.ChannelPlan.GetJoinDatarate | plans/ChannelPlan_US915.cpp:941-981 | with no configured sub-band the nonce picks the sub-band and DR4 is used on multiples of 9; with one, DR4 on even nonces when a 500 kHz word is set; DR0 otherwise |
| US915.ChannelPlan.SetTxConfig | plans/ChannelPlan_US915.cpp:249-304 | LoRa modem and the radio index of getTxPowerIndex(ConductedPower) with the 21 dBm limit below 50 channels |
| US915.ChannelPlan.TxPowerOf | plans/ChannelPlan_US915.cpp:255-276 | the conducted power for the transmit channel's band |
| US915.ChannelPlan.FrequencyHop | plans/ChannelPlan_US915.cpp:1018-1042 | with hopping on, the beacon, ping slot and each addressed multicast session move to HopFrequency; nothing else changes |
| EU868.DatarateBandwidths | plans/ChannelPlan_EU868.cpp:110-140 | no datarate uses 500 kHz; only DR7 is FSK |
| EU868.DefaultBandsShape | plans/ChannelPlan_EU868.cpp:178-230 | the six bands of Init have the shape every operation keeps |
| EU868.BandsLookup | plans/ChannelPlan_EU868.cpp:178-230 | the band lookup on any kept table is the lookup on Init's bands |
| EU868.BandedFrequencyInRegion | plans/ChannelPlan_EU868.cpp:178-230 | every frequency a band covers is within 863-870 MHz, hence nonzero |
| EU868.DefaultChannel | plans/ChannelPlan_EU868.cpp:146-160 | the join channels are 868.1, 868.3 and 868.5 MHz with DR0-5 |
| EU868.DefaultChannelsBanded | plans/ChannelPlan_EU868.cpp:146-160 | the join channels lie in band 1 (868-868.6 MHz) and allow DR0-5 |
| EU868.InitSettings | plans/ChannelPlan_EU868.cpp:53-233 | Init changes only the session: RX2, beacon and ping-slot defaults without hopping, DR0, configured power |
| EU868.GetAckTimeout | plans/ChannelPlan_EU868.cpp:414-423 | 2 s at RX2 DR0, halved per datarate up to DR2, 0 beyond |
| EU868.Rx1Datarate | plans/ChannelPlan_EU868.cpp:358-412 | the uplink datarate minus the offset, DR0 when the offset reaches it |
| EU868.Rx1DatarateMonotone | plans/ChannelPlan_EU868.cpp:358-412 | a larger offset never raises the RX1 datarate, a larger uplink datarate never lowers it |
| EU868.GetRxWindow | plans/ChannelPlan_EU868.cpp:358-412 | P2P, RX1 on the uplink channel, beacon, ping slot (multicast id - 1), class C multicast, or RX2 |
| EU868.Rx1BelowUplink | plans/ChannelPlan_EU868.cpp:358-412 | RX1 uses the uplink channel's frequency and never a datarate above the uplink's |
| EU868.Rx2FollowsSetup | plans/ChannelPlan_EU868.cpp:425-465 | an accepted RXParamSetupReq's RX2 parameters are what RX2 uses |
| EU868.ConductedPowerLimits | plans/ChannelPlan_EU868.cpp:277-315 | without int8_t wrap the radiated power stays within the band cap and the session power. CN470 SetTxConfig (lines 223-240) uses the same computation. |
| EU868.NewChannelEntry | plans/ChannelPlan_EU868.cpp:467-510 | a zero frequency deletes the channel and forces its DrRange to 0 |
| EU868.SetBitEnables | plans/ChannelPlan_EU868.cpp:506 | or-ing in bit index enables that channel and keeps the others |
| EU868.DefinedMaskBits | plans/ChannelPlan_EU868.cpp:615-625 | the control-6 mask enables exactly the defined channels |
| EU868.DefinedMaskStep | plans/ChannelPlan_EU868.cpp:618-623 | one step of the control-6 loop |
| EU868.Ctrl6EnablesDefined | plans/ChannelPlan_EU868.cpp:615-625 | after control 6 a channel is enabled exactly when it has a frequency |
| EU868.AdrMask | plans/ChannelPlan_EU868.cpp:609-632 | only controls 0 and 6 change the mask, which keeps one word |
| EU868.AdrConfigStatus | plans/ChannelPlan_EU868.cpp:651-676 | bit 1 iff DR > 5 under ADR, bit 2 iff power > 27 dBm under ADR, bit 0 iff an undefined channel 3-15 is enabled |
| EU868.InitMaskPassesAdr | plans/ChannelPlan_EU868.cpp:651-676 | Init's mask and channels pass the channel-mask check |
| EU868.DeletedChannelFailsAdr | plans/ChannelPlan_EU868.cpp:500-506 | a deleted channel keeps its mask bit, so ValidateAdrConfiguration then rejects the mask |
| EU868.EligibleFlags | plans/ChannelPlan_EU868.cpp:843-855 | flag ch is the search loop's test |
| EU868.CandidatesMembers | plans/ChannelPlan_EU868.cpp:843-855 | exactly the eligible channels, in increasing order |
| EU868.CandidatesHaveFrequency | plans/ChannelPlan_EU868.cpp:890-905 | every candidate has a nonzero in-region frequency; a deleted channel never is a candidate |
| EU868.ChannelWaits | plans/ChannelPlan_EU868.cpp:695-711 | one entry per channel of the scan |
| EU868.BandTermScan | plans/ChannelPlan_EU868.cpp:695-711 | the band term is 0 when a counted channel's band is free, never above a counted wait, and when positive equal to one |
| EU868.TimeOffAirIsLargestTerm | plans/ChannelPlan_EU868.cpp:678-732 | GetTimeOffAir is at least each of its three terms and equal to one |
| EU868.AggregatedAfter | plans/ChannelPlan_EU868.cpp:737-745 | the aggregated deadline is now + toa * divisor when MaxDutyCycle is 1-15, else 0 |
| EU868.UpdatedBandEffect | plans/ChannelPlan_EU868.cpp:747-767 | spans, caps and divisors kept; the uplink's band gets its full time-off (0 under the 7 dBm exemption); others only count down |
| EU868.UpdatedBandsShape | plans/ChannelPlan_EU868.cpp:735-769 | UpdateDutyCycle keeps the band table's shape |
| EU868.JoinDatarate | plans/ChannelPlan_EU868.cpp:915-936 | with random join datarates on, DevNonce % 20 gives DR0 at 0, DR1 at 16, DR2 at 12, DR3 at 8, DR4 at 4 and DR5 otherwise; else the session datarate |
| EU868.JoinDatarateOncePerCycle | plans/ChannelPlan_EU868.cpp:915-936 | any 20 consecutive nonces try each of DR0-4 exactly once |
| EU868.AcceptedCount | plans/ChannelPlan_EU868.cpp:254-266 | the count of taken CFList entries grows by at most one per entry |
| EU868.CfChannels | plans/ChannelPlan_EU868.cpp:254-266 | the CFList loop keeps 16 channels |
| EU868.CfMaskNext | plans/ChannelPlan_EU868.cpp:262-265 | a taken entry updates the mask word the earlier entries left |
| EU868.CfMaskUpdateBits | plans/ChannelPlan_EU868.cpp:263-265 | the update sets bit index or every other bit, and clears nothing |
| EU868.CfListStepKeepsBit | plans/ChannelPlan_EU868.cpp:254-266 | one entry never clears a mask bit |
| EU868.CfListMaskGrows | plans/ChannelPlan_EU868.cpp:254-266 | the whole loop never clears a mask bit |
| EU868.CfListKeeps | plans/ChannelPlan_EU868.cpp:254-266 | channels below 3 and past the last taken keep their entries |
| EU868.CfListPlaces | plans/ChannelPlan_EU868.cpp:254-266 | taken entry j lands in channel 3 + (entries taken before it), with DR0-5 |
| EU868.CfListBandedBit | plans/ChannelPlan_EU868.cpp:263-264 | a taken entry a band covers has its channel's bit set |
| EU868.CfListOutsideBands | plans/ChannelPlan_EU868.cpp:265 | a taken frequency no band covers enables every other channel, defined or not |
| EU868.ChannelPlan.constructor | plans/ChannelPlan_EU868.cpp:53-233 | a plan with the given settings and empty tables |
| EU868.ChannelPlan.AddChannel | plans/ChannelPlan_EU868.cpp:235-247 | overwrite channel index, or append for a negative index |
| EU868.ChannelPlan.Init | plans/ChannelPlan_EU868.cpp:53-233 | three join channels, thirteen empty ones, mask 0x0007, the six bands, InitSettings |
| EU868.ChannelPlan.AddDefaultBands | plans/ChannelPlan_EU868.cpp:178-230 | the six AddDutyBand calls leave DEFAULT_BANDS |
| EU868.ChannelPlan.DefineDefaultChannels | plans/ChannelPlan_EU868.cpp:150-168 | channels 0-2 are the join channels and 3-15 are empty |
| EU868.ChannelPlan.SetFrequencySubBand | plans/ChannelPlan_EU868.cpp:327-329 | no sub-bands: Ok and nothing changes |
| EU868.ChannelPlan.HandleJoinAccept | plans/ChannelPlan_EU868.cpp:249-275 | a type-0 CFList's taken frequencies become channels from 3 on and update mask word 0 (CfChannels, CfMask) |
| EU868.ChannelPlan.JoinAcceptEntry | plans/ChannelPlan_EU868.cpp:255-266 | one CFList entry: a taken frequency becomes channel index, updates the mask word and advances index |
| EU868.ChannelPlan.JoinAcceptStep | plans/ChannelPlan_EU868.cpp:254 | one iteration stays within the entries and the channel table |
| EU868.ChannelPlan.HandleRxParamSetup | plans/ChannelPlan_EU868.cpp:425-465 | bits 0-2 acknowledge frequency, RX2 DR0-5 and offset 0-5; applied only when all pass |
| EU868.ChannelPlan.HandleNewChannel | plans/ChannelPlan_EU868.cpp:467-510 | bit 0 rejects an index outside 3-15 or an out-of-region frequency, bit 1 a bad range; an accepted request stores the channel and sets its bit |
| EU868.ChannelPlan.HandlePingSlotChannelReq | plans/ChannelPlan_EU868.cpp:512-547 | frequency 0 restores the beacon frequency; applied only when both fields pass |
| EU868.ChannelPlan.HandleBeaconFrequencyReq | plans/ChannelPlan_EU868.cpp:549-576 | frequency 0 restores the default beacon frequency |
| EU868.ChannelPlan.DefinedChannelsMask | plans/ChannelPlan_EU868.cpp:615-625 | the control-6 loop computes DefinedMask |
| EU868.ChannelPlan.CommitAdr | plans/ChannelPlan_EU868.cpp:634-643 | datarate and TX_POWERS[power] unless 0xF, and the redundancy |
| EU868.ChannelPlan.HandleAdrCommand | plans/ChannelPlan_EU868.cpp:578-649 | bit 1 for DR > 5, bit 2 for power index > 7; control 0 writes the word, 6 enables the defined channels, others LORA_ERROR with bit 0 clear and nothing changed; commit under ADR on a full ack |
| EU868.ChannelPlan.AdrAck | plans/ChannelPlan_EU868.cpp:601-610 | the datarate and power acknowledgement bits |
| EU868.ChannelPlan.ValidateAdrConfiguration | plans/ChannelPlan_EU868.cpp:651-676 | the loop's status is AdrConfigStatus |
| EU868.ChannelPlan.GetTimeOffAir | plans/ChannelPlan_EU868.cpp:678-732 | equals TimeOffAir: the largest of the band, aggregated and join terms |
| EU868.ChannelPlan.ScanChannels | plans/ChannelPlan_EU868.cpp:695-711 | the scan loop computes MinWait over the channel waits |
| EU868.ChannelPlan.ChannelWaitOf | plans/ChannelPlan_EU868.cpp:696-709 | -1 for an uncounted channel, else its band's time left |
| EU868.ChannelPlan.UpdateDutyCycle | plans/ChannelPlan_EU868.cpp:735-769 | the aggregated deadline becomes AggregatedAfter and each band UpdatedBand |
| EU868.ChannelPlan.EnableDefaultChannels | plans/ChannelPlan_EU868.cpp:795-797 | bits 0-2 of word 0 are set |
| EU868.ChannelPlan.GetNextChannel | plans/ChannelPlan_EU868.cpp:799-912 | aggregated duty cycle refuses; a fixed frequency checks its band; otherwise bands released, Candidates listed, and Ok with a candidate or the kept channel |
| EU868.ChannelPlan.SearchChannel | plans/ChannelPlan_EU868.cpp:830-911 | the channel search against Candidates on the released bands |
| EU868.ChannelPlan.PickChannel | plans/ChannelPlan_EU868.cpp:880-895 | keeps the channel or picks a listed one |
| EU868.ChannelPlan.EnabledChannels | plans/ChannelPlan_EU868.cpp:843-855 | the array holds exactly Candidates |
| EU868.ChannelPlan.IsCandidate | plans/ChannelPlan_EU868.cpp:845-853 | the loop test is Eligible |
| EU868.ChannelPlan.ReleaseBands | plans/ChannelPlan_EU868.cpp:837-841 | the bands become ReleasedBands |
| EU868.ChannelPlan.ReleasedShape | plans/ChannelPlan_EU868.cpp:837-841 | releasing keeps the band table's shape |
| EU868.ChannelPlan.SetTxConfig | plans/ChannelPlan_EU868.cpp:277-315 | the radio index of getTxPowerIndex(ConductedPower); DR7 selects FSK with 25 kHz deviation |
| IN865.DatarateBandwidths | plans/ChannelPlan_IN865.cpp:52-190 | no 500 kHz datarate; only DR7 is FSK |
| IN865.DefaultBandsShape | plans/ChannelPlan_IN865.cpp:178-187 | Init's single band has the kept shape and no time-off |
| IN865.BandsLookup | plans/ChannelPlan_IN865.cpp:178-187 | a frequency in 865-867 MHz is in band 0, any other in none |
| IN865.DefaultChannel | plans/ChannelPlan_IN865.cpp:144-157 | the join channels are 865.0625, 865.4025 and 865.985 MHz with DR0-5 |
| IN865.DefaultChannelsBanded | plans/ChannelPlan_IN865.cpp:144-157 | the join channels are in the band and distinct |
| IN865.InitSettings | plans/ChannelPlan_IN865.cpp:52-190 | Init changes only the session: RX2 866.55 MHz DR2, beacon defaults, DR0, configured power |
| IN865.SkipDr6 | plans/ChannelPlan_IN865.cpp:366-369 | the RFU DR6 is read as DR5 |
| IN865.Rx1Datarate | plans/ChannelPlan_IN865.cpp:319-340 | offsets 6 and 7 raise the datarate by one and two, up to DR5; smaller ones lower it, down to DR0 |
| IN865.GetRxWindow | plans/ChannelPlan_IN865.cpp:309-372 | P2P, RX1, beacon, ping slot (Multicast[id]), class C multicast or RX2; never DR6 |
| IN865.Rx1BelowUplink | plans/ChannelPlan_IN865.cpp:309-372 | with offsets 0-5 RX1 follows the uplink channel at no higher datarate |
| IN865.Rx1RaisedOffsets | plans/ChannelPlan_IN865.cpp:319-340 | with offsets 6 and 7 RX1 is at or above the uplink datarate, within DR0-5 |
| IN865.Rx2FollowsSetup | plans/ChannelPlan_IN865.cpp:387-427 | an accepted RXParamSetupReq's RX2 parameters are what RX2 uses |
| IN865.NegativeMinAccepted | plans/ChannelPlan_IN865.cpp:455-459 | a range with Max in DR0-5 and a negative Min passes IN865's test but not EU868's |
| IN865.AdrConfigStatus | plans/ChannelPlan_IN865.cpp:613-638 | bit 1 iff DR > 5 under ADR, bit 2 iff power outside 0-30 dBm under ADR, bit 0 iff an undefined channel is enabled |
| IN865.InitMaskPassesAdr | plans/ChannelPlan_IN865.cpp:613-638 | Init's mask and channels pass |
| IN865.DeletedChannelFailsAdr | plans/ChannelPlan_IN865.cpp:462-468 | a deleted channel keeps its bit, so the mask is then rejected |
| IN865.CandidatesMembers | plans/ChannelPlan_IN865.cpp:800-816 | the candidates are the enabled channels allowing the datarate in a free band, in increasing order |
| IN865.NoTimeOffBandTerm | plans/ChannelPlan_IN865.cpp:640-694 | without time-off in the band, the band term is 0 |
| IN865.TimeOffAirTerms | plans/ChannelPlan_IN865.cpp:640-694 | GetTimeOffAir is at least each term and equal to one; once joined the join back-off no longer counts |
| IN865.UpdatedBandNoDutyCycle | plans/ChannelPlan_IN865.cpp:697-732 | with divisor 0 a deadline only decays or is cleared; a band without time-off stays so |
| IN865.UpdatedBandsShape | plans/ChannelPlan_IN865.cpp:697-732 | UpdateDutyCycle keeps the shape and a table without time-off |
| IN865.ReleasedShape | plans/ChannelPlan_IN865.cpp:800-804 | releasing keeps the shape and a table without time-off |
| IN865.NoTimeOffNeverBlocked | plans/ChannelPlan_IN865.cpp:776-784 | a band without time-off never blocks a fixed frequency |
| IN865.NextDatarate | plans/ChannelPlan_IN865.cpp:907-915 | one step up below DR5, DR6 to DR7; DR0-5 stay within DR0-5 |
| IN865.PrevDatarate | plans/ChannelPlan_IN865.cpp:917-924 | one step down above DR0, skipping DR6; never below DR0 |
| IN865.DatarateStepsInverse | plans/ChannelPlan_IN865.cpp:907-924 | within DR0-5 the two steps undo each other |
| IN865.AcceptedIsBanded | plans/ChannelPlan_IN865.cpp:211-224 | every taken CFList frequency is in the band |
| IN865.AcceptedCount | plans/ChannelPlan_IN865.cpp:211-224 | the count of taken entries grows by at most one per entry |
| IN865.CfChannels | plans/ChannelPlan_IN865.cpp:211-224 | the CFList loop keeps 16 channels |
| IN865.CfMaskNext | plans/ChannelPlan_IN865.cpp:219-224 | a taken entry updates the mask the earlier ones left |
| IN865.CfListStepKeepsBit | plans/ChannelPlan_IN865.cpp:211-224 | one entry never clears a bit |
| IN865.CfListMaskGrows | plans/ChannelPlan_IN865.cpp:211-224 | the loop never clears a bit |
| IN865.CfListKeeps | plans/ChannelPlan_IN865.cpp:211-224 | channels below 3 and past the last taken keep their entries |
| IN865.CfListPlaces | plans/ChannelPlan_IN865.cpp:211-224 | taken entry j lands in channel 3 + (entries taken before it) |
| IN865.CfListEnables | plans/ChannelPlan_IN865.cpp:219-224 | every channel the CFList defines is enabled |
| IN865.ChannelPlan.constructor | plans/ChannelPlan_IN865.cpp:52-190 | a plan with the given settings and empty tables |
| IN865.ChannelPlan.AddChannel | plans/ChannelPlan_IN865.cpp:192-204 | overwrite channel index, or append for a negative index |
| IN865.ChannelPlan.Init | plans/ChannelPlan_IN865.cpp:52-190 | three join channels, thirteen empty ones, mask 0x0007, the band without time-off, InitSettings |
| IN865.ChannelPlan.DefineDefaultChannels | plans/ChannelPlan_IN865.cpp:144-166 | channels 0-2 are the join channels and 3-15 empty |
| IN865.ChannelPlan.SetFrequencySubBand | plans/ChannelPlan_IN865.cpp:284-286 | no sub-bands: Ok and nothing changes |
| IN865.ChannelPlan.HandleMacCommand | plans/ChannelPlan_IN865.cpp:901-903 | no plan-specific MAC command: LORA_ERROR |
| IN865.ChannelPlan.HandleJoinAccept | plans/ChannelPlan_IN865.cpp:206-232 | a type-0 CFList's taken frequencies become channels from 3 on and update mask word 0 |
| IN865.ChannelPlan.JoinAcceptEntry | plans/ChannelPlan_IN865.cpp:212-224 | one CFList entry |
| IN865.ChannelPlan.JoinAcceptStep | plans/ChannelPlan_IN865.cpp:211 | one iteration stays within the entries and the table |
| IN865.ChannelPlan.HandleRxParamSetup | plans/ChannelPlan_IN865.cpp:387-427 | bits 0-2 for frequency, RX2 DR0-5 and offset 0-7; applied only when all pass |
| IN865.ChannelPlan.HandleNewChannel | plans/ChannelPlan_IN865.cpp:429-472 | bit 0 rejects index outside 3-15 or out-of-region frequency, bit 1 min above max or a bound above DR5; accepted stores the channel and sets its bit |
| IN865.ChannelPlan.HandlePingSlotChannelReq | plans/ChannelPlan_IN865.cpp:474-509 | frequency 0 restores the beacon frequency; applied only when both pass |
| IN865.ChannelPlan.HandleBeaconFrequencyReq | plans/ChannelPlan_IN865.cpp:511-537 | frequency 0 restores the default beacon frequency |
| IN865.ChannelPlan.DefinedChannelsMask | plans/ChannelPlan_IN865.cpp:577-587 | the control-6 loop's mask |
| IN865.ChannelPlan.CommitAdr | plans/ChannelPlan_IN865.cpp:596-605 | datarate and TX_POWERS[power] unless 0xF, and the redundancy |
| IN865.ChannelPlan.HandleAdrCommand | plans/ChannelPlan_IN865.cpp:539-611 | bit 1 for DR > 5, bit 2 for power index > 10; control 0 and 6 as EU868, others LORA_ERROR; commit under ADR on a full ack |
| IN865.ChannelPlan.AdrAck | plans/ChannelPlan_IN865.cpp:563-573 | the datarate and power acknowledgement bits |
| IN865.ChannelPlan.ValidateAdrConfiguration | plans/ChannelPlan_IN865.cpp:613-638 | the status is AdrConfigStatus |
| IN865.ChannelPlan.GetTimeOffAir | plans/ChannelPlan_IN865.cpp:640-694 | equals TimeOffAir over the band, aggregated and join terms |
| IN865.ChannelPlan.ScanChannels | plans/ChannelPlan_IN865.cpp:657-673 | the scan computes MinWait |
| IN865.ChannelPlan.ChannelWaitOf | plans/ChannelPlan_IN865.cpp:658-672 | -1 for an uncounted channel, else its band's time left |
| IN865.ChannelPlan.UpdateDutyCycle | plans/ChannelPlan_IN865.cpp:697-732 | aggregated deadline and UpdatedBand for the band; no time-off stays none |
| IN865.ChannelPlan.EnableDefaultChannels | plans/ChannelPlan_IN865.cpp:758-760 | bits 0-2 of word 0 set |
| IN865.ChannelPlan.IncrementDatarate | plans/ChannelPlan_IN865.cpp:907-915 | the session datarate becomes NextDatarate |
| IN865.ChannelPlan.DecrementDatarate | plans/ChannelPlan_IN865.cpp:917-924 | the session datarate becomes PrevDatarate |
| IN865.ChannelPlan.GetNextChannel | plans/ChannelPlan_IN865.cpp:762-874 | as EU868; a fixed frequency is never blocked while the band has no time-off |
| IN865.ChannelPlan.SearchChannel | plans/ChannelPlan_IN865.cpp:793-873 | the channel search against Candidates |
| IN865.ChannelPlan.PickChannel | plans/ChannelPlan_IN865.cpp:843-858 | keeps the channel or picks a listed one |
| IN865.ChannelPlan.EnabledChannels | plans/ChannelPlan_IN865.cpp:806-816 | the array holds exactly Candidates |
| IN865.ChannelPlan.IsCandidate | plans/ChannelPlan_IN865.cpp:808-815 | the loop test is Eligible |
| IN865.ChannelPlan.ReleaseBands | plans/ChannelPlan_IN865.cpp:800-804 | the bands become ReleasedBands |
| IN865.ChannelPlan.SetTxConfig | plans/ChannelPlan_IN865.cpp:234-272 | radio index of getTxPowerIndex(ConductedPower); DR7 selects FSK |
| CN470.DatarateBandwidths | plans/ChannelPlan_CN470.cpp:112-125 | every datarate is 125 kHz LoRa, RFU exactly above DR5 |
| CN470.MaskSize | plans/ChannelPlan_CN470.cpp:110 | 96 + 0 channels need six mask words |
| CN470.GetChannel | plans/ChannelPlan_CN470.cpp:295-311 | channels 0-95 lie in the region with range DR1-5; beyond, a zeroed channel |
| CN470.ChannelGrid | plans/ChannelPlan_CN470.cpp:302-307 | channel n at 470.3 + 0.2 n MHz, at most 489.3 MHz, all distinct |
| CN470.GridInDefaultBand | plans/ChannelPlan_CN470.cpp:79-134 | every grid channel is in the single band |
| CN470.SubBandMask | plans/ChannelPlan_CN470.cpp:313-336 | the sub-band mask has six words |
| CN470.SubBandEnables | plans/ChannelPlan_CN470.cpp:313-336 | sub-band 1-12 enables exactly channels 8(sb-1) .. 8sb-1; any other value all 96 |
| CN470.EnabledCount | plans/ChannelPlan_CN470.cpp:640-645 | the CountBits sum over six words is at most 96 and fits uint8_t |
| CN470.EnabledCountZero | plans/ChannelPlan_CN470.cpp:640-649 | the count is 0 exactly when every mask word is 0 |
| CN470.SubBandWordCount | plans/ChannelPlan_CN470.cpp:318-324 | word i counts 8 when it holds the sub-band, else 0 |
| CN470.SubBandWords | plans/ChannelPlan_CN470.cpp:318-324 | a sub-band mask counts 8 channels |
| CN470.SubBandCounts | plans/ChannelPlan_CN470.cpp:313-336 | a sub-band mask enables 8 channels, the all-channel mask 96 |
| CN470.ValidateAdrConfiguration | plans/ChannelPlan_CN470.cpp:623-653 | bit 1 iff DR > 5 under ADR, bit 2 iff power outside 0-30 dBm under ADR, bit 0 iff no channel is enabled |
| CN470.SubBandMaskPassesAdr | plans/ChannelPlan_CN470.cpp:623-653 | every mask SetFrequencySubBand installs passes the channel-mask check |
| CN470.Rx1Channel | plans/ChannelPlan_CN470.cpp:368 | RX1 uses downlink channel txChannel % 48: the same for 0-47, ch - 48 for 48-95 |
| CN470.Rx1Datarate | plans/ChannelPlan_CN470.cpp:370-375 | the uplink datarate lowered by the offset, DR0 at the least |
| CN470.GetRxWindow | plans/ChannelPlan_CN470.cpp:358-413 | P2P uses the uplink frequency and datarate; RX1, beacon (DR2), ping slot (Multicast[id] for 1-7), active class C multicast (Multicast[id - 1]), else RX2 |
| CN470.Rx1Bounds | plans/ChannelPlan_CN470.cpp:366-376 | RX1 is on the 500.3-509.7 MHz downlink grid within the region; for DR1-5 and offset 0-3 its datarate is between the uplink's minus the offset and the uplink's |
| CN470.Rx2FollowsSetup | plans/ChannelPlan_CN470.cpp:415-455 | an accepted RXParamSetupReq's RX2 parameters are what RX2 uses |
| CN470.HopFrequency | plans/ChannelPlan_CN470.cpp:875-899 | a hopped frequency is one of the 8 beacon frequencies from 500.3 MHz in 200 kHz steps, within the region |
| CN470.HopNext | plans/ChannelPlan_CN470.cpp:875-899 | one period later the frequency is 200 kHz higher, or back to 500.3 MHz after the eighth channel |
| CN470.AdrMask | plans/ChannelPlan_CN470.cpp:578-601 | the LinkADRReq mask keeps six words |
| CN470.AdrMaskChannels | plans/ChannelPlan_CN470.cpp:578-601 | ChMaskCntl 0-5 sets the channels of word ctrl from ChMask and keeps the rest; 6 enables every channel; a refused control changes none |
| CN470.RadioPowerIndex | plans/ChannelPlan_CN470.cpp:242-273 | for an int8_t index, 0 is raised to 1 and the result lowered by one, in int8_t |
| CN470.RadioPowerRange | plans/ChannelPlan_CN470.cpp:242-273 | indices 0-22 become radio indices 0-21; 0 and 1 both become 0 |
| CN470.EligibleFlags | plans/ChannelPlan_CN470.cpp:765-775 | flag ch is the search loop's test |
| CN470.CandidatesAreEnabledChannels | plans/ChannelPlan_CN470.cpp:748-775 | with the single band free, the candidates are exactly the enabled channels for DR1-5, none otherwise, in increasing order |
| CN470.CandidatesHaveFrequency | plans/ChannelPlan_CN470.cpp:804-810 | every candidate has a nonzero frequency, as the assert requires |
| CN470.JoinDatarate | plans/ChannelPlan_CN470.cpp:819-838 | with random join datarates on, always DR1-5; off, the session datarate |
| CN470.JoinDatarateCycle | plans/ChannelPlan_CN470.cpp:819-838 | nonce 20k + r joins at JOIN_DATARATES[r]: DR1 at residues 0 and 16, DR2 at 12, DR3 at 8, DR4 at 4, DR5 otherwise; never DR0 |
| CN470.InitSettings | plans/ChannelPlan_CN470.cpp:54-143 | Init changes only the session: RX2 505.3 MHz DR0, hopping beacon and ping slot at 500.3 MHz DR2, DR0, configured power |
| CN470.FrequenciesInRegion | plans/ChannelPlan_CN470.h:29-50 | RX2, the beacon base, the uplink grid and the RX1 grid all lie within 470-510 MHz |
| CN470.ChannelPlan.constructor | plans/ChannelPlan_CN470.cpp:54-143 | a plan with the given settings and empty tables |
| CN470.ChannelPlan.SetNumberOfChannels | plans/ChannelPlan_CN470.cpp:170-180 | the mask is resized to MaskWords(channels) and the count stored |
| CN470.ChannelPlan.SetFrequencySubBand | plans/ChannelPlan_CN470.cpp:313-336 | the mask becomes SubBandMask(sb), the sub-band is stored, Ok |
| CN470.ChannelPlan.EnableDefaultChannels | plans/ChannelPlan_CN470.cpp:723-725 | the mask of the configured sub-band |
| CN470.ChannelPlan.Init | plans/ChannelPlan_CN470.cpp:54-143 | a six-word sub-band mask, the single 17 dBm band without duty cycle, InitSettings |
| CN470.ChannelPlan.HandleJoinAccept | plans/ChannelPlan_CN470.cpp:150-168 | a CFList is ignored; the configured sub-band's mask is restored; Ok |
| CN470.ChannelPlan.HandleRxParamSetup | plans/ChannelPlan_CN470.cpp:415-455 | bits 0-2 acknowledge frequency, RX2 DR0-5 and offset 0-3; all three applied only when all pass |
| CN470.ChannelPlan.RxParamAck | plans/ChannelPlan_CN470.cpp:430-443 | each acknowledgement bit is set exactly when its field passes |
| CN470.ChannelPlan.HandleNewChannel | plans/ChannelPlan_CN470.cpp:457-462 | unsupported, status 0 |
| CN470.ChannelPlan.HandleDownlinkChannelReq | plans/ChannelPlan_CN470.cpp:464-469 | unsupported, status 0 |
| CN470.ChannelPlan.SetDutyBandDutyCycle | plans/ChannelPlan_CN470.cpp:719-721 | unsupported |
| CN470.ChannelPlan.HandlePingSlotChannelReq | plans/ChannelPlan_CN470.cpp:471-509 | frequency 0 restores 500.3 MHz with hopping; frequency and DR0-5 applied only when both pass |
| CN470.ChannelPlan.HandleBeaconFrequencyReq | plans/ChannelPlan_CN470.cpp:511-540 | frequency 0 restores 500.3 MHz with hopping; a rejected frequency changes nothing |
| CN470.ChannelPlan.ApplyChannelMask | plans/ChannelPlan_CN470.cpp:578-595 | the accepted controls 0-6 leave AdrMask |
| CN470.ChannelPlan.AdrAck | plans/ChannelPlan_CN470.cpp:551-576 | bit 1 clear iff DR > 5, bit 2 iff power index > 8 (0xF exempt) |
| CN470.ChannelPlan.HandleAdrCommand | plans/ChannelPlan_CN470.cpp:543-621 | datarate and power bits; control 0-5 writes a word, 6 enables all; 7 is LORA_ERROR with bit 0 clear and nothing changed; under ADR a full ack commits datarate, power and NbRep (0 read as 1) |
| CN470.ChannelPlan.CommitAdr | plans/ChannelPlan_CN470.cpp:603-611 | datarate and TX_POWERS[power] unless 0xF, and the redundancy |
| CN470.ChannelPlan.CountEnabled | plans/ChannelPlan_CN470.cpp:640-645 | the CountBits sum is EnabledCount |
| CN470.ChannelPlan.GetNextChannel | plans/ChannelPlan_CN470.cpp:727-817 | aggregated duty cycle refuses; a fixed frequency checks its band; otherwise bands released, and Ok exactly when there is a candidate, the transmit channel then being one |
| CN470.ChannelPlan.SearchChannel | plans/ChannelPlan_CN470.cpp:748-817 | the search against Candidates on the released bands; the pick always succeeds |
| CN470.ChannelPlan.PickChannel | plans/ChannelPlan_CN470.cpp:804-808 | the transmit channel becomes one of the listed channels |
| CN470.ChannelPlan.EnabledChannels | plans/ChannelPlan_CN470.cpp:765-775 | the array holds exactly Candidates, in order |
| CN470.ChannelPlan.IsCandidate | plans/ChannelPlan_CN470.cpp:766-774 | the loop test is Eligible |
| CN470.ChannelPlan.ReleaseBands | plans/ChannelPlan_CN470.cpp:759-763 | the bands become ReleasedBands |
| CN470.ChannelPlan.SetTxConfig | plans/ChannelPlan_CN470.cpp:219-278 | always LoRa with no deviation; power index RadioPowerIndex(getTxPowerIndex(ConductedPower)) |
| CN470.ChannelPlan.FrequencyHop | plans/ChannelPlan_CN470.cpp:875-899 | with hopping on, the beacon, ping slot and each addressed multicast session move to HopFrequency; nothing else changes |

## Left out

- Radio I/O: what is handed to the radio is not modelled (SetChannel, the
  SetTxConfig call, IsChannelFree). SetTxConfig returns the modem, power index
  and deviation it computes. Bandwidth, coding rate, preamble, CRC and IQ are
  copied from the datarate table and left out.
- Channel activity detection: the CAD branch of GetNextChannel (a timed loop
  over IsChannelFree) is left out. The non-CAD branch is modelled.
- The random channel selector (`_randomChannel`, `rand_r`):
  - its pick is non-deterministic in the model;
  - its internal state, reset in HandleJoinAccept, is left out;
  - in US915, EU868 and IN865 the pick may fail, keeping the channel.
- Timers and the wall clock are parameters. CRC16, CheckRfFrequency and
  getTxPowerIndex are uninterpreted function parameters. The CRC polynomial,
  the radio's frequency test and the power table are not part of this model.
- Logging, `_dlChannels` and DlChannelReq storage (EU868, IN865), the
  MAX_PAYLOAD_SIZE tables, DefaultLBT, the plan name and the plan
  identifiers are left out.
- GetChannels and GetChannelRanges (all plans) are left out: they only build
  vectors for the application.
- LogRxWindow is left out; it only logs.
- GetMinDatarate and GetMaxDatarate are not separate members. They return
  constants that the model uses directly (US915's peer-to-peer maximum is
  `US915.MaxDatarate`).
- SetRx1Offset, SetRx2Frequency and SetRx2DatarateIndex are inlined into
  HandleRxParamSetup. Each stores one session field.
- Shared code that is not part of this model: ChannelPlan.cpp and Lora.h.
  - From their use, the model defines GetDutyBand, SetChannelMask, CountBits,
    AddDutyBand and the DrRange layout.
  - CN470 GetAckTimeout is declared as a CN470 override
    (plans/ChannelPlan_CN470.h:115), but no file of this model defines it, so it
    is left out.
  - CN470 UpdateDutyCycle is inherited from the base class and is left out.
- US915 AddChannel and CN470 AddChannel are left out. Nothing in the plan
  calls them, and Init leaves the channel table empty, so GetChannel is the
  fixed grid.
- CN470 SetTxConfig computes `chans_enabled` and never uses it, so it is
  left out.
- The widths of the Settings fields are not imposed: the model uses unbounded
  naturals for Lora.h's uint8_t and uint16_t fields. Truncation is written
  out where the plans' own code truncates: uint32_t sums in hopping and
  GetTimeOffAir, and int8_t power arithmetic.
- GetNextChannel: the US915, EU868 and IN865 versions promise about the pick
  only that the transmit channel is a candidate or the old one, because the
  random selector may fail.
- EU868.ConductedPowerLimits: it holds only when no int8_t wrap-around occurs
  (powers and gain within int8_t), which the source does not check.
- IN865.ChannelPlan.JoinAcceptEntry: it requires only the table shape, not
  all of Valid, so that the CFList loop can call it.
- Beacon.DecodeBeacon: the beacon layouts of US915, EU868 and IN865 are taken
  from CN470's 23-byte BCNPayload (plans/ChannelPlan_CN470.h:304-311), because
  their headers are not part of this model. EU868's code reads a single `RFU`
  field and computes CRC2 over GwSpecific alone; only that CRC2 span is
  modelled for it (Beacon.Rfu2IgnoredWithoutSpan), not its real field sizes.
- EU868.BandTerm, EU868.TimeOffAir, EU868.TimeOffAirIsLargestTerm,
  EU868.ChannelPlan.GetTimeOffAir, IN865.BandTerm, IN865.TimeOffAir,
  IN865.NoTimeOffBandTerm, IN865.TimeOffAirTerms and
  IN865.ChannelPlan.GetTimeOffAir: they require the fixed transmit frequency
  to lie in a duty band. When it lies in none, the source reads
  `_dutyBands[-1]`, and its behaviour is undefined there
  (plans/ChannelPlan_EU868.cpp:688-689, plans/ChannelPlan_IN865.cpp:650-651).
  EU868.BandedFrequencyInRegion likewise speaks only of frequencies a band
  covers.
- US915.ChannelPlan.SetTxConfig, EU868.ChannelPlan.SetTxConfig,
  IN865.ChannelPlan.SetTxConfig and CN470.ChannelPlan.SetTxConfig: they require
  the transmit channel's frequency to lie in a duty band. When it lies in none,
  the source stores -1 in a `uint8_t band` and reads `_dutyBands[255]`, and its
  behaviour is undefined there (plans/ChannelPlan_EU868.cpp:279-281,
  plans/ChannelPlan_IN865.cpp:236-238). The model's states do reach this case:
  a NewChannelReq with frequency 0 on the transmit channel's index empties
  that channel.
- US915.ChannelPlan.HandleJoinAccept, EU868.ChannelPlan.HandleJoinAccept and
  IN865.ChannelPlan.HandleJoinAccept: they require the buffer to hold byte 28
  whenever size > 17. The source reads `buffer[28]` then, and its behaviour is
  undefined on a shorter buffer. The EU868 and IN865 versions also require the
  accepted CFList entries to fit the 16-channel table. There the source writes
  `_channels[index++]` with no bound, and its behaviour on an oversized frame
  is undefined.
- US915.HopChannel, US915.HopFrequency, US915.HopChannelIgnoresWrap,
  US915.HopAdvances, US915.ChannelPlan.FrequencyHop, CN470.HopFrequency,
  CN470.HopNext and CN470.ChannelPlan.FrequencyHop: they require period > 0.
  The source divides `time / period` with no guard, and its behaviour is
  undefined for period 0 (plans/ChannelPlan_US915.cpp:1023-1036,
  plans/ChannelPlan_CN470.cpp:880-893).
- Compile-time switches are fixed at their defaults:
  ENABLE_LORAWAN_OPTIONAL_DATARATES and CERTIFICATION_DATARATES are off.
