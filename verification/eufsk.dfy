/**
 * The EuFSK variant: the EU863-870 plan of the LoRaWAN Regional Parameters
 * (RP002, section 2.4) with DR7 as FSK at 50 kbps.
 */
module EuFSKRegion {
  import opened LoRaWAN
  import opened RegionalParameters
  import Decimal

  /** Data rates DR0..DR7 of section 2.4.3 of RP002. */
  const DataRates: seq<DataRate> := [
    LoRa(12, 125), LoRa(11, 125), LoRa(10, 125), LoRa(9, 125),
    LoRa(8, 125), LoRa(7, 125), LoRa(7, 250), FSK(50000)]

  /** Maximum (M, N) payload sizes per data rate, section 2.4.6 of RP002. */
  const PayloadSizes: seq<(int, int)> := [
    (59, 51), (59, 51), (59, 51), (123, 115),
    (230, 222), (230, 222), (230, 222), (230, 222)]

  /** The table `Setup` fills, given the Class B record it builds. */
  function Plan(classB: InfoClassB): Parameters
  {
    Parameters(
      Code := CodeEuFSK,
      MinFrequency := 863000000, MaxFrequency := 870000000,
      FrequencyRX2 := 869525000, DataRateRX2 := 0,
      MinDataRate := 0, MaxDataRate := 7,
      MinRX1DROffset := 0, MaxRX1DROffset := 5,
      InfoGroupChannels := [InfoGroupChannels(true, 868100000, 200000, 0, 5, 3)],
      InfoClassB := classB)
  }

  class EuFSK {
    var Info: Parameters

    /** True once `Setup` has filled the table. */
    ghost predicate IsSetUp()
      reads this
    {
      Info == Plan(Info.InfoClassB)
    }

    /**
     * Fills the table. `classB` is the record `InfoClassB.Setup(869525000,
     * 869525000, 3, 0, 7)` produces; that helper is not part of this model.
     */
    method Setup(classB: InfoClassB)
      modifies this
      ensures Info == Plan(classB) && IsSetUp()
    {
      Info := Info.(Code := CodeEuFSK);
      Info := Info.(MinFrequency := 863000000, MaxFrequency := 870000000);
      Info := Info.(FrequencyRX2 := 869525000, DataRateRX2 := 0);
      Info := Info.(MinDataRate := 0, MaxDataRate := 7);
      Info := Info.(MinRX1DROffset := 0, MaxRX1DROffset := 5);
      Info := Info.(InfoGroupChannels := [InfoGroupChannels(true, 868100000, 200000, 0, 5, 3)]);
      Info := Info.(InfoClassB := classB);
    }

    /** The modulation and its parameter string for a data-rate index; ("", "") beyond DR7. */
    function GetDataRate(datarate: uint8): (r: (string, string))
      ensures r == if (datarate as int) < |DataRates| then Render(DataRates[datarate]) else ("", "")
    {
      if datarate <= 5 then
        assert Decimal.Format(125) == "125";
        assert DataRates[datarate] == LoRa(12 - datarate as nat, 125);
        var sf := "SF" + Decimal.Format(12 - datarate as nat);
        assert sf + "BW" + Decimal.Format(125) == sf + "BW125";
        ("LORA", "SF" + Decimal.Format(12 - datarate as nat) + "BW125")
      else if datarate == 6 then
        assert Decimal.Format(7) == "7" && Decimal.Format(250) == "250";
        assert "SF" + "7" + "BW" + "250" == "SF7BW250";
        ("LORA", "SF7BW250")
      else if datarate == 7 then
        assert Decimal.Format(50000) == "50000";
        ("FSK", "50000")
      else ("", "")
    }

    function FrequencySupported(frequency: uint32): (r: Outcome)
      reads this
      ensures r.Pass? <==> Info.MinFrequency <= frequency <= Info.MaxFrequency
      ensures r.Fail? ==> r.message == "Frequency not supported"
    {
      if frequency < Info.MinFrequency || frequency > Info.MaxFrequency then Fail("Frequency not supported")
      else Pass
    }

    function DataRateSupported(datarate: uint8): (r: Outcome)
      reads this
      ensures r.Pass? <==> Info.MinDataRate <= datarate <= Info.MaxDataRate
      ensures r.Fail? ==> r.message == "Invalid Data Rate"
    {
      if datarate < Info.MinDataRate || datarate > Info.MaxDataRate then Fail("Invalid Data Rate")
      else Pass
    }

    function RX1DROffsetSupported(offset: uint8): (r: Outcome)
      reads this
      ensures r.Pass? <==> Info.MinRX1DROffset <= offset <= Info.MaxRX1DROffset
      ensures r.Fail? ==> r.message == "Invalid RX1DROffset"
    {
      if offset >= Info.MinRX1DROffset && offset <= Info.MaxRX1DROffset then Pass
      else Fail("Invalid RX1DROffset")
    }

    /** The region code, the one the plan records. */
    function GetCode(): (c: RegionCode)
      reads this
      ensures c == Plan(Info.InfoClassB).Code
      ensures IsSetUp() ==> c == Info.Code
    {
      CodeEuFSK
    }

    /** The lowest data rate the table supports: no supported data rate is below it. */
    function GetMinDataRate(): (r: uint8)
      reads this
      ensures forall dr :: DataRateSupported(dr).Pass? ==> r <= dr
      ensures r <= Info.MaxDataRate ==> DataRateSupported(r).Pass?
      ensures IsSetUp() ==> r == 0
    {
      Info.MinDataRate
    }

    /** The highest data rate the table supports: no supported data rate is above it. */
    function GetMaxDataRate(): (r: uint8)
      reads this
      ensures forall dr :: DataRateSupported(dr).Pass? ==> dr <= r
      ensures Info.MinDataRate <= r ==> DataRateSupported(r).Pass?
      ensures IsSetUp() ==> r == 7
    {
      Info.MaxDataRate
    }

    /** The reserved-channel count of the first group (indexing an empty group list panics in the source). */
    function GetNbReservedChannels(): (n: int)
      reads this
      requires |Info.InfoGroupChannels| > 0
      ensures n == Info.InfoGroupChannels[0].NbReservedChannels
      ensures IsSetUp() ==> n == 3
    {
      Info.InfoGroupChannels[0].NbReservedChannels
    }

    /** The beacon frequency of the stored Class B record. */
    function GetFrequencyBeacon(): (f: uint32)
      reads this
      ensures f == Info.InfoClassB.FrequencyBeacon
    {
      Info.InfoClassB.FrequencyBeacon
    }

    /** The beacon data rate of the stored Class B record. */
    function GetDataRateBeacon(): (dr: uint8)
      reads this
      ensures dr == Info.InfoClassB.DataRate
    {
      Info.InfoClassB.DataRate
    }

    /** The whole table; after `Setup` it is the plan. */
    function GetParameters(): (p: Parameters)
      reads this
      ensures p == Info
      ensures IsSetUp() ==> p == Plan(p.InfoClassB)
    {
      Info
    }

    /** The channels of the first group (indexing an empty group list panics in the source). */
    method GetChannels() returns (channels: seq<Channel>)
      requires |Info.InfoGroupChannels| > 0
      ensures |channels| == if GetNbReservedChannels() > 0 then GetNbReservedChannels() else 0
      ensures forall i :: 0 <= i < |channels| ==>
        var f := ChannelFrequency(Info.InfoGroupChannels[0], i);
        channels[i] == Channel(true, Info.InfoGroupChannels[0].EnableUplink, f, f, 0, 5)
    {
      channels := GroupChannels(Info.InfoGroupChannels[0]);
    }

    /** RX1 data rate is the uplink data rate minus the offset, floored at 0; the channel is kept. */
    function SetupRX1(datarate: uint8, rx1offset: uint8, indexChannel: int, dtime: DwellTime): (r: (uint8, int))
      ensures r.0 as int == if datarate as int - rx1offset as int > 0 then datarate as int - rx1offset as int else 0
      ensures r.1 == indexChannel
    {
      var dataRateRx1: uint8 := if datarate > rx1offset then datarate - rx1offset else 0;
      (dataRateRx1, indexChannel)
    }

    /**
     * The DR5 parameter string and the channel to use: an index at or above
     * the number of reserved channels is replaced by `rnd` (the source's
     * `rand.Int()`, never negative) modulo that number.
     */
    function SetupInfoRequest(indexChannel: int, rnd: nat): (r: (string, int))
      reads this
      requires |Info.InfoGroupChannels| > 0
      requires indexChannel >= GetNbReservedChannels() ==> GetNbReservedChannels() != 0
      ensures r.0 == "SF7BW125"
      ensures indexChannel < GetNbReservedChannels() ==> r.1 == indexChannel
      ensures indexChannel >= GetNbReservedChannels() > 0 ==> 0 <= r.1 < GetNbReservedChannels()
    {
      var index := if indexChannel >= GetNbReservedChannels() then rnd % GetNbReservedChannels() else indexChannel;
      (GetDataRate(5).1, index)
    }

    /** (M, N) for the tier holding `datarate`; the dwell-time flag plays no part. */
    function GetPayloadSize(datarate: uint8, dTime: DwellTime): (r: (int, int))
      ensures r == if (datarate as int) < |PayloadSizes| then PayloadSizes[datarate] else (0, 0)
    {
      if datarate <= 2 then (59, 51)
      else if datarate == 3 then (123, 115)
      else if datarate <= 7 then (230, 222)
      else (0, 0)
    }
  }

  /** After `Setup`: the three ranges are exactly those of the plan, both ends included. */
  lemma SupportedRanges(eu: EuFSK, f: uint32, dr: uint8, offset: uint8)
    requires eu.IsSetUp()
    ensures eu.FrequencySupported(f).Pass? <==> 863000000 <= f <= 870000000
    ensures eu.DataRateSupported(dr).Pass? <==> dr <= 7
    ensures eu.RX1DROffsetSupported(offset).Pass? <==> offset <= 5
    ensures eu.FrequencySupported(862000000).Fail? && eu.FrequencySupported(868100000).Pass?
    ensures eu.GetMinDataRate() == 0 && eu.GetMaxDataRate() == 7 && eu.GetNbReservedChannels() == 3
    ensures eu.Info.FrequencyRX2 == 869525000 && eu.Info.DataRateRX2 == 0
  {
  }

  /** A data rate is supported exactly when it has a name, and distinct ones have distinct names. */
  lemma DataRateNames(eu: EuFSK, dr: uint8, other: uint8)
    requires eu.IsSetUp()
    ensures eu.DataRateSupported(dr).Pass? <==> eu.GetDataRate(dr) != ("", "")
    ensures eu.DataRateSupported(dr).Pass? && dr != other ==> eu.GetDataRate(dr) != eu.GetDataRate(other)
  {
    if eu.DataRateSupported(dr).Pass? && dr != other && eu.GetDataRate(dr) == eu.GetDataRate(other) {
      if other <= 7 {
        RenderInjective(DataRates[dr], DataRates[other]);
      }
    }
  }

  /** Channel i of the plan sits at 868100000 + 200000 * i, a supported frequency, and its DR range is supported. */
  lemma PlanChannels(eu: EuFSK, i: nat)
    requires eu.IsSetUp() && i < 3
    ensures ChannelFrequency(eu.Info.InfoGroupChannels[0], i) as int == 868100000 + 200000 * i
    ensures eu.FrequencySupported(ChannelFrequency(eu.Info.InfoGroupChannels[0], i)).Pass?
    ensures eu.DataRateSupported(0).Pass? && eu.DataRateSupported(5).Pass?
  {
    ChannelFrequencyExact(eu.Info.InfoGroupChannels[0], i);
  }

  /** A supported data rate with a supported offset gives a supported RX1 data rate. */
  lemma RX1StaysSupported(eu: EuFSK, dr: uint8, offset: uint8, index: int, dtime: DwellTime)
    requires eu.IsSetUp()
    requires eu.DataRateSupported(dr).Pass? && eu.RX1DROffsetSupported(offset).Pass?
    ensures eu.DataRateSupported(eu.SetupRX1(dr, offset, index, dtime).0).Pass?
    ensures eu.SetupRX1(dr, offset, index, dtime).0 <= dr
  {
  }

  /**
   * The payload tiers: N is M less the 8 bytes of frame header and port, a
   * limit exists exactly for the supported data rates, and it never shrinks
   * as the data rate rises.
   */
  lemma PayloadTiers(eu: EuFSK, dr: uint8, higher: uint8, d: DwellTime, e: DwellTime)
    requires eu.IsSetUp()
    ensures eu.GetPayloadSize(dr, d) == eu.GetPayloadSize(dr, e)
    ensures eu.GetPayloadSize(dr, d).0 > 0 <==> eu.DataRateSupported(dr).Pass?
    ensures eu.GetPayloadSize(dr, d).0 > 0 ==> eu.GetPayloadSize(dr, d).1 == eu.GetPayloadSize(dr, d).0 - 8
    ensures dr <= higher <= 7 ==> eu.GetPayloadSize(dr, d).0 <= eu.GetPayloadSize(higher, d).0
  {
  }
}
