/**
 * The Ql256 variant: a narrowband plan at 256.1-257.5 MHz with a single
 * data rate, DR7, which is LoRa SF5 at 125 kHz.
 */
module Ql256Region {
  import opened LoRaWAN
  import opened RegionalParameters
  import Decimal

  /** The data rate an index stands for in this plan: only DR7 exists. */
  function DataRateOf(datarate: uint8): Option<DataRate>
  {
    if datarate == 7 then Some(LoRa(5, 125)) else None
  }

  /** The table `Setup` fills, given the Class B record it builds. */
  function Plan(classB: InfoClassB): Parameters
  {
    Parameters(
      Code := CodeQl256,
      MinFrequency := 256100000, MaxFrequency := 257500000,
      FrequencyRX2 := 256700000, DataRateRX2 := 7,
      MinDataRate := 7, MaxDataRate := 7,
      MinRX1DROffset := 0, MaxRX1DROffset := 0,
      InfoGroupChannels := [InfoGroupChannels(true, 256100000, 200000, 7, 7, 3)],
      InfoClassB := classB)
  }

  class Ql256 {
    var Info: Parameters

    /** True once `Setup` has filled the table. */
    ghost predicate IsSetUp()
      reads this
    {
      Info == Plan(Info.InfoClassB)
    }

    /**
     * Fills the table. `classB` is the record `InfoClassB.Setup(256700000,
     * 256700000, 3, 7, 7)` produces; that helper is not part of this model.
     */
    method Setup(classB: InfoClassB)
      modifies this
      ensures Info == Plan(classB) && IsSetUp()
    {
      Info := Info.(Code := CodeQl256);
      Info := Info.(MinFrequency := 256100000, MaxFrequency := 257500000);
      Info := Info.(FrequencyRX2 := 256700000, DataRateRX2 := 7);
      Info := Info.(MinDataRate := 7, MaxDataRate := 7);
      Info := Info.(MinRX1DROffset := 0, MaxRX1DROffset := 0);
      Info := Info.(InfoGroupChannels := [InfoGroupChannels(true, 256100000, 200000, 7, 7, 3)]);
      Info := Info.(InfoClassB := classB);
    }

    /** ("LORA", "SF5BW125") for DR7, the plan's one data rate; ("", "") for every other index. */
    function GetDataRate(datarate: uint8): (r: (string, string))
      ensures r == match DataRateOf(datarate) case Some(d) => Render(d) case None => ("", "")
      ensures datarate == 7 ==> r == ("LORA", "SF5BW125")
    {
      if datarate == 7 then
        assert Decimal.Format(125) == "125" && Decimal.Format(5) == "5";
        assert "SF" + "5" + "BW" + "125" == "SF5BW125";
        assert "SF" + "5" + "BW125" == "SF5BW125";
        ("LORA", "SF" + Decimal.Format(12 - datarate as nat) + "BW125")
      else ("", "")
    }

    function FrequencySupported(frequency: uint32): (r: Outcome)
      reads this
      ensures r.Pass? <==> Info.MinFrequency <= frequency <= Info.MaxFrequency
      ensures r.Fail? ==> r.message == "Frequency not supported"
    {
      if frequency < Info.MinFrequency || frequency > Info.MaxFrequency then Fail("Frequency not supported")
      else Pass
    }

    function DataRateSupported(datarate: uint8): (r: Outcome)
      reads this
      ensures r.Pass? <==> Info.MinDataRate <= datarate <= Info.MaxDataRate
      ensures r.Fail? ==> r.message == "Invalid Data Rate"
    {
      if datarate < Info.MinDataRate || datarate > Info.MaxDataRate then Fail("Invalid Data Rate")
      else Pass
    }

    function RX1DROffsetSupported(offset: uint8): (r: Outcome)
      reads this
      ensures r.Pass? <==> Info.MinRX1DROffset <= offset <= Info.MaxRX1DROffset
      ensures r.Fail? ==> r.message == "Invalid RX1DROffset"
    {
      if offset >= Info.MinRX1DROffset && offset <= Info.MaxRX1DROffset then Pass
      else Fail("Invalid RX1DROffset")
    }

    /** The region code, the one the plan records. */
    function GetCode(): (c: RegionCode)
      reads this
      ensures c == Plan(Info.InfoClassB).Code
      ensures IsSetUp() ==> c == Info.Code
    {
      CodeQl256
    }

    /** The lowest data rate the table supports: no supported data rate is below it. */
    function GetMinDataRate(): (r: uint8)
      reads this
      ensures forall dr :: DataRateSupported(dr).Pass? ==> r <= dr
      ensures r <= Info.MaxDataRate ==> DataRateSupported(r).Pass?
      ensures IsSetUp() ==> r == 7
    {
      Info.MinDataRate
    }

    /** The highest data rate the table supports: no supported data rate is above it. */
    function GetMaxDataRate(): (r: uint8)
      reads this
      ensures forall dr :: DataRateSupported(dr).Pass? ==> dr <= r
      ensures Info.MinDataRate <= r ==> DataRateSupported(r).Pass?
      ensures IsSetUp() ==> r == 7
    {
      Info.MaxDataRate
    }

    /** The reserved-channel count of the first group (indexing an empty group list panics in the source). */
    function GetNbReservedChannels(): (n: int)
      reads this
      requires |Info.InfoGroupChannels| > 0
      ensures n == Info.InfoGroupChannels[0].NbReservedChannels
      ensures IsSetUp() ==> n == 3
    {
      Info.InfoGroupChannels[0].NbReservedChannels
    }

    /** The beacon frequency of the stored Class B record. */
    function GetFrequencyBeacon(): (f: uint32)
      reads this
      ensures f == Info.InfoClassB.FrequencyBeacon
    {
      Info.InfoClassB.FrequencyBeacon
    }

    /** The beacon data rate of the stored Class B record. */
    function GetDataRateBeacon(): (dr: uint8)
      reads this
      ensures dr == Info.InfoClassB.DataRate
    {
      Info.InfoClassB.DataRate
    }

    /** The whole table; after `Setup` it is the plan. */
    function GetParameters(): (p: Parameters)
      reads this
      ensures p == Info
      ensures IsSetUp() ==> p == Plan(p.InfoClassB)
    {
      Info
    }

    /**
     * The channels of the first group. The data-rate range 0..5 is the
     * constant the loop writes, not the group's own 7..7.
     */
    method GetChannels() returns (channels: seq<Channel>)
      requires |Info.InfoGroupChannels| > 0
      ensures |channels| == if GetNbReservedChannels() > 0 then GetNbReservedChannels() else 0
      ensures forall i :: 0 <= i < |channels| ==>
        var f := ChannelFrequency(Info.InfoGroupChannels[0], i);
        channels[i] == Channel(true, Info.InfoGroupChannels[0].EnableUplink, f, f, 0, 5)
    {
      channels := GroupChannels(Info.InfoGroupChannels[0]);
    }

    /** RX1 data rate is the uplink data rate minus the offset, floored at 0; the channel is kept. */
    function SetupRX1(datarate: uint8, rx1offset: uint8, indexChannel: int, dtime: DwellTime): (r: (uint8, int))
      ensures r.0 as int == if datarate as int - rx1offset as int > 0 then datarate as int - rx1offset as int else 0
      ensures r.1 == indexChannel
    {
      var dataRateRx1: uint8 := if datarate > rx1offset then datarate - rx1offset else 0;
      (dataRateRx1, indexChannel)
    }

    /**
     * The DR5 parameter string, which this plan leaves empty, and the channel
     * to use: an index at or above the number of reserved channels is
     * replaced by `rnd` (the source's `rand.Int()`) modulo that number.
     */
    function SetupInfoRequest(indexChannel: int, rnd: nat): (r: (string, int))
      reads this
      requires |Info.InfoGroupChannels| > 0
      requires indexChannel >= GetNbReservedChannels() ==> GetNbReservedChannels() != 0
      ensures r.0 == ""
      ensures indexChannel < GetNbReservedChannels() ==> r.1 == indexChannel
      ensures indexChannel >= GetNbReservedChannels() > 0 ==> 0 <= r.1 < GetNbReservedChannels()
    {
      var index := if indexChannel >= GetNbReservedChannels() then rnd % GetNbReservedChannels() else indexChannel;
      (GetDataRate(5).1, index)
    }

    /** (230, 222) for DR7 and (0, 0) otherwise; the dwell-time flag plays no part. */
    function GetPayloadSize(datarate: uint8, dTime: DwellTime): (r: (int, int))
      ensures r == if DataRateOf(datarate).Some? then (230, 222) else (0, 0)
    {
      if datarate == 7 then (230, 222) else (0, 0)
    }
  }

  /** After `Setup`: the three ranges are exactly those of the plan, both ends included. */
  lemma SupportedRanges(q: Ql256, f: uint32, dr: uint8, offset: uint8)
    requires q.IsSetUp()
    ensures q.FrequencySupported(f).Pass? <==> 256100000 <= f <= 257500000
    ensures q.DataRateSupported(dr).Pass? <==> dr == 7
    ensures q.RX1DROffsetSupported(offset).Pass? <==> offset == 0
    ensures q.GetMinDataRate() == 7 && q.GetMaxDataRate() == 7 && q.GetNbReservedChannels() == 3
    ensures q.Info.FrequencyRX2 == 256700000 && q.Info.DataRateRX2 == 7
  {
  }

  /** A data rate is supported exactly when it has a name and a payload limit. */
  lemma DataRateNames(q: Ql256, dr: uint8, d: DwellTime)
    requires q.IsSetUp()
    ensures q.DataRateSupported(dr).Pass? <==> q.GetDataRate(dr) != ("", "")
    ensures q.DataRateSupported(dr).Pass? <==> q.GetPayloadSize(dr, d) == (230, 222)
    ensures !q.DataRateSupported(dr).Pass? ==> q.GetPayloadSize(dr, d) == (0, 0)
  {
  }

  /**
   * Channel i of the plan sits at 256100000 + 200000 * i, a supported
   * frequency, while none of the data rates 0..5 the channel records is one
   * the plan supports.
   */
  lemma PlanChannels(q: Ql256, i: nat, dr: uint8)
    requires q.IsSetUp() && i < 3
    ensures ChannelFrequency(q.Info.InfoGroupChannels[0], i) as int == 256100000 + 200000 * i
    ensures q.FrequencySupported(ChannelFrequency(q.Info.InfoGroupChannels[0], i)).Pass?
    ensures dr <= 5 ==> q.DataRateSupported(dr).Fail?
  {
    ChannelFrequencyExact(q.Info.InfoGroupChannels[0], i);
  }

  /** The only supported pair, DR7 with offset 0, gives RX1 at DR7. */
  lemma RX1StaysSupported(q: Ql256, dr: uint8, offset: uint8, index: int, dtime: DwellTime)
    requires q.IsSetUp()
    requires q.DataRateSupported(dr).Pass? && q.RX1DROffsetSupported(offset).Pass?
    ensures q.SetupRX1(dr, offset, index, dtime) == (7, index)
    ensures q.DataRateSupported(q.SetupRX1(dr, offset, index, dtime).0).Pass?
  {
  }
}
