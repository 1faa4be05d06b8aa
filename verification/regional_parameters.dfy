/**
 * What every regional-parameters variant shares: the constant table that
 * `Setup` fills, the channel record, the channel-generation loop, and the
 * data-rate descriptions behind the (modulation, parameter) strings.
 */
module RegionalParameters {
  import opened LoRaWAN
  import opened Strings
  import Decimal

  /** Region codes of the variants in this model. */
  datatype RegionCode = CodeUnset | CodeEuFSK | CodeQl256

  /** A channel-group template: channel i is at InitialFrequency + OffsetFrequency * i. */
  datatype InfoGroupChannels = InfoGroupChannels(
    EnableUplink: bool,
    InitialFrequency: uint32,
    OffsetFrequency: uint32,
    MinDataRate: uint8,
    MaxDataRate: uint8,
    NbReservedChannels: int)

  /** The Class B beacon parameters the getters read back. */
  datatype InfoClassB = InfoClassB(FrequencyBeacon: uint32, DataRate: uint8)

  /** The constant table of one region, filled by the variant's `Setup`. */
  datatype Parameters = Parameters(
    Code: RegionCode,
    MinFrequency: uint32,
    MaxFrequency: uint32,
    FrequencyRX2: uint32,
    DataRateRX2: uint8,
    MinDataRate: uint8,
    MaxDataRate: uint8,
    MinRX1DROffset: uint8,
    MaxRX1DROffset: uint8,
    InfoGroupChannels: seq<InfoGroupChannels>,
    InfoClassB: InfoClassB)

  /** One entry of a device's channel table. */
  datatype Channel = Channel(
    Active: bool,
    EnableUplink: bool,
    FrequencyUplink: uint32,
    FrequencyDownlink: uint32,
    MinDR: uint8,
    MaxDR: uint8)

  /** Frequency of channel `i` of a group, computed in 32-bit unsigned arithmetic. */
  function ChannelFrequency(g: InfoGroupChannels, i: nat): uint32
  {
    ((g.InitialFrequency as int + g.OffsetFrequency as int * (i % Uint32Modulus)) % Uint32Modulus) as uint32
  }

  /** When the group's top channel stays below 2^32 there is no wrap-around. */
  lemma ChannelFrequencyExact(g: InfoGroupChannels, i: nat)
    requires i < g.NbReservedChannels
    requires g.InitialFrequency as int + g.OffsetFrequency as int * (g.NbReservedChannels - 1) < Uint32Modulus
    ensures ChannelFrequency(g, i) as int == g.InitialFrequency as int + g.OffsetFrequency as int * i
  {
    var off := g.OffsetFrequency as int;
    MulMonotone(off, i, g.NbReservedChannels - 1);
    if off == 0 {
      assert off * (i % Uint32Modulus) == 0 == off * i;
    } else {
      MulMonotone(i, 1, off);
      assert i % Uint32Modulus == i;
    }
  }

  lemma MulMonotone(a: nat, b: int, c: int)
    requires b <= c
    ensures a * b <= a * c
  {
    assert a * c - a * b == a * (c - b);
  }

  /**
   * The loop both variants' `GetChannels` run over their first group: one
   * active channel per reserved channel, uplink and downlink on the same
   * frequency, data rates 0..5 written as constants.
   */
  method GroupChannels(g: InfoGroupChannels) returns (channels: seq<Channel>)
    ensures |channels| == if g.NbReservedChannels > 0 then g.NbReservedChannels else 0
    ensures forall i :: 0 <= i < |channels| ==>
      channels[i] == Channel(true, g.EnableUplink, ChannelFrequency(g, i), ChannelFrequency(g, i), 0, 5)
  {
    channels := [];
    var i := 0;
    while i < g.NbReservedChannels
      invariant 0 <= i
      invariant i == 0 || i <= g.NbReservedChannels
      invariant |channels| == i
      invariant forall j :: 0 <= j < i ==>
        channels[j] == Channel(true, g.EnableUplink, ChannelFrequency(g, j), ChannelFrequency(g, j), 0, 5)
    {
      var frequency := ChannelFrequency(g, i);
      var ch := Channel(true, g.EnableUplink, frequency, frequency, 0, 5);
      channels := channels + [ch];
      i := i + 1;
    }
  }

  /** What a data-rate index stands for: a LoRa spreading factor and bandwidth (kHz), or an FSK bit rate. */
  datatype DataRate = LoRa(SpreadingFactor: nat, Bandwidth: nat) | FSK(BitRate: nat)

  /** The (modulation, parameter) strings `GetDataRate` returns for a data rate. */
  function Render(d: DataRate): (string, string)
  {
    match d
    case LoRa(sf, bw) => ("LORA", "SF" + Decimal.Format(sf) + "BW" + Decimal.Format(bw))
    case FSK(rate) => ("FSK", Decimal.Format(rate))
  }

  /** Reads a LoRa parameter string "SF<n>BW<m>". */
  function ParseLoRa(p: string): Option<DataRate>
  {
    if |p| < 2 || p[..2] != "SF" then None else ParseFactors(p[2..])
  }

  /** Reads "<n>BW<m>", the part of a LoRa parameter string after "SF". */
  function ParseFactors(rest: string): Option<DataRate>
  {
    var k := IndexOf(rest, 'B');
    if k + 2 > |rest| || rest[k..k + 2] != "BW" then None
    else match (Decimal.Parse(rest[..k]), Decimal.Parse(rest[k + 2..]))
      case (Some(sf), Some(bw)) => Some(LoRa(sf, bw))
      case _ => None
  }

  /** Reads back the data rate a (modulation, parameter) pair describes. */
  function ParseDataRate(r: (string, string)): Option<DataRate>
  {
    if r.0 == "LORA" then ParseLoRa(r.1)
    else if r.0 == "FSK" then
      match Decimal.Parse(r.1)
      case Some(rate) => Some(FSK(rate))
      case None => None
    else None
  }

  /** "SF<s>BW<b>" reads back as the numbers `s` and `b` stand for, when `s` holds no 'B'. */
  lemma ParseLoRaOf(s: string, b: string, sf: nat, bw: nat)
    requires 'B' !in s
    requires Decimal.Parse(s) == Some(sf) && Decimal.Parse(b) == Some(bw)
    ensures ParseLoRa("SF" + s + "BW" + b) == Some(LoRa(sf, bw))
  {
    var rest := s + ("BW" + b);
    assert ("SF" + s + "BW" + b)[2..] == rest;
    ParseFactorsOf(s, b, sf, bw);
  }

  lemma ParseFactorsOf(s: string, b: string, sf: nat, bw: nat)
    requires 'B' !in s
    requires Decimal.Parse(s) == Some(sf) && Decimal.Parse(b) == Some(bw)
    ensures ParseFactors(s + ("BW" + b)) == Some(LoRa(sf, bw))
  {
    var rest := s + ("BW" + b);
    IndexOfAfterPrefix(s, "BW" + b, 'B');
    assert rest[..|s|] == s;
    assert rest[|s|..|s| + 2] == "BW" by {
      assert rest[|s|] == 'B' && rest[|s| + 1] == 'W';
    }
    assert rest[|s| + 2..] == b;
  }

  /** A LoRa parameter string reads back as the spreading factor and bandwidth it was written from. */
  lemma ParseLoRaRender(sf: nat, bw: nat)
    ensures ParseLoRa("SF" + Decimal.Format(sf) + "BW" + Decimal.Format(bw)) == Some(LoRa(sf, bw))
  {
    var s := Decimal.Format(sf);
    assert 'B' !in s by {
      forall i | 0 <= i < |s| ensures s[i] != 'B' { assert Decimal.IsDigit(s[i]); }
    }
    Decimal.ParseFormat(sf);
    Decimal.ParseFormat(bw);
    ParseLoRaOf(s, Decimal.Format(bw), sf, bw);
  }

  /** The strings name the data rate unambiguously. */
  lemma ParseRender(d: DataRate)
    ensures ParseDataRate(Render(d)) == Some(d)
  {
    match d
    case LoRa(sf, bw) =>
      ParseLoRaRender(sf, bw);
    case FSK(rate) =>
      Decimal.ParseFormat(rate);
  }

  /** Distinct data rates never share a (modulation, parameter) pair. */
  lemma RenderInjective(d: DataRate, e: DataRate)
    requires Render(d) == Render(e)
    ensures d == e
  {
    ParseRender(d);
    ParseRender(e);
  }
}
