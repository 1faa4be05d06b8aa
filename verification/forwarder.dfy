/**
 * The packet forwarder: an in-memory router between simulated devices and
 * gateways. `DevToGw` maps a device EUI to the uplink buffers of the
 * gateways that hear it; `GwtoDev` maps a frequency and a gateway MAC to the
 * downlink receivers of the devices listening there.
 */
module Forwarding {
  import opened LoRaWAN

  /** A receive packet as the gateways forward it upstream. */
  datatype RXPK = RXPK(Freq: int, Modu: string, DatR: string, CodR: string, Data: seq<uint8>)

  /** A downlink frame. */
  datatype PHYPayload = PHYPayload(Bytes: seq<uint8>)

  /** What the forwarder records of a gateway. */
  datatype InfoGateway = InfoGateway(MACAddress: EUI64)

  /** A delivery buffer shared by reference with its reader; `Push` appends. */
  class Buffer<T> {
    var Contents: seq<T>

    constructor ()
      ensures Contents == []
    {
      Contents := [];
    }

    method Push(x: T)
      modifies this
      ensures Contents == old(Contents) + [x]
    {
      Contents := Contents + [x];
    }
  }

  type BufferUplink = Buffer<RXPK>

  type ReceivedDownlink = Buffer<PHYPayload>

  /** `n` copies of `x`. */
  function Repeat<T>(x: T, n: nat): (s: seq<T>)
    ensures |s| == n && forall i :: 0 <= i < n ==> s[i] == x
  {
    if n == 0 then [] else Repeat(x, n - 1) + [x]
  }

  /** The keys among `keys` under which `targets` holds buffer `b`. */
  function KeysOf<K, T>(targets: map<K, Buffer<T>>, keys: set<K>, b: Buffer<T>): set<K>
  {
    set k | k in keys && k in targets && targets[k] == b
  }

  /** How many entries of `targets` hold buffer `b`. */
  function Hits<K, T>(targets: map<K, Buffer<T>>, b: Buffer<T>): nat
  {
    |KeysOf(targets, targets.Keys, b)|
  }

  /** No two keys share one buffer. */
  ghost predicate Injective<K, T>(targets: map<K, Buffer<T>>)
  {
    forall k, l :: k in targets && l in targets && k != l ==> targets[k] != targets[l]
  }

  lemma KeysOfStep<K, T>(targets: map<K, Buffer<T>>, done: set<K>, k: K, b: Buffer<T>)
    requires k in targets && k !in done
    ensures |KeysOf(targets, done + {k}, b)| == |KeysOf(targets, done, b)| + (if targets[k] == b then 1 else 0)
  {
    if targets[k] == b {
      assert KeysOf(targets, done + {k}, b) == KeysOf(targets, done, b) + {k};
    } else {
      assert KeysOf(targets, done + {k}, b) == KeysOf(targets, done, b);
    }
  }

  /** When every key has its own buffer, each buffer is held exactly once. */
  lemma InjectiveHitsOnce<K, T>(targets: map<K, Buffer<T>>, k: K)
    requires Injective(targets) && k in targets
    ensures Hits(targets, targets[k]) == 1
  {
    assert KeysOf(targets, targets.Keys, targets[k]) == {k};
  }

  /**
   * One step of `PushAll`: pushing `x` on the buffer under a key not yet
   * visited counts that key as visited for every entry sharing the buffer.
   */
  method PushOnce<K, T>(targets: map<K, Buffer<T>>, ghost orig: map<K, seq<T>>, ghost done: set<K>, k: K, x: T)
    requires k in targets && k !in done && targets.Keys <= orig.Keys
    requires forall j :: j in targets ==>
      targets[j].Contents == orig[j] + Repeat(x, |KeysOf(targets, done, targets[j])|)
    modifies targets[k]
    ensures forall j :: j in targets ==>
      targets[j].Contents == orig[j] + Repeat(x, |KeysOf(targets, done + {k}, targets[j])|)
  {
    var target := targets[k];
    target.Push(x);
    forall j | j in targets
      ensures targets[j].Contents == orig[j] + Repeat(x, |KeysOf(targets, done + {k}, targets[j])|)
    {
      var b := targets[j];
      KeysOfStep(targets, done, k, b);
      var n := |KeysOf(targets, done, b)|;
      if b == target {
        calc {
          b.Contents;
          old(b.Contents) + [x];
          (orig[j] + Repeat(x, n)) + [x];
          orig[j] + (Repeat(x, n) + [x]);
          orig[j] + Repeat(x, n + 1);
        }
      } else {
        assert b.Contents == old(b.Contents);
      }
    }
  }

  /**
   * Pushes `x` once per entry of `targets`, in any order: every buffer grows
   * by as many copies of `x` as there are entries holding it, and nothing
   * outside the map's buffers changes.
   */
  method PushAll<K, T>(targets: map<K, Buffer<T>>, x: T)
    modifies targets.Values
    ensures forall k :: k in targets ==>
      targets[k].Contents == old(targets[k].Contents) + Repeat(x, Hits(targets, targets[k]))
  {
    ghost var orig := map k | k in targets :: targets[k].Contents;
    var todo := targets.Keys;
    while todo != {}
      invariant todo <= targets.Keys
      invariant forall k :: k in targets ==>
        targets[k].Contents == orig[k] + Repeat(x, |KeysOf(targets, targets.Keys - todo, targets[k])|)
      decreases todo
    {
      var k :| k in todo;
      PushOnce(targets, orig, targets.Keys - todo, k, x);
      assert (targets.Keys - todo) + {k} == targets.Keys - (todo - {k});
      todo := todo - {k};
    }
    assert targets.Keys - todo == targets.Keys;
  }

  class Forwarder {
    var DevToGw: map<EUI64, map<EUI64, BufferUplink>>
    var GwtoDev: map<uint32, map<EUI64, map<EUI64, ReceivedDownlink>>>
    var Gateways: map<EUI64, InfoGateway>

    /** The downlink receivers registered for a frequency and gateway; none when either key is missing. */
    function Receivers(freq: uint32, macAddress: EUI64): map<EUI64, ReceivedDownlink>
      reads this
    {
      if freq in GwtoDev && macAddress in GwtoDev[freq] then GwtoDev[freq][macAddress] else map[]
    }

    /** The uplink buffers bound to a device; none for an unknown device. */
    function Bound(devEUI: EUI64): map<EUI64, BufferUplink>
      reads this
    {
      if devEUI in DevToGw then DevToGw[devEUI] else map[]
    }

    /** A forwarder with empty routing tables and no gateways. */
    constructor Setup()
      ensures DevToGw == map[] && GwtoDev == map[] && Gateways == map[]
    {
      DevToGw := map[];
      GwtoDev := map[];
      Gateways := map[];
    }

    /** Records `g` under its MAC address, replacing any earlier record there. */
    method AddGateway(g: InfoGateway)
      modifies this
      ensures Gateways == old(Gateways)[g.MACAddress := g]
      ensures DevToGw == old(DevToGw) && GwtoDev == old(GwtoDev)
    {
      Gateways := Gateways[g.MACAddress := g];
    }

    /** Empties the device's gateway map entry by entry, then drops the device. */
    method DeleteDevice(devEUI: EUI64)
      modifies this
      ensures DevToGw == old(DevToGw) - {devEUI}
      ensures GwtoDev == old(GwtoDev) && Gateways == old(Gateways)
    {
      if devEUI in DevToGw {
        var keys := DevToGw[devEUI].Keys;
        while keys != {}
          invariant devEUI in DevToGw && keys <= DevToGw[devEUI].Keys
          invariant DevToGw == old(DevToGw)[devEUI := DevToGw[devEUI]]
          invariant GwtoDev == old(GwtoDev) && Gateways == old(Gateways)
          decreases keys
        {
          var key :| key in keys;
          DevToGw := DevToGw[devEUI := DevToGw[devEUI] - {key}];
          keys := keys - {key};
        }
      }
      DevToGw := DevToGw - {devEUI};
    }

    /** Drops the record under `g`'s MAC address. */
    method DeleteGateway(g: InfoGateway)
      modifies this
      ensures Gateways == old(Gateways) - {g.MACAddress}
      ensures DevToGw == old(DevToGw) && GwtoDev == old(GwtoDev)
    {
      Gateways := Gateways - {g.MACAddress};
    }

    /**
     * Builds the packet with `createPacket` (a helper that is not part of
     * this model) and pushes it once per gateway bound to the device.
     */
    method Uplink(data: RXPK, devEUI: EUI64, createPacket: RXPK -> RXPK)
      modifies Bound(devEUI).Values
      ensures unchanged(this)
      ensures forall b :: b in Bound(devEUI).Values ==>
        b.Contents == old(b.Contents) + Repeat(createPacket(data), Hits(Bound(devEUI), b))
    {
      var rxpk := createPacket(data);
      var targets := Bound(devEUI);
      PushAll(targets, rxpk);
    }

    /** Pushes `data` once per receiver registered for the frequency and gateway. */
    method Downlink(data: PHYPayload, freq: uint32, macAddress: EUI64)
      modifies Receivers(freq, macAddress).Values
      ensures unchanged(this)
      ensures forall b :: b in Receivers(freq, macAddress).Values ==>
        b.Contents == old(b.Contents) + Repeat(data, Hits(Receivers(freq, macAddress), b))
    {
      var targets := Receivers(freq, macAddress);
      PushAll(targets, data);
    }

    /**
     * Builds a fresh forwarder and binds it to a local name only, so the
     * forwarder it is called on keeps its tables.
     */
    method Reset()
      ensures DevToGw == old(DevToGw) && GwtoDev == old(GwtoDev) && Gateways == old(Gateways)
    {
      var f := new Forwarder.Setup();
    }
  }

  /** With one buffer per gateway, an uplink adds exactly one packet to each bound gateway. */
  method UplinkOnce(f: Forwarder, data: RXPK, devEUI: EUI64, createPacket: RXPK -> RXPK, mac: EUI64)
    requires Injective(f.Bound(devEUI)) && mac in f.Bound(devEUI)
    modifies f.Bound(devEUI).Values
    ensures f.Bound(devEUI)[mac].Contents == old(f.Bound(devEUI)[mac].Contents) + [createPacket(data)]
  {
    InjectiveHitsOnce(f.Bound(devEUI), mac);
    f.Uplink(data, devEUI, createPacket);
  }

  /** Deleting a device twice leaves the tables as deleting it once. */
  method DeleteDeviceTwice(f: Forwarder, devEUI: EUI64)
    modifies f
    ensures f.DevToGw == old(f.DevToGw) - {devEUI}
    ensures f.GwtoDev == old(f.GwtoDev) && f.Gateways == old(f.Gateways)
  {
    f.DeleteDevice(devEUI);
    f.DeleteDevice(devEUI);
  }
}
