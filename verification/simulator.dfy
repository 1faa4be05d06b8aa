/**
 * The simulator orchestrator: the gateway registry, the set of gateways
 * that should be on, the id counter, the shared bridge address and the
 * {Stopped, Running} state, with the operations the dashboard calls.
 */
module Simulation {
  import opened LoRaWAN
  import opened Strings
  import Forwarding

  datatype RunState = Stopped | Running

  /** Result codes of `SetGateway`, one per validation step. */
  datatype ResultCode =
    | CodeOK
    | CodeErrorAddress
    | CodeErrorDeviceActive
    | CodeErrorName
    | CodeErrorAddressInUse
    | CodeNoBridge

  /** What the dashboard sends for a gateway; `TypeGateway` is true for a native UDP gateway. */
  datatype GatewayInfo = GatewayInfo(MACAddress: EUI64, Name: string, Active: bool, TypeGateway: bool)

  /** The copy of a gateway `GetGateways` hands out. */
  datatype GatewayRecord = GatewayRecord(Id: int, Info: GatewayInfo, State: RunState)

  class Gateway {
    var Id: int
    const Info: GatewayInfo
    var State: RunState

    constructor (id: int, info: GatewayInfo)
      ensures Id == id && Info == info && State == Stopped
    {
      Id := id;
      Info := info;
      State := Stopped;
    }

    /** Whether the gateway is transmitting: its run state is `Running`. */
    predicate IsOn()
      reads this
    {
      State == Running
    }

    /** The run-state effect of switching the gateway on. */
    method TurnOn()
      modifies this`State
      ensures State == Running
    {
      State := Running;
    }

    /** The run-state effect of switching the gateway off. */
    method TurnOff()
      modifies this`State
      ensures State == Stopped
    {
      State := Stopped;
    }

    function Snapshot(): GatewayRecord
      reads this
    {
      GatewayRecord(Id, Info, State)
    }
  }

  /** Some element of a nonempty set: the next entry a map iteration visits. */
  method Pick<T>(s: set<T>) returns (x: T)
    requires s != {}
    ensures x in s
  {
    x :| x in s;
  }

  /** A bridge endpoint as the dashboard sends it. */
  datatype AddressIP = AddressIP(Address: string, Port: string)

  /** The stored form "Address:Port"; never empty, so a saved bridge always counts as configured. */
  function ComposeBridgeAddress(a: AddressIP): (s: string)
    ensures s != "" && ':' in s
  {
    assert (a.Address + ":" + a.Port)[|a.Address|] == ':';
    a.Address + ":" + a.Port
  }

  /**
   * Reads a stored bridge address back: the zero record for "", otherwise
   * the first two ':'-separated fields. `None` stands for the source's
   * out-of-range panic when there is no ':' at all.
   */
  function ParseBridgeAddress(s: string): Option<AddressIP>
  {
    if s == "" then Some(AddressIP("", ""))
    else
      var parts := Split(s, ':');
      if |parts| < 2 then None else Some(AddressIP(parts[0], parts[1]))
  }

  /** The first two pieces with the separator between them are the whole join, or a prefix followed by another separator. */
  lemma JoinFirstTwo(parts: seq<string>, sep: char)
    requires |parts| >= 2
    ensures var c := parts[0] + [sep] + parts[1];
      c == Join(parts, sep) || c + [sep] <= Join(parts, sep)
  {
    var c := parts[0] + [sep] + parts[1];
    assert Join(parts, sep) == parts[0] + [sep] + Join(parts[1..], sep);
    if |parts| == 2 {
      assert Join(parts[1..], sep) == parts[1];
    } else {
      assert Join(parts[1..], sep) == parts[1] + [sep] + Join(parts[2..], sep);
      assert Join(parts, sep) == c + [sep] + Join(parts[2..], sep);
    }
  }

  /** Saving then reading back gives the same endpoint exactly when neither part holds a ':'. */
  lemma BridgeRoundTrip(a: AddressIP)
    ensures ParseBridgeAddress(ComposeBridgeAddress(a)) == Some(a) <==> ':' !in a.Address && ':' !in a.Port
  {
    var s := ComposeBridgeAddress(a);
    if ':' !in a.Address {
      SplitAfterPrefix(a.Address, a.Port, ':');
      var parts := Split(s, ':');
      assert parts == [a.Address] + Split(a.Port, ':');
      if ':' !in a.Port {
        assert Split(a.Port, ':') == [a.Port];
      } else {
        var rest := Split(a.Port, ':');
        assert ':' !in parts[1];
      }
    } else {
      var parts := Split(s, ':');
      assert ':' !in parts[0];
    }
  }

  class Simulator {
    var State: RunState
    var NextIDGw: int
    var BridgeAddress: string
    var Gateways: map<int, Gateway>
    var ActiveGateways: map<int, int>
    var Forwarder: Forwarding.Forwarder

    /**
     * Every registered gateway carries its own id, below the next id to hand
     * out; the active set maps ids of registered gateways to themselves.
     */
    ghost predicate Valid()
      reads this, Gateways.Values
    {
      && (forall id :: id in Gateways ==> Gateways[id].Id == id && id < NextIDGw)
      && (forall id :: id in ActiveGateways ==> ActiveGateways[id] == id && id in Gateways)
    }

    /**
     * A stopped simulator over the registry, id counter and bridge address
     * read from the configuration files (that reading is not part of this
     * model), with an empty active set and a freshly set-up forwarder.
     */
    constructor GetIstance(loaded: map<int, Gateway>, nextId: int, bridge: string)
      requires forall id :: id in loaded ==> loaded[id].Id == id && id < nextId
      ensures Valid()
      ensures State == Stopped && ActiveGateways == map[]
      ensures Gateways == loaded && NextIDGw == nextId && BridgeAddress == bridge
      ensures fresh(Forwarder)
      ensures Forwarder.DevToGw == map[] && Forwarder.GwtoDev == map[] && Forwarder.Gateways == map[]
    {
      State := Stopped;
      Gateways := loaded;
      NextIDGw := nextId;
      BridgeAddress := bridge;
      ActiveGateways := map[];
      Forwarder := new Forwarding.Forwarder.Setup();
    }

    /** Distinct ids hold distinct gateway objects. */
    lemma DistinctGateways(id: int, other: int)
      requires Valid() && id in Gateways && other in Gateways && id != other
      ensures Gateways[id] != Gateways[other]
    {
      assert Gateways[id].Id == id && Gateways[other].Id == other;
    }

    /** The run-state effect of switching one registered gateway on; the others keep their state. */
    method TurnOnGateway(id: int)
      requires Valid() && id in Gateways
      modifies Gateways[id]
      ensures Valid()
      ensures Gateways[id].State == Running
      ensures forall other :: other in Gateways && other != id ==> Gateways[other].State == old(Gateways[other].State)
    {
      Gateways[id].TurnOn();
      forall other | other in Gateways && other != id
        ensures Gateways[other].State == old(Gateways[other].State)
      {
        DistinctGateways(id, other);
      }
    }

    /** The run-state effect of switching one registered gateway off; the others keep their state. */
    method TurnOffGateway(id: int)
      requires Valid() && id in Gateways
      modifies Gateways[id]
      ensures Valid()
      ensures Gateways[id].State == Stopped
      ensures forall other :: other in Gateways && other != id ==> Gateways[other].State == old(Gateways[other].State)
    {
      Gateways[id].TurnOff();
      forall other | other in Gateways && other != id
        ensures Gateways[other].State == old(Gateways[other].State)
      {
        DistinctGateways(id, other);
      }
    }

    /**
     * Starts the run and switches on every gateway in the active set (its
     * values, which are its keys).
     */
    method Run()
      requires Valid()
      modifies this, Gateways.Values
      ensures Valid()
      ensures State == Running
      ensures Gateways == old(Gateways) && ActiveGateways == old(ActiveGateways)
      ensures NextIDGw == old(NextIDGw) && BridgeAddress == old(BridgeAddress) && Forwarder == old(Forwarder)
      ensures forall id :: id in ActiveGateways ==> Gateways[id].State == Running
      ensures forall id :: id in Gateways && id !in ActiveGateways ==> Gateways[id].State == old(Gateways[id].State)
    {
      State := Running;
      var todo := ActiveGateways.Keys;
      while todo != {}
        invariant todo <= ActiveGateways.Keys
        invariant State == Running
        invariant Gateways == old(Gateways) && ActiveGateways == old(ActiveGateways)
        invariant NextIDGw == old(NextIDGw) && BridgeAddress == old(BridgeAddress) && Forwarder == old(Forwarder)
        invariant Valid()
        invariant forall id :: id in ActiveGateways && id !in todo ==> Gateways[id].State == Running
        invariant forall id :: id in Gateways && (id !in ActiveGateways || id in todo) ==>
          Gateways[id].State == old(Gateways[id].State)
        decreases todo
      {
        var id := Pick(todo);
        TurnOnGateway(id);
        todo := todo - {id};
      }
    }

    /**
     * Ends the run and switches off every gateway in the active set. The
     * forwarder's `Reset` leaves its tables as they were.
     */
    method Stop()
      requires Valid()
      modifies this, Gateways.Values
      ensures Valid()
      ensures State == Stopped
      ensures Gateways == old(Gateways) && ActiveGateways == old(ActiveGateways)
      ensures NextIDGw == old(NextIDGw) && BridgeAddress == old(BridgeAddress) && Forwarder == old(Forwarder)
      ensures unchanged(Forwarder)
      ensures forall id :: id in ActiveGateways ==> Gateways[id].State == Stopped
      ensures forall id :: id in Gateways && id !in ActiveGateways ==> Gateways[id].State == old(Gateways[id].State)
    {
      State := Stopped;
      var todo := ActiveGateways.Keys;
      while todo != {}
        invariant todo <= ActiveGateways.Keys
        invariant State == Stopped
        invariant Gateways == old(Gateways) && ActiveGateways == old(ActiveGateways)
        invariant NextIDGw == old(NextIDGw) && BridgeAddress == old(BridgeAddress) && Forwarder == old(Forwarder)
        invariant Valid()
        invariant forall id :: id in ActiveGateways && id !in todo ==> Gateways[id].State == Stopped
        invariant forall id :: id in Gateways && (id !in ActiveGateways || id in todo) ==>
          Gateways[id].State == old(Gateways[id].State)
        decreases todo
      {
        var id := Pick(todo);
        TurnOffGateway(id);
        todo := todo - {id};
      }
      Forwarder.Reset();
    }

    /** Stores the bridge endpoint as "Address:Port". */
    method SaveBridgeAddress(remoteAddr: AddressIP)
      modifies this`BridgeAddress
      ensures BridgeAddress == ComposeBridgeAddress(remoteAddr)
    {
      BridgeAddress := remoteAddr.Address + ":" + remoteAddr.Port;
    }

    /**
     * The stored endpoint: the zero record when none is stored, otherwise
     * the first two ':'-separated fields, which hold no ':' and rebuild the
     * stored string up to its end or its next ':'; `None` (a panic in the
     * source) when the stored string is nonempty without a ':'.
     */
    function GetBridgeAddress(): (r: Option<AddressIP>)
      reads this
      ensures BridgeAddress == "" ==> r == Some(AddressIP("", ""))
      ensures r.None? <==> BridgeAddress != "" && ':' !in BridgeAddress
      ensures r.Some? && BridgeAddress != "" ==> ':' !in r.value.Address && ':' !in r.value.Port
      ensures r.Some? && BridgeAddress != "" ==>
        var c := ComposeBridgeAddress(r.value);
        c == BridgeAddress || c + ":" <= BridgeAddress
    {
      var r := ParseBridgeAddress(BridgeAddress);
      if BridgeAddress != "" then
        var parts := Split(BridgeAddress, ':');
        if |parts| >= 2 then
          JoinFirstTwo(parts, ':');
          r
        else
          assert Join(parts, ':') == parts[0];
          r
      else r
    }

    /** Copies of all registered gateways, each once, in no particular order. */
    method GetGateways() returns (gateways: seq<GatewayRecord>)
      requires Valid()
      ensures |gateways| == |Gateways|
      ensures forall id :: id in Gateways ==> Gateways[id].Snapshot() in gateways
      ensures forall g :: g in gateways ==> g.Id in Gateways && Gateways[g.Id].Snapshot() == g
    {
      gateways := [];
      var todo := Gateways.Keys;
      ghost var done: set<int> := {};
      while todo != {}
        invariant todo !! done && todo + done == Gateways.Keys
        invariant |gateways| == |done|
        invariant forall id :: id in done ==> Gateways[id].Snapshot() in gateways
        invariant forall g :: g in gateways ==> g.Id in done && Gateways[g.Id].Snapshot() == g
        decreases todo
      {
        var id := Pick(todo);
        gateways := gateways + [Gateways[id].Snapshot()];
        todo := todo - {id};
        done := done + {id};
      }
    }

    /** Some other registered gateway already has this name. */
    predicate NameInUse(name: string, id: int)
      reads this
    {
      exists other :: other in Gateways && other != id && Gateways[other].Info.Name == name
    }

    /** Some other registered gateway already has this MAC address. */
    predicate AddressInUse(mac: EUI64, id: int)
      reads this
    {
      exists other :: other in Gateways && other != id && Gateways[other].Info.MACAddress == mac
    }

    /**
     * The code `SetGateway` answers for `gateway` under id `id`: the first
     * check that fails, in the order zero address, gateway on (update only),
     * name, address, missing bridge for a non-native gateway.
     */
    function Verdict(gateway: Gateway, update: bool, id: int): ResultCode
      reads this, Gateways.Values
      requires update ==> id in Gateways
    {
      if gateway.Info.MACAddress == ZeroEUI then CodeErrorAddress
      else if update && Gateways[id].IsOn() then CodeErrorDeviceActive
      else if NameInUse(gateway.Info.Name, id) then CodeErrorName
      else if AddressInUse(gateway.Info.MACAddress, id) then CodeErrorAddressInUse
      else if !gateway.Info.TypeGateway && BridgeAddress == "" then CodeNoBridge
      else CodeOK
    }

    /**
     * Adds (`update` false) or replaces (`update` true) a gateway. An add
     * takes the next id as soon as the address is non-zero, so a later
     * failure still uses it up. On success the gateway is stored under its
     * id, joins or leaves the active set with its `Active` flag, and is
     * switched on when active while the simulator runs.
     */
    method SetGateway(gateway: Gateway, update: bool) returns (code: ResultCode, id: int)
      requires Valid()
      requires gateway !in Gateways.Values
      requires update ==> gateway.Id in Gateways
      modifies this, gateway
      ensures Valid()
      ensures code == old(Verdict(gateway, update, if update then gateway.Id else NextIDGw))
      ensures State == old(State) && BridgeAddress == old(BridgeAddress) && Forwarder == old(Forwarder)
      ensures update || code == CodeErrorAddress ==> NextIDGw == old(NextIDGw) && gateway.Id == old(gateway.Id)
      ensures !update && code != CodeErrorAddress ==> gateway.Id == old(NextIDGw) && NextIDGw == old(NextIDGw) + 1
      ensures code != CodeOK ==>
        id == -1 && Gateways == old(Gateways) && ActiveGateways == old(ActiveGateways) && gateway.State == old(gateway.State)
      ensures code == CodeOK ==> id == gateway.Id && Gateways == old(Gateways)[id := gateway]
      ensures code == CodeOK && !update ==> id !in old(Gateways)
      ensures code == CodeOK ==>
        ActiveGateways == if gateway.Info.Active then old(ActiveGateways)[id := id] else old(ActiveGateways) - {id}
      ensures code == CodeOK ==>
        gateway.State == if gateway.Info.Active && State == Running then Running else old(gateway.State)
    {
      if gateway.Info.MACAddress == ZeroEUI {
        return CodeErrorAddress, -1;
      }
      if !update {
        gateway.Id := NextIDGw;
        NextIDGw := NextIDGw + 1;
      } else if Gateways[gateway.Id].IsOn() {
        return CodeErrorDeviceActive, -1;
      }
      if NameInUse(gateway.Info.Name, gateway.Id) {
        return CodeErrorName, -1;
      }
      if AddressInUse(gateway.Info.MACAddress, gateway.Id) {
        return CodeErrorAddressInUse, -1;
      }
      if !gateway.Info.TypeGateway && BridgeAddress == "" {
        return CodeNoBridge, -1;
      }
      Gateways := Gateways[gateway.Id := gateway];
      if gateway.Info.Active {
        ActiveGateways := ActiveGateways[gateway.Id := gateway.Id];
        if State == Running {
          TurnOnGateway(gateway.Id);
        }
      } else if gateway.Id in ActiveGateways {
        ActiveGateways := ActiveGateways - {gateway.Id};
      }
      return CodeOK, gateway.Id;
    }

    /** Removes a gateway from the registry and the active set, unless it is on. */
    method DeleteGateway(id: int) returns (ok: bool)
      requires Valid() && id in Gateways
      modifies this
      ensures Valid()
      ensures ok <==> !old(Gateways[id].IsOn())
      ensures ok ==> Gateways == old(Gateways) - {id} && ActiveGateways == old(ActiveGateways) - {id}
      ensures !ok ==> Gateways == old(Gateways) && ActiveGateways == old(ActiveGateways)
      ensures State == old(State) && NextIDGw == old(NextIDGw) && BridgeAddress == old(BridgeAddress)
      ensures Forwarder == old(Forwarder)
    {
      if Gateways[id].IsOn() {
        return false;
      }
      Gateways := Gateways - {id};
      ActiveGateways := ActiveGateways - {id};
      return true;
    }

    /** Switches one gateway on when it is stopped and off otherwise. */
    method ToggleStateGateway(id: int)
      requires Valid() && id in Gateways
      modifies Gateways[id]
      ensures Valid()
      ensures Gateways[id].State == if old(Gateways[id].State) == Stopped then Running else Stopped
    {
      if Gateways[id].State == Stopped {
        TurnOnGateway(id);
      } else {
        TurnOffGateway(id);
      }
    }
  }

  /** The verdict's order: each code holds exactly when its own check fails and every earlier one passes. */
  lemma VerdictOrder(s: Simulator, g: Gateway, update: bool, id: int)
    requires update ==> id in s.Gateways
    ensures s.Verdict(g, update, id) == CodeErrorAddress <==> g.Info.MACAddress == ZeroEUI
    ensures s.Verdict(g, update, id) == CodeErrorDeviceActive <==>
      && g.Info.MACAddress != ZeroEUI
      && update && s.Gateways[id].IsOn()
    ensures s.Verdict(g, update, id) == CodeErrorName <==>
      && g.Info.MACAddress != ZeroEUI
      && !(update && s.Gateways[id].IsOn())
      && s.NameInUse(g.Info.Name, id)
    ensures s.Verdict(g, update, id) == CodeErrorAddressInUse <==>
      && g.Info.MACAddress != ZeroEUI
      && !(update && s.Gateways[id].IsOn())
      && !s.NameInUse(g.Info.Name, id)
      && s.AddressInUse(g.Info.MACAddress, id)
    ensures s.Verdict(g, update, id) == CodeNoBridge <==>
      && g.Info.MACAddress != ZeroEUI
      && !(update && s.Gateways[id].IsOn())
      && !s.NameInUse(g.Info.Name, id)
      && !s.AddressInUse(g.Info.MACAddress, id)
      && !g.Info.TypeGateway && s.BridgeAddress == ""
    ensures s.Verdict(g, update, id) == CodeOK <==>
      && g.Info.MACAddress != ZeroEUI
      && !(update && s.Gateways[id].IsOn())
      && !s.NameInUse(g.Info.Name, id)
      && !s.AddressInUse(g.Info.MACAddress, id)
      && (g.Info.TypeGateway || s.BridgeAddress != "")
  {
  }

  /** A gateway whose name another registered gateway carries is refused, and the registry keeps its size. */
  method AddDuplicateName(s: Simulator, firstId: int, second: Gateway) returns (code: ResultCode)
    requires s.Valid() && firstId in s.Gateways && second !in s.Gateways.Values
    requires second.Info.Name == s.Gateways[firstId].Info.Name && second.Info.MACAddress != ZeroEUI
    modifies s, second
    ensures code == CodeErrorName && s.Gateways == old(s.Gateways) && |s.Gateways| == |old(s.Gateways)|
  {
    var id;
    assert firstId < s.NextIDGw;
    code, id := s.SetGateway(second, false);
  }

  /** After a save, the stored endpoint reads back as saved when neither part holds a ':'. */
  method SaveThenGet(s: Simulator, a: AddressIP) returns (r: Option<AddressIP>)
    requires ':' !in a.Address && ':' !in a.Port
    modifies s`BridgeAddress
    ensures r == Some(a) && s.GetBridgeAddress() == Some(a)
  {
    s.SaveBridgeAddress(a);
    BridgeRoundTrip(a);
    r := s.GetBridgeAddress();
  }
}
