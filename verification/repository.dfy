/**
 * The repository in front of the simulator: it guards `Run` and `Stop` by
 * the current run state, reports the state, and maps add/update onto
 * `SetGateway`.
 */
module Repositories {
  import opened LoRaWAN
  import opened Simulation

  class SimulatorRepository {
    var sim: Simulator?

    /** A repository with no simulator yet. */
    constructor NewSimulatorRepository()
      ensures sim == null
    {
      sim := null;
    }

    /** Creates the simulator over the registry, id counter and bridge address read from the configuration files. */
    method GetIstance(loaded: map<int, Gateway>, nextId: int, bridge: string)
      requires forall id :: id in loaded ==> loaded[id].Id == id && id < nextId
      modifies this
      ensures sim != null && fresh(sim) && sim.Valid()
      ensures sim.State == Stopped && sim.ActiveGateways == map[]
      ensures sim.Gateways == loaded && sim.NextIDGw == nextId && sim.BridgeAddress == bridge
      ensures fresh(sim.Forwarder)
      ensures sim.Forwarder.DevToGw == map[] && sim.Forwarder.GwtoDev == map[] && sim.Forwarder.Gateways == map[]
    {
      sim := new Simulator.GetIstance(loaded, nextId, bridge);
    }

    /** True exactly while the simulator runs. */
    function Status(): (running: bool)
      reads this, sim
      requires sim != null
      ensures running <==> sim.State == Running
    {
      match sim.State
      case Running => true
      case Stopped => false
    }

    /** Starts a stopped simulator; refuses, changing nothing, when it already runs. */
    method Run() returns (ok: bool)
      requires sim != null && sim.Valid()
      modifies sim, sim.Gateways.Values
      ensures sim.Valid()
      ensures ok <==> old(sim.State) == Stopped
      ensures !ok ==> unchanged(sim) && unchanged(sim.Gateways.Values)
      ensures ok ==> sim.State == Running && Status()
      ensures ok ==> sim.Gateways == old(sim.Gateways) && sim.ActiveGateways == old(sim.ActiveGateways)
      ensures ok ==> sim.NextIDGw == old(sim.NextIDGw) && sim.BridgeAddress == old(sim.BridgeAddress)
      ensures ok ==> sim.Forwarder == old(sim.Forwarder)
      ensures ok ==> forall id :: id in sim.ActiveGateways ==> sim.Gateways[id].State == Running
      ensures ok ==> forall id :: id in sim.Gateways && id !in sim.ActiveGateways ==>
        sim.Gateways[id].State == old(sim.Gateways[id].State)
    {
      match sim.State
      case Running =>
        return false;
      case Stopped =>
        sim.Run();
      return true;
    }

    /** Stops a running simulator; refuses, changing nothing, when it is already stopped. */
    method Stop() returns (ok: bool)
      requires sim != null && sim.Valid()
      modifies sim, sim.Gateways.Values
      ensures sim.Valid()
      ensures ok <==> old(sim.State) == Running
      ensures !ok ==> unchanged(sim) && unchanged(sim.Gateways.Values)
      ensures ok ==> sim.State == Stopped && !Status()
      ensures ok ==> sim.Gateways == old(sim.Gateways) && sim.ActiveGateways == old(sim.ActiveGateways)
      ensures ok ==> sim.NextIDGw == old(sim.NextIDGw) && sim.BridgeAddress == old(sim.BridgeAddress)
      ensures ok ==> sim.Forwarder == old(sim.Forwarder) && unchanged(sim.Forwarder)
      ensures ok ==> forall id :: id in sim.ActiveGateways ==> sim.Gateways[id].State == Stopped
      ensures ok ==> forall id :: id in sim.Gateways && id !in sim.ActiveGateways ==>
        sim.Gateways[id].State == old(sim.Gateways[id].State)
    {
      match sim.State
      case Stopped =>
        return false;
      case Running =>
        sim.Stop();
        return true;
    }

    /** `SetGateway` as an add, with its code, id and outcome passed through. */
    method AddGateway(gateway: Gateway) returns (code: ResultCode, id: int)
      requires sim != null && sim.Valid() && gateway !in sim.Gateways.Values
      modifies sim, gateway
      ensures sim.Valid()
      ensures code == old(sim.Verdict(gateway, false, sim.NextIDGw))
      ensures sim.State == old(sim.State) && sim.BridgeAddress == old(sim.BridgeAddress) && sim.Forwarder == old(sim.Forwarder)
      ensures code == CodeErrorAddress ==> sim.NextIDGw == old(sim.NextIDGw) && gateway.Id == old(gateway.Id)
      ensures code != CodeErrorAddress ==> gateway.Id == old(sim.NextIDGw) && sim.NextIDGw == old(sim.NextIDGw) + 1
      ensures code != CodeOK ==>
        && id == -1 && sim.Gateways == old(sim.Gateways) && sim.ActiveGateways == old(sim.ActiveGateways)
        && gateway.State == old(gateway.State)
      ensures code == CodeOK ==> id == gateway.Id && id !in old(sim.Gateways) && sim.Gateways == old(sim.Gateways)[id := gateway]
      ensures code == CodeOK ==>
        sim.ActiveGateways == if gateway.Info.Active then old(sim.ActiveGateways)[id := id] else old(sim.ActiveGateways) - {id}
      ensures code == CodeOK ==>
        gateway.State == if gateway.Info.Active && sim.State == Running then Running else old(gateway.State)
    {
      code, id := sim.SetGateway(gateway, false);
    }

    /** `SetGateway` as an update, with the id dropped. */
    method UpdateGateway(gateway: Gateway) returns (code: ResultCode)
      requires sim != null && sim.Valid() && gateway !in sim.Gateways.Values && gateway.Id in sim.Gateways
      modifies sim, gateway
      ensures sim.Valid()
      ensures code == old(sim.Verdict(gateway, true, gateway.Id))
      ensures sim.State == old(sim.State) && sim.BridgeAddress == old(sim.BridgeAddress) && sim.Forwarder == old(sim.Forwarder)
      ensures sim.NextIDGw == old(sim.NextIDGw) && gateway.Id == old(gateway.Id)
      ensures code != CodeOK ==>
        && sim.Gateways == old(sim.Gateways) && sim.ActiveGateways == old(sim.ActiveGateways)
        && gateway.State == old(gateway.State)
      ensures code == CodeOK ==> sim.Gateways == old(sim.Gateways)[gateway.Id := gateway]
      ensures code == CodeOK ==>
        sim.ActiveGateways ==
          if gateway.Info.Active then old(sim.ActiveGateways)[gateway.Id := gateway.Id]
          else old(sim.ActiveGateways) - {gateway.Id}
      ensures code == CodeOK ==>
        gateway.State == if gateway.Info.Active && sim.State == Running then Running else old(gateway.State)
    {
      var id;
      code, id := sim.SetGateway(gateway, true);
    }
  

    /** Stores the bridge address through the simulator. */
    method SaveBridgeAddress(addr: AddressIP)
      requires sim != null
      modifies sim`BridgeAddress
      ensures sim.BridgeAddress == ComposeBridgeAddress(addr)
      ensures sim.GetBridgeAddress() == Some(addr) <==> ':' !in addr.Address && ':' !in addr.Port
    {
      sim.SaveBridgeAddress(addr);
      BridgeRoundTrip(addr);
    }

    /**
     * The stored bridge endpoint: the zero record when none is stored, `None`
     * (a panic in the source) for a nonempty store without ':', otherwise the
     * ':'-free first two fields, which rebuild the store up to its end or its
     * next ':'.
     */
    function GetBridgeAddress(): (r: Option<AddressIP>)
      reads this, sim
      requires sim != null
      ensures sim.BridgeAddress == "" ==> r == Some(AddressIP("", ""))
      ensures r.None? <==> sim.BridgeAddress != "" && ':' !in sim.BridgeAddress
      ensures r.Some? && sim.BridgeAddress != "" ==> ':' !in r.value.Address && ':' !in r.value.Port
      ensures r.Some? && sim.BridgeAddress != "" ==>
        var c := ComposeBridgeAddress(r.value);
        c == sim.BridgeAddress || c + ":" <= sim.BridgeAddress
    {
      sim.GetBridgeAddress()
    }

    /** The simulator's view of its gateways. */
    method GetGateways() returns (gateways: seq<GatewayRecord>)
      requires sim != null && sim.Valid()
      ensures |gateways| == |sim.Gateways|
      ensures forall id :: id in sim.Gateways ==> sim.Gateways[id].Snapshot() in gateways
      ensures forall g :: g in gateways ==> g.Id in sim.Gateways && sim.Gateways[g.Id].Snapshot() == g
    {
      gateways := sim.GetGateways();
    }

    /** Removes a gateway unless it is switched on. */
    method DeleteGateway(id: int) returns (ok: bool)
      requires sim != null && sim.Valid() && id in sim.Gateways
      modifies sim
      ensures sim.Valid()
      ensures ok <==> !old(sim.Gateways[id].IsOn())
      ensures ok ==> sim.Gateways == old(sim.Gateways) - {id} && sim.ActiveGateways == old(sim.ActiveGateways) - {id}
      ensures !ok ==> sim.Gateways == old(sim.Gateways) && sim.ActiveGateways == old(sim.ActiveGateways)
      ensures sim.State == old(sim.State) && sim.NextIDGw == old(sim.NextIDGw) && sim.BridgeAddress == old(sim.BridgeAddress)
      ensures sim.Forwarder == old(sim.Forwarder)
    {
      ok := sim.DeleteGateway(id);
    }

    /** Flips a gateway between on and off. */
    method ToggleStateGateway(id: int)
      requires sim != null && sim.Valid() && id in sim.Gateways
      modifies sim.Gateways[id]
      ensures sim.Valid()
      ensures sim.Gateways[id].State == if old(sim.Gateways[id].State) == Stopped then Running else Stopped
    {
      sim.ToggleStateGateway(id);
    }
  }
}
