# LWN-Simulator core, modelled in Dafny

LWN-Simulator simulates a LoRaWAN network: devices, gateways and a packet
forwarder between them, driven from a web dashboard. This project models the
parts that decide what the simulator does:

- **Regional parameters** for two plans. `EuFSKRegion` is the EU863-870 plan with DR7 as FSK at 50 kbps. `Ql256Region` is a 256.1-257.5 MHz plan whose only data rate is DR7, LoRa SF5 at 125 kHz. Each is a class holding a `Parameters` table that `Setup` fills. Its functions check frequencies, data rates and RX1 offsets against the table. They also name data rates, lay out channels, pick the RX1 data rate and report payload limits. `RegionalParameters` holds what both share: the table types, the channel-generation loop, and the data-rate descriptions behind the ("LORA"/"FSK", parameter) strings.
- **The forwarder** (`Forwarding`). It routes between devices and gateways in memory. `DevToGw` maps a device EUI to the uplink buffers of the gateways that hear it. `GwtoDev` maps a frequency and gateway MAC address to the downlink receivers of devices. An uplink or downlink pushes one packet per entry of the relevant map.
- **The simulator** (`Simulation`). It holds the gateway registry keyed by id, the id counter, and the map of gateways that should be on. It also holds the bridge address stored as "Address:Port" and the Stopped/Running state. `SetGateway` validates a new or changed gateway in a fixed order and answers with a result code.
- **The repository** (`Repositories`). It sits in front of the simulator: it refuses to start a running simulator or stop a stopped one, reports the state, and maps add/update onto `SetGateway`.

Supporting modules: `LoRaWAN` (fixed-width integers, EUI-64, dwell time, `Option`, pass/fail outcome), `Strings` (index, split, join on a separator) and `Decimal` (rendering and reading back natural numbers, as the source's `%v` formatting does).

Objects the source changes in place are classes with `modifies` clauses:

- a region's table;
- a forwarder's maps;
- a delivery buffer;
- a gateway's run state;
- the simulator's fields;
- the repository's simulator reference.

Loops over Go maps are `while` loops over the key set that take keys in an arbitrary order. Their proofs do not depend on that order.

Where what a method is evidently meant to do and its code disagree, the model follows the code. `Forwarder.Reset`, by its name and by its call in `Simulator.Stop`, is meant to clear the forwarder. As written, it assigns a fresh forwarder to its own receiver variable only. The model therefore proves that `Reset`, and with it `Simulator.Stop`, leaves the routing tables as they were.

## Model

| member | source | states |
|---|---|---|
| EuFSKRegion.EuFSK.Setup | simulator/components/device/regional_parameters/eufsk.go:19-41 | the table becomes the EU863-870/FSK plan: 863-870 MHz, RX2 at 869.525 MHz DR0, DR0..DR7, RX1 offsets 0..5, one group of 3 uplink channels from 868.1 MHz every 200 kHz with DR0..5, and the given Class B record |
| EuFSKRegion.EuFSK.GetDataRate | simulator/components/device/regional_parameters/eufsk.go:43-56 | DR0..DR5 name LoRa SF12..SF7 at 125 kHz, DR6 SF7 at 250 kHz, DR7 FSK 50000; every other index gives ("", "") |
| EuFSKRegion.EuFSK.FrequencySupported | simulator/components/device/regional_parameters/eufsk.go:58-65 | passes exactly for frequencies in the table's inclusive range; otherwise fails with "Frequency not supported" |
| EuFSKRegion.EuFSK.DataRateSupported | simulator/components/device/regional_parameters/eufsk.go:67-74 | passes exactly for data rates in the inclusive range; otherwise fails with "Invalid Data Rate" |
| EuFSKRegion.EuFSK.GetChannels | simulator/components/device/regional_parameters/eufsk.go:80-97 | one channel per reserved channel of the first group, none when the count is not positive; each is active, carries the group's uplink flag, uses the same frequency up and down (initial + offset * i, in 32-bit arithmetic), with DR 0..5 |
| EuFSKRegion.EuFSK.RX1DROffsetSupported | simulator/components/device/regional_parameters/eufsk.go:115-121 | passes exactly for offsets in the inclusive range; otherwise fails with "Invalid RX1DROffset" |
| EuFSKRegion.EuFSK.SetupRX1 | simulator/components/device/regional_parameters/eufsk.go:129-137 | the RX1 data rate is the uplink data rate minus the offset, floored at 0 rather than wrapping; the channel index is passed through |
| EuFSKRegion.EuFSK.SetupInfoRequest | simulator/components/device/regional_parameters/eufsk.go:139-149 | answers DR5's parameter "SF7BW125"; an index below the reserved-channel count is kept, any other becomes a random index within the count |
| EuFSKRegion.EuFSK.GetPayloadSize | simulator/components/device/regional_parameters/eufsk.go:159-172 | (M, N) is the RP002 section 2.4.6 entry for DR0..DR7, (0, 0) beyond; the dwell-time flag is ignored |
| EuFSKRegion.EuFSK.GetCode | simulator/components/device/regional_parameters/eufsk.go:76-78 | the region code is the one the plan records, and after Setup the one in the table |
| EuFSKRegion.EuFSK.GetMinDataRate | simulator/components/device/regional_parameters/eufsk.go:99-101 | the lowest supported data rate: nothing below it passes DataRateSupported, and it passes itself when the range is non-empty; 0 after Setup |
| EuFSKRegion.EuFSK.GetMaxDataRate | simulator/components/device/regional_parameters/eufsk.go:103-105 | the highest supported data rate: nothing above it passes DataRateSupported, and it passes itself when the range is non-empty; 7 after Setup |
| EuFSKRegion.EuFSK.GetNbReservedChannels | simulator/components/device/regional_parameters/eufsk.go:107-109 | the first group's reserved-channel count, which sets how many channels GetChannels lays out; 3 after Setup |
| EuFSKRegion.EuFSK.GetFrequencyBeacon | simulator/components/device/regional_parameters/eufsk.go:151-153 | the beacon frequency of the Class B record Setup stored |
| EuFSKRegion.EuFSK.GetDataRateBeacon | simulator/components/device/regional_parameters/eufsk.go:155-157 | the beacon data rate of the Class B record Setup stored |
| EuFSKRegion.EuFSK.GetParameters | simulator/components/device/regional_parameters/eufsk.go:174-176 | the whole table, which after Setup is the plan |
| EuFSKRegion.SupportedRanges | simulator/components/device/regional_parameters/eufsk.go:19-74 | after Setup: frequencies 863000000..870000000, DR0..DR7 and offsets 0..5 pass and nothing else does (862 MHz fails, 868.1 MHz passes); RX2 is 869.525 MHz at DR0 |
| EuFSKRegion.DataRateNames | simulator/components/device/regional_parameters/eufsk.go:43-74 | a data rate is supported if and only if it has a name, and distinct supported data rates have distinct names |
| EuFSKRegion.PlanChannels | simulator/components/device/regional_parameters/eufsk.go:19-41 | channel i of the plan is at 868100000 + 200000 * i with no wrap-around, a supported frequency, and DR0 and DR5 are supported |
| EuFSKRegion.RX1StaysSupported | simulator/components/device/regional_parameters/eufsk.go:115-137 | a supported data rate with a supported offset yields a supported RX1 data rate no higher than the uplink's |
| EuFSKRegion.PayloadTiers | simulator/components/device/regional_parameters/eufsk.go:159-172 | dwell time makes no difference; a limit exists if and only if the data rate is supported; N = M - 8; M never falls as the data rate rises |
| Ql256Region.Ql256.Setup | simulator/components/device/regional_parameters/ql256.go:19-41 | the table becomes the Ql256 plan: 256.1-257.5 MHz, RX2 at 256.7 MHz DR7, DR7 only, offset 0 only, one group of 3 uplink channels from 256.1 MHz every 200 kHz, and the given Class B record |
| Ql256Region.Ql256.GetDataRate | simulator/components/device/regional_parameters/ql256.go:43-52 | DR7 names LoRa SF5 at 125 kHz ("LORA", "SF5BW125"); every other index gives ("", "") |
| Ql256Region.Ql256.FrequencySupported | simulator/components/device/regional_parameters/ql256.go:54-61 | passes exactly for frequencies in the inclusive range; otherwise fails with "Frequency not supported" |
| Ql256Region.Ql256.DataRateSupported | simulator/components/device/regional_parameters/ql256.go:63-70 | passes exactly for data rates in the inclusive range; otherwise fails with "Invalid Data Rate" |
| Ql256Region.Ql256.GetChannels | simulator/components/device/regional_parameters/ql256.go:76-93 | as for EuFSK: one active channel per reserved channel at initial + offset * i, with the constant DR range 0..5 written by the loop |
| Ql256Region.Ql256.RX1DROffsetSupported | simulator/components/device/regional_parameters/ql256.go:111-117 | passes exactly for offsets in the inclusive range; otherwise fails with "Invalid RX1DROffset" |
| Ql256Region.Ql256.SetupRX1 | simulator/components/device/regional_parameters/ql256.go:125-133 | the RX1 data rate is the uplink data rate minus the offset, floored at 0; the channel index is passed through |
| Ql256Region.Ql256.SetupInfoRequest | simulator/components/device/regional_parameters/ql256.go:135-145 | the parameter string is empty, because the plan has no DR5 to name; index rule as for EuFSK |
| Ql256Region.Ql256.GetPayloadSize | simulator/components/device/regional_parameters/ql256.go:155-162 | (230, 222) for DR7, the plan's one data rate, and (0, 0) for every other index |
| Ql256Region.Ql256.GetCode | simulator/components/device/regional_parameters/ql256.go:72-74 | the region code is the one the plan records, and after Setup the one in the table |
| Ql256Region.Ql256.GetMinDataRate | simulator/components/device/regional_parameters/ql256.go:95-97 | the lowest supported data rate: nothing below it passes DataRateSupported, and it passes itself when the range is non-empty; 7 after Setup |
| Ql256Region.Ql256.GetMaxDataRate | simulator/components/device/regional_parameters/ql256.go:99-101 | the highest supported data rate: nothing above it passes DataRateSupported, and it passes itself when the range is non-empty; 7 after Setup |
| Ql256Region.Ql256.GetNbReservedChannels | simulator/components/device/regional_parameters/ql256.go:103-105 | the first group's reserved-channel count, which sets how many channels GetChannels lays out; 3 after Setup |
| Ql256Region.Ql256.GetFrequencyBeacon | simulator/components/device/regional_parameters/ql256.go:147-149 | the beacon frequency of the Class B record Setup stored |
| Ql256Region.Ql256.GetDataRateBeacon | simulator/components/device/regional_parameters/ql256.go:151-153 | the beacon data rate of the Class B record Setup stored |
| Ql256Region.Ql256.GetParameters | simulator/components/device/regional_parameters/ql256.go:164-166 | the whole table, which after Setup is the plan |
| Ql256Region.SupportedRanges | simulator/components/device/regional_parameters/ql256.go:19-70 | after Setup: frequencies 256100000..257500000 pass, only DR7 passes, only offset 0 passes; RX2 is 256.7 MHz at DR7 |
| Ql256Region.DataRateNames | simulator/components/device/regional_parameters/ql256.go:43-70 | a data rate is supported if and only if it has a name, and if and only if it has the (230, 222) limit |
| Ql256Region.PlanChannels | simulator/components/device/regional_parameters/ql256.go:19-93 | channel i is at 256100000 + 200000 * i, a supported frequency, but none of the DR 0..5 the channels record is supported by the plan |
| Ql256Region.RX1StaysSupported | simulator/components/device/regional_parameters/ql256.go:111-133 | the only supported pair (DR7, offset 0) gives RX1 at DR7 on the same channel |
| RegionalParameters.GroupChannels | simulator/components/device/regional_parameters/eufsk.go:80-97 | the channel loop: length max(0, count), entry i active at ChannelFrequency(i) both ways with DR 0..5 |
| RegionalParameters.ChannelFrequencyExact | simulator/components/device/regional_parameters/eufsk.go:84 | when the top channel of a group fits in 32 bits, channel i's frequency is exactly initial + offset * i |
| RegionalParameters.ParseRender | simulator/components/device/regional_parameters/eufsk.go:43-56 | the (modulation, parameter) strings read back as the data rate they were built from |
| RegionalParameters.RenderInjective | simulator/components/device/regional_parameters/eufsk.go:43-56 | distinct data rates never share strings |
| Decimal.ParseFormat | simulator/components/device/regional_parameters/eufsk.go:46-48 | the decimal rendering `%v` gives a number reads back as that number |
| Strings.Split | simulator/api.go:111 | splitting on a separator gives at least one piece, no piece holds the separator, and joining the pieces gives the string back |
| Forwarding.Forwarder.Setup | simulator/components/forwarder/api.go:11-21 | all three tables start empty |
| Forwarding.Forwarder.AddGateway | simulator/components/forwarder/api.go:23-29 | the gateway is recorded under its MAC address, replacing any earlier record; the routing maps are unchanged |
| Forwarding.Forwarder.DeleteDevice | simulator/components/forwarder/api.go:31-42 | after emptying its gateway map entry by entry, the device is gone and every other device keeps its entry; the other tables are unchanged |
| Forwarding.Forwarder.DeleteGateway | simulator/components/forwarder/api.go:44-51 | only the record under the gateway's MAC address is removed |
| Forwarding.Forwarder.Uplink | simulator/components/forwarder/api.go:53-65 | the built packet is appended to every buffer bound to the device, once per entry holding that buffer; the tables themselves do not change |
| Forwarding.Forwarder.Downlink | simulator/components/forwarder/api.go:67-77 | the frame is appended to every receiver registered for the frequency and gateway (none when either key is missing), once per entry holding it |
| Forwarding.Forwarder.Reset | simulator/components/forwarder/api.go:79-81 | as written, the forwarder's tables are left exactly as they were |
| Forwarding.PushAll | simulator/components/forwarder/api.go:59-61 | pushing to every entry of a map in any order appends to each buffer as many copies as there are entries holding it |
| Forwarding.UplinkOnce | simulator/components/forwarder/api.go:53-65 | when each gateway has its own buffer, one uplink adds exactly one packet to each bound gateway's buffer |
| Forwarding.DeleteDeviceTwice | simulator/components/forwarder/api.go:31-42 | deleting a device is idempotent |
| Simulation.Simulator.GetIstance | simulator/api.go:22-37 | a stopped simulator over the loaded registry, id counter and bridge address, with no active gateways and an empty forwarder |
| Simulation.Simulator.Run | simulator/api.go:45-55 | the state becomes Running, every active gateway is switched on, every other gateway keeps its state, and the registry, active set, counter and bridge are unchanged |
| Simulation.Simulator.Stop | simulator/api.go:57-76 | the state becomes Stopped, every active gateway is switched off, every other gateway keeps its state, and the forwarder's tables are unchanged |
| Simulation.Simulator.SaveBridgeAddress | simulator/api.go:78-102 | the bridge address is stored as "Address:Port" |
| Simulation.Simulator.GetBridgeAddress | simulator/api.go:104-117 | an empty store gives the zero endpoint; a nonempty store without ':' has no answer (the source panics); otherwise both fields are ':'-free and "Address:Port" is the whole store or the part before its next ':' |
| Simulation.BridgeRoundTrip | simulator/api.go:78-117 | reading back a saved endpoint gives it back if and only if neither the address nor the port holds ':' |
| Simulation.SaveThenGet | simulator/api.go:78-117 | after saving a ':'-free endpoint, reading the bridge address gives that endpoint |
| Simulation.Simulator.GetGateways | simulator/api.go:119-129 | returns exactly one copy of each registered gateway, and nothing else |
| Simulation.Simulator.SetGateway | simulator/api.go:131-210 | the code is the first failing check in the order zero MAC, gateway on (update), name in use, MAC in use, no bridge for a non-native gateway. An add takes the next id once the MAC is non-zero, even when a later check fails. A failure leaves registry and active set unchanged. Success stores the gateway under its id, adds it to or removes it from the active set per its flag, and switches it on when active while running |
| Simulation.VerdictOrder | simulator/api.go:131-177 | each error code holds if and only if its own check fails and every earlier one passes, in the order zero MAC, gateway on (update), name in use, MAC in use, no bridge; CodeOK if and only if every check passes |
| Simulation.AddDuplicateName | simulator/api.go:155-161 | adding a gateway under a name another gateway already has is refused with the name code and leaves the registry as it was |
| Simulation.Simulator.DeleteGateway | simulator/api.go:212-232 | refused, changing nothing, when the gateway is on; otherwise it leaves both the registry and the active set |
| Simulation.Simulator.ToggleStateGateway | simulator/api.go:234-242 | a stopped gateway is switched on, any other is switched off |
| Repositories.SimulatorRepository.NewSimulatorRepository | repositories/simulator-repo.go:34-37 | a repository without a simulator |
| Repositories.SimulatorRepository.GetIstance | repositories/simulator-repo.go:39-41 | the repository now holds a new, stopped simulator over the loaded registry, counter and bridge address, with no active gateways and a fresh, empty forwarder |
| Repositories.SimulatorRepository.Run | repositories/simulator-repo.go:47-56 | succeeds if and only if the simulator was stopped; a refusal changes nothing; a success leaves it running with its active gateways on, every other gateway in its state, and registry, active set, counter, bridge and forwarder kept |
| Repositories.SimulatorRepository.Stop | repositories/simulator-repo.go:58-67 | succeeds if and only if the simulator was running; a refusal changes nothing; a success leaves it stopped with its active gateways off, every other gateway in its state, registry, active set, counter and bridge kept, and the forwarder's tables untouched |
| Repositories.SimulatorRepository.Status | repositories/simulator-repo.go:69-75 | true if and only if the simulator is running |
| Repositories.SimulatorRepository.SaveBridgeAddress | repositories/simulator-repo.go:77-79 | stores "Address:Port", which reads back as the endpoint exactly when neither part holds ':' |
| Repositories.SimulatorRepository.GetBridgeAddress | repositories/simulator-repo.go:81-83 | the simulator's stored bridge endpoint: zero when none is stored, no answer for a store without ':', otherwise the ':'-free fields that rebuild the store up to its next ':' |
| Repositories.SimulatorRepository.GetGateways | repositories/simulator-repo.go:85-87 | one copy of each registered gateway |
| Repositories.SimulatorRepository.AddGateway | repositories/simulator-repo.go:89-91 | the simulator's add: the verdict, the id taken once the MAC is non-zero, nothing else changed on failure; on success a new id, the gateway stored, the active set joined or left per its flag, and the gateway switched on when active while running; run state and bridge kept |
| Repositories.SimulatorRepository.UpdateGateway | repositories/simulator-repo.go:93-96 | the simulator's update with the id dropped: the verdict, the counter, run state and bridge kept, nothing else changed on failure; on success the gateway replaces its entry, joins or leaves the active set per its flag, and is switched on when active while running |
| Repositories.SimulatorRepository.DeleteGateway | repositories/simulator-repo.go:98-100 | refused, changing nothing, when the gateway is on; otherwise removed from the registry and the active set; counter, run state, bridge and forwarder kept |
| Repositories.SimulatorRepository.ToggleStateGateway | repositories/simulator-repo.go:102-104 | the gateway's run state flips |

## Left out

- `LinkAdrReq` of both plans: the MAC command handling is not part of this model.
- `GetCodR` of both plans: it returns a constant coding-rate string, and no property rests on it.
- `InfoClassB.Setup` is not part of this model. Each plan's `Setup` takes the Class B record it would produce as a parameter.
- `rand.Seed` and `rand.Int()` in `SetupInfoRequest` become a parameter `rnd`, a non-negative number.
- EuFSKRegion.EuFSK.SetupInfoRequest and Ql256Region.Ql256.SetupInfoRequest require a non-zero reserved-channel count when the index is out of range. The source divides by zero there.
- EuFSKRegion.EuFSK.GetChannels, Ql256Region.Ql256.GetChannels and the `GetNbReservedChannels` getters require at least one channel group. The source indexes the first group without a check.
- The `createPacket` helper of the forwarder is not part of this model. `Uplink` takes it as a function parameter.
- The buffers' own implementation is not part of this model. `Push` is an append to a sequence, with no blocking and no consumer.
- The forwarder's mutex is left out, and so are the simulator's goroutines, wait group (`ExitGroup`) and `ComponentsInactiveTmp`. The model is sequential.
- Forwarding.Forwarder.DeleteDevice: in Go the inner map is shared by reference, so emptying it is also visible to any other holder. The model copies maps by value and captures only the forwarder's own table.
- `Downlink` passes one payload pointer to every receiver. The model pushes the same value, so it does not capture later mutation through that pointer.
- Persistence is left out: `loadData`, `saveComponent`, `saveStatus`, the configuration files and `log.Fatal` on I/O errors. `GetIstance` takes the loaded registry, counter and bridge address as parameters.
- Simulation.Simulator.GetIstance assumes two things about the data `loadData` restores. First, each loaded gateway is stored under its own `Id`, and that id is below the saved id counter; its `requires` says so. The program's own writes keep this true, because `SetGateway` stores a gateway under its id and saves the registry and the counter together (simulator/api.go:179-189). Second, `loadData` does not restore `State`. The source sets `State` to Stopped before `loadData` (simulator/api.go:26-28), and `State` is also written to simulator.json, so a saved Running state would be read back. The model's `ensures State == Stopped` holds only under this assumption.
- Repositories.SimulatorRepository.GetIstance makes the same two assumptions about the loaded data, because it calls Simulation.Simulator.GetIstance.
- Simulation.Simulator.SaveBridgeAddress has no error result. The source always returns nil after writing the file.
- Console output, `Print`, `AddWebSocket` and `SetupConsole` are left out. So are the dashboard's web server and controllers.
- The model treats `s.setup()`, `s.reset()` and `Gateway.TurnOFF` as changing nothing modelled except a gateway's run state. The same goes for the per-gateway `Setup` and for `turnONGateway` and `turnOFFGateway`. `Stop` calls `TurnOFF` directly on every active gateway (simulator/api.go:62-64). `Gateway.IsOn` is modelled only as "its state is Running".
- Simulation.Simulator.Run: its frame leaves out the forwarder. Whatever `s.setup()` does to the forwarder is not modelled.
- Simulation.Simulator.Stop: `ensures unchanged(Forwarder)` also spans `s.reset()` (simulator/api.go:74), which the model assumes leaves the forwarder alone. `Stop`'s body calls `Forwarding.Forwarder.Reset`, which is proved to leave the tables as they were.
- `searchName` and `searchAddress` are not part of this model. They are modelled as "another registered gateway has this name/address", with the code the verdict order assigns. The codes' numeric values are not modelled.
- Simulation.Simulator.SetGateway: the `error` result is not modelled. In the source it is non-nil exactly when the code is not `CodeOK`, and it carries only a message, so the result code carries the same information. The repository's AddGateway and UpdateGateway drop it likewise.
- Simulation.Simulator.SetGateway requires that the gateway object passed in is not already in the registry, as with a freshly decoded request. For an update, its id must be registered: the source dereferences a missing entry.
- Simulation.Simulator.DeleteGateway and Simulation.Simulator.ToggleStateGateway require a registered id. The source dereferences a nil gateway otherwise.
- Simulation.Simulator.GetBridgeAddress answers `None` where the source panics: a non-empty stored address without ':'.
- The order in which Go visits map entries is not modelled: every loop over a map is proved for any order.
