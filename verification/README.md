# Verified models of the controller applications

This project models the controllers of the repository that keep a logical state
(tenants, routes, members, paths, sessions) and edit switch flow tables step by
step, and proves what the tables and states mean over whole runs.  It is written
for Dafny 4.11; `dafny verify dfyconfig.toml` checks it.

Most modules have the same shape.  Functions on values specify each operation,
branch by branch and with its exceptions; lemmas prove invariants, exact
conditions and whole-run theorems about those functions; and classes hold the
fields that the source updates in place, with methods and loops proved to do
what the functions say.  Dictionary orders that Python leaves open are arbitrary
choices in the methods.

| files | what they model |
|---|---|
| TenantStore | the tenant store of `controller/network.py`, its three indexes and its events |
| TunnelMesh | tunnel requests kept in step with the store (`app/tunnel_port_updater.py`) |
| TunnelStore | tunnel keys and tunnel ports (`controller/tunnels.py`) |
| Overlay, OverlaySystem, OverlayIsolation, OverlayLocal, OverlayCompiled, OverlayDelivery, OverlayCrossing, OverlayGuards, OverlayExamples, OverlayHandlers | the three chained tables of `app/gre_tunnel.py`: handlers, whole runs, isolation, incremental against from scratch, delivery on a switch and across tunnels, no packet unmatched, runs that fail, and the handlers as loops |
| Prefixes, RouterFlows, RouterState, RouterSteps, RouterDeletion, RouterRuns, RouterForwarding, VlanRouter | the router of `app/rest_router.py` |
| LabelSwitching, LabelObjects | label-switched paths of `app/domain_reply_controller.py` with labels and links |
| PathSections | sections and labels of a path in `app/net.py` |
| Bfd | sessions of `lib/bfdlib.py` |
| Stream | the receive loop of `controller/controller.py` and the headers of `ofproto/ofproto_parser.py` |
| Igmp | the querier of `lib/igmplib.py` |
| SimpleIsolation | `app/simple_isolation.py` with its MAC tables |
| Firewall | rule ids of `app/rest_firewall.py` |

Where the code does not do what it promises, the model follows the code, and a
lemma says exactly when:

- `OverlayCompiled.FromScratchExactly`, `OverlayDelivery.CarriedExactly`: two ports
  of a tenant that become live in one step on a switch without any leave it
  without its catch-all drop rule and without its way from TUNNEL_OUT to LOCAL_OUT,
  so its VMs there do not reach each other (`OverlayExamples.LateKeyFromStart`).
- `OverlayIsolation.ReuseExactly`: rows that use a former tunnel port stay, so the
  port's number may be given to a VM exactly if there are none
  (`OverlayExamples.ReuseLeaksFromStart`).
- `OverlayCrossing.LedExactly`: a tunnel port that comes up takes over the rows of
  the MACs at its far end, also of one that is live behind another tunnel port
  (`OverlayExamples.TakenOverFromStart`).
- `OverlayCrossing.FloodsExactly`: the broadcast row is not rewritten when a tunnel
  port goes down or a port without MAC joins or leaves a network, so it may name
  ports it should not, or miss ones to switches without live ports.
- `RouterSteps.SetRouteExactly`, `RouterDeletion.DeleteRouteKeeps`,
  `RouterDeletion.DeleteAddressKeeps`: a destination of mask length 0 over a
  default route (`RouterRuns.DisplacedFromStart`), route id 0, address id 0 and
  address ids that read as routes.
- `RouterRuns.LearnedUnlessRouted`: a static route takes packets for unknown hosts
  of a registered subnet that the packet-in handler would look for in the subnet.
- `LabelSwitching.DeliveredExactlyWhenFeasible`: labels are counted on one stored
  path and used along another.
- `Igmp.ReportKeepsExactly`: a report on the server's own port.
- `Firewall.OwnedExactly`, `Firewall.EachServedExactly`: a request for the untagged
  VLAN whose data name a VLAN, by themselves (`Firewall.TwoOfOneId`) or because
  another switch was served from the same data before (`Firewall.SecondSwitch`).
- `Stream.StallsExactly`: a header whose length field is zero.
- `SimpleIsolation.ForgetsAllExactly`: a MAC learned while its port had no network
  (`SimpleIsolation.BreaksOffFromStart`).
- `Bfd.TimingOverRuns`: the peer's state variable is never updated, so demand mode
  never takes effect.

## Model

| member | source | states |
|---|---|---|
| TenantStore.AgreementExactlyWhenSafe | controller/network.py:330-411 | for every public call and every store in agreement: `networks`, `dpids` and `mac_addresses` agree after the call if and only if a guard a caller can check before it holds (move a port only before it has a MAC, empty a network before removing it, name the port's network, and so on); calls that raise half way included |
| TenantStore.RunKeepsAgreement | controller/network.py:58-125 | over every run of guarded calls the three indexes agree |
| TenantStore.OneNetworkPerPort | controller/network.py:99-125 | with the indexes in agreement no port is in two networks |
| TenantStore.HowPortsChange | controller/network.py:149-253 | under guarded calls a port joins a network only by being put there, gets a MAC only by being given it, and loses that only by being removed |
| TenantStore.WhatEventsSay | controller/network.py:31-56 | what an event of a guarded call says about the store it is handled in |
| TenantStore.MembershipAnnounced | controller/network.py:79-89 | every call that does not raise, guarded or not, sends an event for each port that joins or leaves a network, and for no other |
| TenantStore.MacsAnnounced | controller/network.py:226-249 | every guarded call sends an event for each MAC that a port gets or loses, and for no other |
| TenantStore.Network.CreateNetwork | controller/network.py:73-77 | the method leaves exactly the store, exception and events of the specification |
| TenantStore.Network.UpdateNetwork | controller/network.py:70-71 | update_network gives a missing network an empty set of ports, keeps an existing one, and refuses the unknown id |
| TenantStore.Network.RemoveNetwork | controller/network.py:79-89 | the draining loop pops every port in some order and sends one event for each, then the network's own |
| TenantStore.Network.MovePort | controller/network.py:330-354 | _update_port: which index is written, which exception is raised with what already written, and which events are sent, in each of its branches |
| TenantStore.Network.RemovePort | controller/network.py:372-389 | the port leaves all three indexes, with the MAC event before the port event |
| TenantStore.Network.CreateMac | controller/network.py:400-402 | the MAC index is written before the port is looked up, and stays written when that raises |
| TenantStore.Network.UpdateMac | controller/network.py:404-411 | update_mac on a port the store lacks, one without a MAC, one with another MAC, and one with the same MAC: which indexes are written and which exception is raised |
| TunnelMesh.CallKeepsMesh | app/tunnel_port_updater.py:420-473 | after the events of one store call are handled, a tunnel is requested between two switches exactly if they share a tenant network, and no handler raises |
| TunnelMesh.RunKeepsMesh | app/tunnel_port_updater.py:420-473 | the same over every run of guarded calls |
| TunnelMesh.MeshFromEmpty | app/tunnel_port_updater.py:346-369 | the same from the empty store |
| TunnelMesh.MeshIsSymmetric | app/tunnel_port_updater.py:333-343 | requests are symmetric |
| TunnelMesh.TunnelPortUpdater.AddRequest | app/tunnel_port_updater.py:334-336 | both directions are requested |
| TunnelMesh.TunnelPortUpdater.RemoveRequest | app/tunnel_port_updater.py:338-340 | both directions of a request go; a missing direction is reported, and then exactly the direction removed before it is gone |
| TunnelMesh.TunnelPortUpdater.PortAdd | app/tunnel_port_updater.py:420-431 | the loop requests a tunnel to every other switch of the network; a switch that is not in it raises before anything is requested |
| TunnelMesh.TunnelPortUpdater.PortDel | app/tunnel_port_updater.py:433-462 | the loop drops exactly the switches that share no other tenant network; where a lookup raises, nothing but requests between this switch and those is gone |
| TunnelMesh.TunnelPortUpdater.NetworkPortHandler | app/tunnel_port_updater.py:464-473 | reserved networks are passed over, additions and deletions handled as specified; where the handler raises, nothing but requests between the port's switch and strangers to it is gone |
| TunnelStore.KeysStayInjective | controller/tunnels.py:76-96 | registering or updating keys never lets two networks share one; registering succeeds exactly for a new network and an unused key |
| TunnelStore.PortRegistrationKeepsOnePort | controller/tunnels.py:117-133 | a registration keeps the assertion of get_port true exactly when no other port of the switch leads to the same remote |
| TunnelStore.AtMostOnePort | controller/tunnels.py:149-160 | under that assertion get_port finds one port |
| TunnelStore.TunnelRegistry.AddKey | controller/tunnels.py:80-85 | register_key: a known network is refused first, then a used key; otherwise exactly this key is added |
| TunnelStore.TunnelRegistry.ChangeKey | controller/tunnels.py:87-96 | update_key: a new network with a used key is refused, so is another key for a known network; the same key changes nothing |
| TunnelStore.TunnelRegistry.ChangePort | controller/tunnels.py:127-133 | update_remote_dpid: a new port is added, another remote for a known port is refused, the same remote changes nothing |
| TunnelStore.TunnelRegistry.AddPort | controller/tunnels.py:121-125 | add_remote_dpid: a known port is refused, a new one added with its remote |
| TunnelStore.TunnelRegistry.RemovePort | controller/tunnels.py:142-148 | delete_port: exactly this port goes, or it is reported missing |
| TunnelStore.TunnelRegistry.GetPort | controller/tunnels.py:149-160 | the scan finds the one port to the remote switch, if there is one |
| OverlayIsolation.IsolationOverRuns | app/gre_tunnel.py:504-952 | tenant isolation over every run of store calls, key and tunnel registrations, link changes and joining switches, safe reuse of tunnel ports for VMs included: a packet from a VM port, followed through all tables and any number of tunnels, leaves only on VM ports of the same tenant, and only under the port's own MAC |
| OverlayIsolation.SplitHorizon | app/gre_tunnel.py:573-618 | what came in on a tunnel port is never output to a tunnel port, so floods cannot loop |
| OverlayIsolation.StepKeepsFlows | app/gre_tunnel.py:861-952 | every step keeps the meaning of every row of every switch's tables |
| OverlayIsolation.TunnelArrival | app/gre_tunnel.py:516-549 | a tunnelled packet stays on the switch it arrives at and reaches only holders of its key |
| OverlayIsolation.ReuseExactly | app/gre_tunnel.py:939-952 | for every good state: after a tunnel port is closed and its number given to a VM every row still means what it says, if and only if no row of the switch outputs to the port in TUNNEL_OUT or passes its packets to LOCAL_OUT; the same condition decides whether the run is an allowed one |
| OverlayIsolation.ReusedTunnelPortLeaks | app/gre_tunnel.py:939-952 | where a tunnel port in use is given to a VM of another tenant, a packet that left on the tunnel now leaves the overlay on that VM's port |
| OverlayExamples.ReuseLeaksFromStart | app/gre_tunnel.py:861-952 | a run from the empty system: two switches with one VM each of one tenant, their tunnel closed while rows use it, its number given to another tenant's VM, and the packet that comes out there |
| OverlayCompiled.FromScratchExactly | app/gre_tunnel.py:516-580 | after each step LOCAL_OUT of every switch equals the table compiled afresh from the live ports, if and only if the step did not make two ports of a tenant live at once on a switch that had none |
| OverlayCompiled.CompiledOverRuns | app/gre_tunnel.py:710-773 | incremental equals from scratch over every run without such a step, from the empty system |
| OverlayCompiled.LateKeyCrowds | app/gre_tunnel.py:231-235 | registering a key after two ports of its network came up on one switch is such a step: that switch never gets its drop rule |
| OverlayDelivery.CarriedExactly | app/gre_tunnel.py:552-631 | after each step every live port has its own row in SRC and there is a way from TUNNEL_OUT to LOCAL_OUT exactly where some port is live, if and only if the step did not make two ports of a tenant live at once on a switch that had none |
| OverlayDelivery.DeliveredLocally | app/gre_tunnel.py:516-631 | in such a state, with LOCAL_OUT freshly compiled, a live port's packet to the MAC of another live port of its tenant on the switch comes out there |
| OverlayDelivery.DeliveredOverRuns | app/gre_tunnel.py:516-631 | over every run from the empty system without such a step the VMs of a tenant on one switch reach each other |
| OverlayDelivery.NotDelivered | app/gre_tunnel.py:585-602 | a port whose key has neither pass row nor a row for the destination in TUNNEL_OUT gets no packet out on any port |
| OverlayDelivery.LateKeySilences | app/gre_tunnel.py:231-235 | registering the key late also leaves the switch without its pass row |
| OverlayExamples.LateKeyFromStart | app/gre_tunnel.py:231-235 | a run from the empty system: two VMs of one tenant up on one switch before the key, and nothing the first sends to the second comes out |
| OverlayCrossing.CrossedExactly | app/gre_tunnel.py:552-614 | after each step live ports are carried to LOCAL_OUT, and between any two switches with live ports of a tenant and a usable tunnel the broadcast row outputs to the tunnel port and what comes in there under the key goes on to LOCAL_OUT, if and only if the step did not make two ports of a tenant live at once on a switch that had none |
| OverlayCrossing.FloodsExactly | app/gre_tunnel.py:604-614 | after each step a tenant's broadcasts on a switch go exactly to the up tunnel ports towards the connected switches of the network, if and only if the last event that rewrites the row is an exact one, or there is none and they went exactly there before; an event is not exact if it withdraws the last active port of a switch that still has other ports of the network, or adds a tunnel port to a switch that is not connected |
| OverlayCrossing.LedExactly | app/gre_tunnel.py:633-665 | after each step the TUNNEL_OUT row of a MAC outputs towards every switch where the MAC is live and to which there is a usable tunnel, if and only if the step does not let a tunnel port to another switch with the same MAC take the row over |
| OverlayCrossing.SoleHolderKeepsRows | app/gre_tunnel.py:904-915 | the row of a MAC that only one port carries is never taken over |
| OverlayCrossing.BroadcastsOverRuns | app/gre_tunnel.py:504-698 | over every run from the empty system that crowds no switch and gives no VM the broadcast address: a live port's broadcast goes out on the tunnel port to any other switch with live ports of its tenant and comes out there on each of them |
| OverlayCrossing.UnicastOverRuns | app/gre_tunnel.py:552-698 | over the same runs: a live port's packet to a MAC that is live on another switch and never sat on two ports crosses the tunnel and comes out on that MAC's port |
| OverlayCrossing.BroadcastCrosses | app/gre_tunnel.py:604-614 | the same for one state: out of the near end of the tunnel, into the far end, and out on the live port |
| OverlayCrossing.UnicastCrosses | app/gre_tunnel.py:585-602 | the same for a unicast packet, where the MAC's row leads to the switch |
| OverlayCrossing.CrossingReaches | app/gre_tunnel.py:516-618 | what crosses so reaches its port in the sense of the isolation theorem, in one hop |
| OverlayCrossing.BroadcastStaysToo | app/gre_tunnel.py:525-545 | a live port's broadcast also comes out on the live ports of its tenant on its own switch |
| OverlayCrossing.LeavesOnlyThere | app/gre_tunnel.py:585-592 | with a row for the destination MAC a packet leaves the switch on that row's tunnel ports and no others |
| OverlayExamples.TakenOverFromStart | app/gre_tunnel.py:904-915 | a run from the empty system: a MAC that is live on one switch is put on a second, whose tunnel port comes up and takes the row over; packets to the MAC no longer leave towards the switch where it is live |
| OverlayGuards.NothingFallsThrough | app/gre_tunnel.py:621-631 | whatever a live port sends hits a row in SRC, its own row or the drop row; under its tenant's key every packet hits one in TUNNEL_OUT and in LOCAL_OUT |
| OverlayGuards.NoMissOverRuns | app/gre_tunnel.py:621-631 | so it is over every run from the empty system that crowds no switch |
| OverlayCompiled.StepOnlyAdds | app/gre_tunnel.py:179-275 | every port that becomes live is announced by one of the step's events |
| OverlayCompiled.WithdrawingStep | app/gre_tunnel.py:710-773 | steps that withdraw a port always leave LOCAL_OUT freshly compiled |
| OverlayHandlers.AssertionsHold | app/gre_tunnel.py:486-535 | in every allowed step the handlers' assertions hold and their unguarded lookups succeed |
| OverlayHandlers.ActivePorts | app/gre_tunnel.py:526-532 | the loop collects the ports of the network that carry a MAC and are up |
| OverlayHandlers.ListTunnelPorts | app/gre_tunnel.py:459-476 | the loop collects the tunnel ports that are up, to the connected switches of the list |
| OverlayHandlers.TunnelPortsWithMac | app/gre_tunnel.py:486-502 | the ways to the other holder of a MAC, at most one |
| OverlayHandlers.TunnelTo | app/gre_tunnel.py:464-474 | one tunnel port, if the switch is connected, the tunnel registered and its link up |
| OverlayHandlers.GreTunnel.VmPortAdd | app/gre_tunnel.py:504-698 | all loops of the handler together change the tables of all switches as the specification says |
| OverlayHandlers.GreTunnel.ScanRemotes | app/gre_tunnel.py:552-583 | the loop over remote switches collects the ways to each remote MAC and lets tunnels in for a first instance |
| OverlayHandlers.GreTunnel.VmPortDel | app/gre_tunnel.py:700-849 | all loops of the handler together, on the port's switch and on the others, change the tables as the specification says |
| OverlayHandlers.GreTunnel.TunnelPortAdd | app/gre_tunnel.py:861-937 | both loops over the common networks |
| OverlayHandlers.GreTunnel.TunnelPortDel | app/gre_tunnel.py:939-952 | the drop rule of the port goes, nothing else |
| OverlayHandlers.GreTunnel.HandleEvent | app/gre_tunnel.py:958-971 | the dispatcher is the specification's step |
| OverlayHandlers.GreTunnel.SwitchEnters | app/gre_tunnel.py:421-441 | a joining switch starts with empty tables, and no other table changes |
| Prefixes.GatewaysTellOverlap | app/rest_router.py:1260-1269 | checking each gateway against the other subnet detects every overlap of two subnets, and nothing else (32-bit masks as computed) |
| Prefixes.NestedMask | app/rest_router.py:1860-1875 | applying a longer mask first does not matter |
| RouterFlows.CookiesRoundTrip | app/rest_router.py:622-644 | an address id comes back from its cookie exactly if it has 32 bits, a route id exactly if it has 16 |
| RouterFlows.CookiesApart | app/rest_router.py:622-644 | cookies of addresses, routes and VLANs never coincide for ids 1 to 0xffff, across all VLANs |
| RouterFlows.CookiesOverflow | app/rest_router.py:635-644 | address id 0x10000 reads as route 1, route id 0x10000 as the next VLAN |
| RouterFlows.OneOriginPerKey | app/rest_router.py:167-191 | no two purposes of a flow share match and priority, over all VLANs |
| RouterRuns.EveryRunIsGood | app/rest_router.py:453-548 | over every run of careful requests, ARP packets and idle timeouts: subnets pairwise disjoint, ids distinct, no route without a subnet, and the flow table exactly what addresses and routes call for |
| RouterRuns.LongestPrefixMatch | app/rest_router.py:1365-1386 | among the routing flows of all VLANs the one of highest matching priority is the flow of the route RoutingTable.get_data picks, with that route's action, and the drop flow exactly if it picks none; also after MAC learning |
| RouterRuns.LearnedUnlessRouted | app/rest_router.py:1073-1105 | a packet from outside for an unknown host of a registered subnet is taken by the subnet's learning flow if and only if no static route of the VLAN holds the host; _packetin_to_node would prefer the subnet in either case |
| RouterRuns.PicksOne | app/rest_router.py:1373-1384 | what get_data picks does not depend on the order of the dictionary |
| RouterForwarding.FlowsAsHeard | app/rest_router.py:1159-1206 | over every run of careful requests, ARP packets and idle timeouts from the start: exactly the hosts heard of, and neither expired nor gone with their subnet since, have a flow, and it outputs to the port and rewrites to the MAC of the last ARP heard from them; each route's flow does so with the ARP that first told its gateway's present MAC, or goes to the controller while none was heard |
| RouterForwarding.StepAgrees | app/rest_router.py:1159-1206 | each careful step keeps flows and what was heard together |
| RouterForwarding.HostForwarded | app/rest_router.py:1188-1206 | a packet for a learned host is taken by the host's flow, and leaves on the port and to the MAC last heard, if and only if it comes from outside the host's subnet and the host's address is no router's |
| RouterForwarding.NeighboursSwitched | app/rest_router.py:716-753 | a packet between two ends of one subnet is switched, if and only if it is not for a router's own address |
| RouterForwarding.OwnHandled | app/rest_router.py:716-753 | a packet for a router's own address goes to the controller |
| RouterForwarding.RoutedAsHeard | app/rest_router.py:1159-1186 | any other packet, unless a subnet is around its destination and no longer prefix is, is taken by the flow of the route that RoutingTable.get_data picks: to the gateway's port and MAC as heard, to the controller while the MAC is unknown, nowhere if no route is picked |
| RouterRuns.GatewaysHaveSubnets | app/rest_router.py:1122-1126 | every gateway lies in a registered subnet, so the cyclic ARP sender always finds an address |
| RouterState.SubnetUnique | app/rest_router.py:1291-1300 | an address lies in one registered subnet at most, so lookups by IP do not depend on the order of the dictionary |
| RouterState.CookieTells | app/rest_router.py:622-633 | each flow's cookie gives away its VLAN and which address or route it belongs to |
| RouterSteps.SetRouteExactly | app/rest_router.py:1320-1350 | setting a route keeps table and flows together if and only if it is not a destination of mask length 0, in another text than the default route's, with a usable gateway, over an existing default route |
| RouterSteps.RouteAccepted | app/rest_router.py:755-771 | a route is accepted exactly if its gateway lies in a registered subnet and is not its router, its destination is legal, and its text is not taken |
| RouterRuns.DisplacedFromStart | app/rest_router.py:1320-1350 | three requests from the start after which table and flows do not agree: an address, a default route, and 10.0.0.1/0 |
| RouterSteps.SetAddressOk | app/rest_router.py:716-753 | setting an address, accepted or refused, keeps data and flows together |
| RouterSteps.SubnetsStayApart | app/rest_router.py:1256-1286 | over every run of AddressData.add and delete, with any mask and any number of ids, no address lies in two registered subnets |
| RouterDeletion.DeleteRouteExactly | app/rest_router.py:870-909 | deleting one id or all removes exactly the chosen routes and their flows, turns a default route's flow into the drop flow, and touches no other flow of the switch; strict deletion and deletion by cookie alike |
| RouterDeletion.DeleteRouteKeeps | app/rest_router.py:870-917 | deleting a route keeps data and flows together if and only if the id is not 0 |
| RouterDeletion.DeleteAddressExactly | app/rest_router.py:806-868 | deleting one id or all removes exactly the chosen addresses that no gateway lies in, with their flows and hosts |
| RouterDeletion.DeleteAddressKeeps | app/rest_router.py:806-868 | deleting an address keeps data and flows together if and only if the id is not 0 where that reads as the drop flow, and not a live route's id shifted |
| RouterDeletion.RemovedAreListed | app/rest_router.py:1681-1691 | with a complete statistics reply, strict deletion and deletion by cookie remove the same flows |
| RouterDeletion.DefaultAlwaysThere | app/rest_router.py:773-780 | every VLAN has one IP entry of default priority in every good state |
| RouterDeletion.FewerAddresses | app/rest_router.py:919-932 | no gateway loses its subnet by a deletion, also under "all" |
| VlanRouters.AddressData.Add | app/rest_router.py:1256-1280 | the overlap loop refuses exactly overlapping subnets; otherwise the next id is dealt |
| VlanRouters.AddressData.GetData | app/rest_router.py:1291-1300 | the scan finds a subnet around the address, or there is none |
| VlanRouters.AddressData.Delete | app/rest_router.py:1282-1286 | an entry with the id goes, if there is one, and nothing else; with distinct ids it is the entry |
| VlanRouters.RoutingTable.Add | app/rest_router.py:1320-1354 | overlap is looked up by text, the entry is stored under the parsed key |
| VlanRouters.RoutingTable.GetData | app/rest_router.py:1365-1386 | the loop finds the longest static match, else the entry of 0.0.0.0/0, whatever the order |
| VlanRouters.RoutingTable.Delete | app/rest_router.py:1356-1360 | the entry with the id goes |
| VlanRouters.VlanRouter.SetAddressData | app/rest_router.py:716-753 | new address and its three flows, or nothing |
| VlanRouters.VlanRouter.SetRoutingData | app/rest_router.py:755-771 | accepted exactly if the gateway lies in a subnet, is not its router, and the destination is free |
| VlanRouters.VlanRouter.DeleteRoutingData | app/rest_router.py:870-909 | the listing and deleting loops remove the chosen routes and flows and put the drop flow back |
| VlanRouters.VlanRouter.DeleteAddressData | app/rest_router.py:806-853 | the skip list of related addresses, then the listing and deleting loops, remove the chosen addresses and flows |
| VlanRouters.VlanRouter.AddressesRelated | app/rest_router.py:919-932 | the loop finds the addresses that gateways lie in |
| VlanRouters.VlanRouter.UpdateRoutingTbl | app/rest_router.py:1159-1186 | the loop rewrites the flows of exactly the routes whose gateway's MAC was not known |
| VlanRouters.VlanRouter.PacketinArp | app/rest_router.py:964-976 | a gateway's ARP updates routes, any other host's its own flow; where these flows lead is stated by `RouterForwarding.FlowsAsHeard` |
| VlanRouters.SelectLists | app/rest_router.py:881-893 | the listing loop lists every flow the filter is after |
| LabelSwitching.DeliveredExactlyWhenFeasible | app/domain_reply_controller.py:133-151 | after a main assignment for a new address pair along distinct switches, its packets leave the last switch unlabelled on the requested port if and only if every link and switch is known and the labels number one fewer than the switches |
| LabelSwitching.StaysDelivered | app/domain_reply_controller.py:210-250 | they keep doing so after any number of later assignments, main or backup, completed or broken off, for other address pairs |
| LabelSwitching.AssignKeepsDomain | app/labelsManager.py:21-31 | labels in the pool stay distinct and matched by no flow |
| LabelSwitching.BackupCarriesExactlyWhenFeasible | app/domain_reply_controller.py:133-151 | after a backup assignment along distinct switches a packet of the pair under the first label taken, put in at the second switch, leaves the last one unlabelled on the requested port, if and only if every link and switch is known and the labels number one fewer than the switches |
| LabelSwitching.BackupLeavesFirst | app/domain_controller.py:280-340 | it leaves every row of the first switch, and every switch's row for the address pair, as they were |
| LabelSwitching.BackupDeliversOnceSwitched | app/domain_controller.py:280-340 | once the withheld push row is put in at the first switch, the pair's packets leave the last switch unlabelled on the requested port |
| LabelSwitching.OutPortLeadsThere | app/domainTopo.py:101-107 | where a port leads to one switch only, getLinkOutPort names the port that leads to the next switch |
| LabelSwitching.InstallWrites | app/domain_reply_controller.py:133-151 | an assignment writes the flows of the positions it reaches and no others; that these are the ones that deliver is stated by `DeliveredExactlyWhenFeasible` and `BackupCarriesExactlyWhenFeasible`, without naming them |
| LabelObjects.AddedLinkWired | app/domainTopo.py:29-40 | a new link keeps ports leading to one switch exactly if its near port led nowhere else |
| LabelObjects.MplsLabelsPool.GetLabels | app/labelsManager.py:21-31 | the loop takes the first labels in order, or fails if there are too few |
| LabelObjects.MplsLabelsPool.RecycleLabels | app/labelsManager.py:33-35 | labels come back at the end |
| LabelObjects.DomainTopo.LinkOutPort | app/domainTopo.py:101-107 | the scan returns the first entry's port |
| LabelObjects.DomainTopo.AddEdge | app/domainTopo.py:29-40 | a link is stored once, at the end of the list, and a link of a switch to itself is refused |
| LabelObjects.DomainController.TaskAssign | app/domain_reply_controller.py:45-127 | labels, then flows along the switch list; a handler that raises leaves the earlier flows. The outcome is the one that `DeliveredExactlyWhenFeasible` and `BackupCarriesExactlyWhenFeasible` follow packets through |
| LabelObjects.DomainController.InstallPath | app/domain_reply_controller.py:133-151 | the loop over the switch list, for main and backup paths |
| LabelObjects.DomainController.MakeRule | app/domain_controller.py:280-384 | push at the first, swap in the middle, pop at the last switch |
| PathSections.RejoinExactly | app/net.py:219-250 | following the pre and post links from the first section rebuilds a repeat-free path if and only if every domain is one stretch of it |
| PathSections.SectionsPartition | app/net.py:219-250 | every node is in the section of its domain as often as in the path, and in no other |
| PathSections.LinksAreMutual | app/net.py:219-250 | where every domain is one stretch of the path, a section leads to another's first node if and only if that one comes from its last node |
| PathSections.LabelsNeeded | app/net.py:291-303 | the sections together take as many labels as the path has nodes, less one for each domain |
| PathSections.TaskPath.GetSectorialPath | app/net.py:219-250 | the loops succeed exactly for known, distinct nodes and then give each domain its nodes in order with its neighbours |
| PathSections.TaskPath.AssignPathMpls | app/net.py:291-303 | each section gets one label fewer than it has nodes; what is dealt and what is left are the labels, in order |
| PathSections.TakeAndDeal | app/super_controller.py:386-388 | taking, dealing and recycling: the pool and the labels dealt are a permutation of the old pool, and from a repeat-free pool no label is dealt twice or stays in the pool |
| Bfd.FirstUp | lib/bfdlib.py:226-306 | handshake causality (sections 6.2 and 6.8.6 of RFC 5880): over a channel that loses, delays, duplicates and reorders, the first session to be Up got there on an Init packet of its peer, which had entered Init, and stayed there, on a Down packet of the first |
| Bfd.EnteredInit | lib/bfdlib.py:255-257 | a session in Init got there on a packet its peer sent in Down |
| Bfd.PacketMoves | lib/bfdlib.py:247-268 | what a received packet does to a session, by its state and the state the packet was sent in: the state table of section 6.8.6 of RFC 5880, in every reachable state |
| Bfd.InitGetsUp | lib/bfdlib.py:261-263 | a session in Init that receives a packet sent in Init or Up is Up |
| Bfd.LeavesUp | lib/bfdlib.py:250-268 | an Up session leaves Up only on a timeout or on a packet sent in Down or AdminDown |
| Bfd.HandshakeSucceeds | lib/bfdlib.py:255-268 | without timeouts and overtaking, though packets may be lost or repeated, a session that receives a packet which its peer sent after receiving one is Up for good |
| Bfd.ThreePackets | lib/bfdlib.py:255-268 | so three packets, each sent after the one before arrived, bring two new sessions up for good |
| Bfd.DownSaysWhy | lib/bfdlib.py:308-361 | a session that goes down notes an expired detection time or the neighbour's signal, whichever it was |
| Bfd.ExpiryTakesDown | lib/bfdlib.py:334-357 | an expiry takes a session down exactly if it is in Init or Up and its detection time runs |
| Bfd.PollsUntilFinal | lib/bfdlib.py:415-424 | a packet carries Poll exactly if no Final was received or sent since the session last came to Down or Up, or since it began, and it does not answer a poll itself (section 6.8.3) |
| Bfd.KnowsPeer | lib/bfdlib.py:230-238 | once a packet has arrived a session knows its peer's discriminator and the interval the peer asks for |
| Bfd.FinalAnswersPoll | lib/bfdlib.py:291-294 | a packet carries Final exactly if a poll was received since the last packet sent (section 6.8.7 of RFC 5880) |
| Bfd.DetectionTimeOfPoll | lib/bfdlib.py:284-294 | the detection time is that of the last poll received (section 6.8.4) |
| Bfd.TimingOverRuns | lib/bfdlib.py:308-332 | in every state two new sessions reach, one that is not Up desires one second, and its period is 75 to 100 per cent (75 to 90 with multiplier 1) of the larger interval; the sender is never switched off, since the peer's state variable is never updated |
| Bfd.PeriodBounds | lib/bfdlib.py:363-382 | a session that is not Up sends no more often than every three quarters of a second, and periods lie between 75 and 100 (or 90) per cent of the larger interval (sections 6.8.3 and 6.8.7 of RFC 5880) |
| Bfd.BFDSession.Receives | lib/bfdlib.py:226-306 | recv notes what the packet says of the peer, moves by the state table (`Bfd.PacketMoves`), and settles demand mode and detection time (`Bfd.PollStep`) |
| Bfd.BFDSession.ChangeState | lib/bfdlib.py:308-332 | _set_state: Down brings one second back and a diagnostic, Up the configured interval, both a poll and a new period |
| Bfd.BFDSession.TimesOut | lib/bfdlib.py:334-361 | an expired detection time takes a session that is neither Down nor AdminDown to Down with its diagnostic |
| Bfd.BFDSession.Sends | lib/bfdlib.py:407-470 | what is sent, and the flags it clears |
| Stream.RecvLoop | controller/controller.py:159-200 | the nested loops frame exactly the complete messages of the bytes received, keep the rest and the length waited for, and turn for ever exactly on a header of length zero |
| Stream.SplitIsTheFraming | controller/controller.py:171-191 | the framing is unique: however bytes are written as framed messages and an incomplete rest (section 5.1 of the OpenFlow Switch Specification 1.0.0), that is what is found |
| Stream.SplitConserves | controller/controller.py:171-191 | no byte is lost or repeated, and only an incomplete message is left |
| Stream.SplitMore | controller/controller.py:159-191 | more bytes change neither the messages already framed nor whether the loop is stuck |
| Stream.StallsExactly | controller/controller.py:171-191 | the loop gets stuck exactly on streams whose framing leaves a complete message, which then gives its own length as zero |
| Stream.LoopFrames | controller/controller.py:159-191 | whatever the chunks, the state of the loop is the framing of the bytes received |
| Stream.ChunkingDoesNotMatter | controller/controller.py:159-191 | fed the same bytes in any two sequences of chunks, the loop hands on the same messages in the same order, gets stuck on both or on neither, and otherwise holds the same bytes and waits for the same length |
| Stream.MessageBack | ofproto/ofproto_parser.py:180-211 | a serialized message is framed by its own header, and version, type, transaction id and body are read back as they were |
| Stream.MessagesArrive | controller/controller.py:159-200 | in whatever pieces the bytes of serialized messages come in, the loop hands on exactly these messages in their order, does not get stuck, and holds the beginning of the next |
| Igmp.ReportKeepsExactly | lib/igmplib.py:397-423 | a report keeps flows and members together if and only if it does not come from the server's port |
| Igmp.RunKeepsAgreement | lib/igmplib.py:352-446 | over every run without such a report: the server's flow exists exactly for groups with members and outputs exactly to them, and exactly the members have a flow to the controller |
| Igmp.ExpiryKeepsTheHeard | lib/igmplib.py:352-392 | after an expiry the members are exactly the ports that reported since the reset and have not left since |
| Igmp.IgmpQuerier.DoReport | lib/igmplib.py:397-423 | a report makes its port a member, marks it, and sets the member's and the server's flow only for a new member |
| Igmp.IgmpQuerier.DoLeave | lib/igmplib.py:425-446 | a leave takes the port and its flow out and narrows or removes the server's flow |
| Igmp.IgmpQuerier.ResetReplies | lib/igmplib.py:358-361 | the nested loops unmark every member |
| Igmp.IgmpQuerier.ExpireQuery | lib/igmplib.py:369-392 | the nested loops prune groups, members and flows together |
| SimpleIsolation.RunKeepsSafe | app/simple_isolation.py:133-338 | in every run from a safe state every flow of every switch outputs only to ports of the source MAC's network or the external one |
| SimpleIsolation.EveryRunIsSafe | app/simple_isolation.py:133-338 | so does every run from the empty system |
| SimpleIsolation.BindExactly | app/simple_isolation.py:86-116 | giving a port a network keeps all flows safe if and only if the network is the external one or no flow outputs to the port for a source of another network |
| SimpleIsolation.NothingImpossible | app/simple_isolation.py:195-268 | no assertion of the handler fails and no branch for a source of unknown network is taken |
| SimpleIsolation.InstalledIsSafe | app/simple_isolation.py:86-116 | the flow a packet-in installs outputs only to ports of the source MAC's network or the external one |
| SimpleIsolation.ToHeardPort | app/simple_isolation.py:86-123 | a packet that is forwarded to a destination heard before gets a flow that outputs to that port alone, if the port is of the source's network or external, and no flow otherwise |
| SimpleIsolation.ToAllPorts | app/simple_isolation.py:105-116 | a broadcast, or a packet to a destination not heard of, gets a flow that outputs to exactly the other ports of the source's network and the external ones |
| SimpleIsolation.NothingElse | app/simple_isolation.py:210-268 | no other packet gets a flow with an output; an external source on an external port gets one that drops |
| SimpleIsolation.PacketInChanges | app/simple_isolation.py:133-193 | a packet-in learns the source's port and network, takes out exactly the flows that still send packets for the source to its old port, and changes nothing else but the packet's own flow; a packet whose MAC is in use by another network changes nothing |
| SimpleIsolation.PortDelExactly | app/simple_isolation.py:287-338 | a deletion that gets through leaves exactly the flows that neither use the port nor concern a MAC learned on it, and the MACs not learned on it |
| SimpleIsolation.MacMovesOnward | controller/mac_to_network.py:35-58 | a MAC goes from unbound to external to a tenant only, in every step but the deletion of a port it was learned on |
| SimpleIsolation.OnwardOverRuns | controller/mac_to_network.py:35-58 | over every run that deletes no port the MAC is on, once a tenant's it stays that tenant's |
| SimpleIsolation.ForgetsAllExactly | app/simple_isolation.py:317-333 | deleting a port gets through if and only if every MAC learned on it has a network |
| SimpleIsolation.BreaksOffFromStart | app/simple_isolation.py:317-335 | a run from the start: a MAC heard before its port had a network, then the port's deletion, which breaks off and leaves the port in the store |
| SimpleIsolation.SimpleIsolationApp.AddMac | controller/mac_to_network.py:35-55 | binding, upgrading, ignoring or refusing a MAC |
| SimpleIsolation.SimpleIsolationApp.Filter | controller/network.py:474-489 | the loop of filter_ports |
| SimpleIsolation.SimpleIsolationApp.PacketInHandler | app/simple_isolation.py:133-268 | the branching sequence, with its assertions proved; which flow it installs is stated by `ToHeardPort`, `ToAllPorts` and `NothingElse` |
| SimpleIsolation.SimpleIsolationApp.PortAddHandler | app/simple_isolation.py:270-285 | all flows of the switch go, and a new port is unbound |
| SimpleIsolation.SimpleIsolationApp.PortDelHandler | app/simple_isolation.py:287-338 | the port's flows go, then the MACs learned on it, until one has no network |
| SimpleIsolation.SimpleIsolationApp.SwitchFeaturesHandler | app/simple_isolation.py:55-63 | a joining switch starts without flows, its new ports unbound |
| Firewall.CookiesStayUnique | app/rest_firewall.py:578-598 | in every run from a good state with fewer than 2^32 additions per VLAN no two live rules share a cookie, although counters are dropped and restarted |
| Firewall.UniqueFromStart | app/rest_firewall.py:566-598 | so it is in every run from the start |
| Firewall.AddOk | app/rest_firewall.py:733-765 | an addition for one VLAN or for all, accepted or refused, keeps cookies unique |
| Firewall.DeleteOk | app/rest_firewall.py:804-851 | dropping the counters of VLANs without remaining rules does no harm |
| Firewall.DeletionLeaves | app/rest_firewall.py:804-851 | a deletion leaves every rule of another VLAN or another id as it is, takes every rule asked for, and keeps the counters of the untagged VLAN and of those with rules left |
| Firewall.IdsPickOne | app/rest_firewall.py:600-602 | where each cookie is of its rule's own VLAN, VLAN and rule id pick at most one rule |
| Firewall.OwnedExactly | app/rest_firewall.py:733-765 | for any distinct VLANs in any order: an accepted addition leaves every cookie with its rule's own VLAN if and only if the untagged VLAN is not asked for, or comes first with data that name no VLAN or one that is asked for |
| Firewall.EachServedExactly | app/rest_firewall.py:733-765 | every VLAN asked for gets its newly dealt rule if and only if the untagged VLAN is not asked for, or comes first with data that name no VLAN |
| Firewall.AllLeaksVlan | app/rest_firewall.py:749-750 | for any distinct VLANs: an untagged VLAN that comes after another puts its rule on that VLAN's, under the untagged counter's cookie |
| Firewall.IdsPickOneOverRuns | app/rest_firewall.py:600-602 | over every run from the start whose additions meet that guard, VLAN and rule id pick at most one rule |
| Firewall.TwoOfOneId | app/rest_firewall.py:749-750 | two additions from the start that do not: a rule for VLAN 5 on the untagged URL and one on VLAN 5's are both rule 1 of VLAN 5 |
| Firewall.SecondSwitch | app/rest_firewall.py:493-512 | one request for all VLANs of two switches: the second switch gets all its rules if and only if the first has no tagged VLAN, and keeps cookies with their VLANs if and only if that is so or it has the first one's last VLAN too |
| Firewall.FirewallSwitch.GetCookie | app/rest_firewall.py:583-598 | the loop counts and deals one cookie for each VLAN |
| Firewall.FirewallSwitch.SetRule | app/rest_firewall.py:733-765 | the loop installs one rule for each cookie and leaves the last VLAN in the request's data |
| Firewall.FirewallSwitch.DeleteRules | app/rest_firewall.py:804-851 | the sorting loop, the counters and the deletions |

## Left out

- Sockets, REST routes, JSON, OVSDB calls, logging, serialisation of message bodies and address text: IPv4 addresses, MACs, ports and labels are numbers, and whether a destination's text is canonical is a field of the request.
- Real time and greenlet scheduling: each handler is one atomic step that runs before the next store call, random numbers are arbitrary numbers in range, and timeouts are steps that may come at any time.
- Barriers, buffer ids, queue ids and MAC rewriting in action lists: they do not decide where a packet goes.
- The order of outputs in an action list: outputs are sets.
- Failures of a statistics request: replies are complete.
- TenantStore.AgreementExactlyWhenSafe: an empty set of ports and a missing one count as the same, as `defaultdict` reads create empty ones; the network id None is not modelled.
- The switch-side tunnel objects and their OVSDB work; only the requests to them are modelled.
- Tunnel-key deletion and datapath disconnection: the source leaves flows behind in both cases.
- OverlayIsolation.IsolationOverRuns: holds for runs in which VM ports have real port numbers, a former tunnel port becomes a VM port only once no row uses it, one tunnel port leads to each remote switch, and a MAC of a tenant sits on at most two ports, of different switches; the last two are assertions of `controller/tunnels.py` and of `_tunnel_port_with_mac` and `_vm_port_del`, which would stop the handlers half way.
- OverlayCompiled.CompiledOverRuns: LOCAL_OUT only; what TUNNEL_OUT holds is stated by `OverlayCrossing.FloodsExactly` and `OverlayCrossing.LedExactly`.
- OverlayCrossing.BroadcastsOverRuns: a tunnel is usable if its port is up, both switches are connected, and the store has it in the tunnel network; a tunnel port that only `controller/tunnels.py` knows gets no event. VMs do not have the broadcast address as their own.
- OverlayCrossing.UnicastOverRuns: MACs that never sit on two ports; for others `OverlayCrossing.LedExactly` says when the way stays.
- PortSet's own loops over ports are functions on lists in some order; the tunnel ports are one map where the source nests them by switch.
- RouterRuns.EveryRunIsGood: holds for runs with ids up to 0xffff, beyond which cookies are misread (`RouterFlows.CookiesOverflow`), and subnets of mask length at least 1, as the learning flow of a subnet of length 0 and the flow of a static route of length 0 share match and priority; requests for all VLANs are runs of requests for one; suspended packets and replies are left out.
- RouterSteps.SetRouteExactly: route ids up to 0xffff, for the same reason.
- RouterSteps.SetAddressOk: address ids up to 0xffff and mask length at least 1, for the same reasons; `RouterSteps.SubnetsStayApart` needs neither.
- Deletion and failover of label-switched paths, and queue reservations.
- Main and backup paths of `app/net.py` have the same code, modelled once.
- Termination of the random retry loops of `initPool` and of discriminator choice.
- BFD authentication, the echo function and a local administrative state, which nothing in `lib/bfdlib.py` sets.
- The IGMP snooper.
- SimpleIsolation.RunKeepsSafe: a port gets a network only where `SimpleIsolation.BindExactly` allows it; a port gone from the store but not yet from the switch may still be output to.
- The order in which the firewall visits the VLANs of a request for all is any order; the dictionary of the source has the untagged VLAN first.
- The firewall's actions, and its log, ARP and status flows, which have cookies and priorities of their own.
- Link aggregation, learning switches, REST controllers and the QoS twin of the firewall repeat what is modelled here or add little.
