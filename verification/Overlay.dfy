/** The overlay pipeline of app/gre_tunnel.py: the tenants' ports compiled, event
    by event, into three chained flow tables on every switch.

    `PortSet` turns events of the stores and of the switches into VM-port and
    tunnel-port events; the handlers turn those into flow modifications.  Flow
    modifications follow section 4.6 of the OpenFlow Switch Specification 1.0.0,
    where MODIFY_STRICT of an absent entry adds it. */
module Overlay {
  import opened Wrappers
  import opened TenantStore
  import opened TunnelStore

  // ------------------------------------------------------------- flow tables

  const SRC_TABLE := 0
  const TUNNEL_OUT_TABLE := 1
  const LOCAL_OUT_TABLE := 2

  const DEFAULT_PRIORITY := 32768
  const SRC_PRI_MAC := DEFAULT_PRIORITY
  const SRC_PRI_DROP := DEFAULT_PRIORITY / 2
  const SRC_PRI_TUNNEL_PASS := DEFAULT_PRIORITY
  const TUNNEL_OUT_PRI_MAC := DEFAULT_PRIORITY
  const TUNNEL_OUT_PRI_BROADCAST := DEFAULT_PRIORITY / 2
  const TUNNEL_OUT_PRI_PASS := DEFAULT_PRIORITY / 4
  const LOCAL_OUT_PRI_MAC := DEFAULT_PRIORITY
  const LOCAL_OUT_PRI_BROADCAST := DEFAULT_PRIORITY / 2
  const LOCAL_OUT_PRI_DROP := DEFAULT_PRIORITY / 4

  const BROADCAST: Mac := 0xffff_ffff_ffff

  /** A rule: fields left out are wildcards. */
  datatype Rule = Rule(inPort: Option<PortNo>, tunId: Option<Key>, dlSrc: Option<Mac>, dlDst: Option<Mac>)

  datatype FlowKey = FlowKey(table: nat, rule: Rule, priority: nat)

  /** An action list: optionally set the tunnel id, then output to some ports,
      then optionally resubmit to another table. */
  datatype Actions = Actions(setTunnel: Option<Key>, outputs: set<PortNo>, resubmit: Option<nat>)

  type Table = map<FlowKey, Actions>
  type Flows = map<Dpid, Table>

  function Lookup(t: Table, fk: FlowKey): Option<Actions> {
    if fk in t then Some(t[fk]) else None
  }

  function Output(ports: set<PortNo>): Actions { Actions(None, ports, None) }

  const DROP := Output({})

  function OutputThenLocal(ports: set<PortNo>): Actions { Actions(None, ports, Some(LOCAL_OUT_TABLE)) }

  function EnterTunnel(k: Key): Actions { Actions(Some(k), {}, Some(TUNNEL_OUT_TABLE)) }

  // The rules the handlers install, by table.

  function SrcVm(p: PortNo, m: Mac): FlowKey { FlowKey(SRC_TABLE, Rule(Some(p), None, Some(m), None), SRC_PRI_MAC) }

  /** The same for VM ports and tunnel ports. */
  function SrcDrop(p: PortNo): FlowKey { FlowKey(SRC_TABLE, Rule(Some(p), None, None, None), SRC_PRI_DROP) }

  function SrcPass(p: PortNo, k: Key): FlowKey {
    FlowKey(SRC_TABLE, Rule(Some(p), Some(k), None, None), SRC_PRI_TUNNEL_PASS)
  }

  function TunnelMac(k: Key, m: Mac): FlowKey {
    FlowKey(TUNNEL_OUT_TABLE, Rule(None, Some(k), None, Some(m)), TUNNEL_OUT_PRI_MAC)
  }

  function TunnelBroadcast(k: Key): FlowKey {
    FlowKey(TUNNEL_OUT_TABLE, Rule(None, Some(k), None, Some(BROADCAST)), TUNNEL_OUT_PRI_BROADCAST)
  }

  function TunnelPass(k: Key): FlowKey {
    FlowKey(TUNNEL_OUT_TABLE, Rule(None, Some(k), None, None), TUNNEL_OUT_PRI_PASS)
  }

  function LocalMac(k: Key, m: Mac): FlowKey {
    FlowKey(LOCAL_OUT_TABLE, Rule(None, Some(k), None, Some(m)), LOCAL_OUT_PRI_MAC)
  }

  function LocalBroadcast(k: Key): FlowKey {
    FlowKey(LOCAL_OUT_TABLE, Rule(None, Some(k), None, Some(BROADCAST)), LOCAL_OUT_PRI_BROADCAST)
  }

  function LocalDrop(k: Key): FlowKey {
    FlowKey(LOCAL_OUT_TABLE, Rule(None, Some(k), None, None), LOCAL_OUT_PRI_DROP)
  }

  /** OFPFC_DELETE: every entry of the table whose rule is at least as specific. */
  function Delete(t: Table, table: nat, pattern: Rule): Table {
    map fk | fk in t && !(fk.table == table && Covers(pattern, fk.rule)) :: t[fk]
  }

  predicate Covers(pattern: Rule, rule: Rule) {
    && (pattern.inPort.Some? ==> rule.inPort == pattern.inPort)
    && (pattern.tunId.Some? ==> rule.tunId == pattern.tunId)
    && (pattern.dlSrc.Some? ==> rule.dlSrc == pattern.dlSrc)
    && (pattern.dlDst.Some? ==> rule.dlDst == pattern.dlDst)
  }

  const ANY := Rule(None, None, None, None)

  function DeleteStrict(t: Table, fk: FlowKey): Table { t - {fk} }

  /** OFPFC_DELETE_STRICT with an out_port filter. */
  function DeleteStrictTo(t: Table, fk: FlowKey, outPorts: set<PortNo>): Table {
    if fk in t && t[fk].outputs * outPorts != {} then t - {fk} else t
  }

  // ------------------------------------------------------------- environment

  /** What the handlers read: both stores, the connected switches (`dpset`) and
      the ports those switches report with their link up. */
  datatype Env = Env(nw: Store, tun: Tunnels, connected: set<Dpid>, up: set<PortId>)

  function PortsOf(nw: Store, d: Dpid): map<PortNo, Port> {
    if d in nw.dpids then nw.dpids[d] else map[]
  }

  /** _port_is_active, over the ports of one switch. */
  function Active(env: Env, n: NetworkId, d: Dpid): set<PortNo> {
    set p | p in PortsOf(env.nw, d) && PortsOf(env.nw, d)[p].network == n
            && PortsOf(env.nw, d)[p].mac.Some? && PortId(d, p) in env.up
  }

  /** The ports of a switch in a network that carry a MAC and are up. */
  function WithMac(env: Env, n: NetworkId, d: Dpid, m: Mac): set<PortNo> {
    set p | p in Active(env, n, d) && PortsOf(env.nw, d)[p].mac == Some(m)
  }

  /** The tunnel ports of `d` to `r` that are up, when both are connected. */
  function UpTunnels(env: Env, d: Dpid, r: Dpid): set<PortNo> {
    if d in env.connected && r in env.connected
    then set p | p in PortsTo(env.tun, d, r) && PortId(d, p) in env.up
    else {}
  }

  /** _list_tunnel_port. */
  function TunnelPorts(env: Env, d: Dpid, rs: set<Dpid>): set<PortNo> {
    set r, p | r in rs && r != d && p in UpTunnels(env, d, r) :: p
  }

  /** _tunnel_port_with_mac: tunnel ports of `d` to the other holder of a MAC. */
  function MacTunnels(env: Env, d: Dpid, n: NetworkId, at: PortId, m: Mac): set<PortNo> {
    set q, p | q in MacPorts(env.nw.macs, n, m) - {at} && p in PortsTo(env.tun, d, q.dpid) && PortId(d, p) in env.up :: p
  }

  datatype GreEvent =
    | VmPort(n: NetworkId, k: Key, at: PortId, m: Mac, add: bool)
    | TunnelPort(at: PortId, remote: Dpid, add: bool)

  // ---------------------------------------------------------------- handlers

  /** _vm_port_add on the switch of the port: LOCAL_OUT first, SRC last. */
  function AddHere(env: Env, t: Table, n: NetworkId, k: Key, at: PortId, m: Mac): Table {
    AddUpstream(env, AddLocal(env, t, n, k, at.dpid, m), n, k, at, m)
  }

  function AddLocal(env: Env, t: Table, n: NetworkId, k: Key, d: Dpid, m: Mac): Table {
    var active := Active(env, n, d);
    var t := t[LocalMac(k, m) := Output(WithMac(env, n, d, m))][LocalBroadcast(k) := Output(active)];
    if |active| == 1 then t[LocalDrop(k) := DROP] else t
  }

  function AddUpstream(env: Env, t: Table, n: NetworkId, k: Key, at: PortId, m: Mac): Table {
    var d, rs := at.dpid, GetDpids(env.nw, n) - {at.dpid};
    var first := |Active(env, n, d)| == 1;
    var t := if first then t + PassAll(k, TunnelPorts(env, d, rs)) else t;
    var t := t + RemoteMacs(env, n, k, d, rs);
    var t := if first
             then t[TunnelPass(k) := OutputThenLocal({})][TunnelBroadcast(k) := OutputThenLocal(TunnelPorts(env, d, rs))]
             else t;
    t[SrcVm(at.port, m) := EnterTunnel(k)][SrcDrop(at.port) := DROP]
  }

  /** Tunnel ports that hand packets with a known key to LOCAL_OUT. */
  function PassAll(k: Key, ports: set<PortNo>): Table {
    Rows(set p | p in ports :: SrcPass(p, k), OutputThenLocal({}))
  }

  function Rows(keys: set<FlowKey>, a: Actions): Table {
    map fk | fk in keys :: a
  }

  /** mac_to_ports: for each MAC active on a reachable switch, the way there. */
  function RemoteMacs(env: Env, n: NetworkId, k: Key, d: Dpid, rs: set<Dpid>): Table {
    var keys := set r, p | r in rs && UpTunnels(env, d, r) != {} && p in Active(env, n, r) ::
                  TunnelMac(k, PortsOf(env.nw, r)[p].mac.value);
    map fk | fk in keys :: OutputThenLocal(WaysTo(env, n, d, rs, fk.rule.dlDst))
  }

  function WaysTo(env: Env, n: NetworkId, d: Dpid, rs: set<Dpid>, m: Option<Mac>): set<PortNo> {
    set r, p, q | r in rs && p in Active(env, n, r) && PortsOf(env.nw, r)[p].mac == m && q in UpTunnels(env, d, r) :: q
  }

  /** _vm_port_add on another switch `x` of the network. */
  function AddThere(env: Env, t: Table, x: Dpid, n: NetworkId, k: Key, at: PortId, m: Mac): Table {
    var rs := GetDpids(env.nw, n) - {at.dpid};
    var ways := UpTunnels(env, x, at.dpid);
    var t := t[TunnelMac(k, m) := OutputThenLocal(MacTunnels(env, x, n, at, m) + ways)];
    if |Active(env, n, at.dpid)| != 1 then t
    else (t + PassAll(k, ways))[TunnelBroadcast(k) := OutputThenLocal(TunnelPorts(env, x, rs) + ways)]
  }

  function VmPortAdd(env: Env, flows: Flows, n: NetworkId, k: Key, at: PortId, m: Mac): Flows {
    map x | x in flows ::
      if x == at.dpid then AddHere(env, flows[x], n, k, at, m)
      else if x in GetDpids(env.nw, n) && UpTunnels(env, x, at.dpid) != {} then AddThere(env, flows[x], x, n, k, at, m)
      else flows[x]
  }

  /** _vm_port_del on the switch of the port. */
  function DelHere(env: Env, t: Table, n: NetworkId, k: Key, at: PortId, m: Mac): Table {
    var t := Delete(t, SRC_TABLE, ANY.(inPort := Some(at.port)));
    if Active(env, n, at.dpid) - {at.port} == {} then DelLast(t, k) else DelLocal(env, t, n, k, at, m)
  }

  function DelLast(t: Table, k: Key): Table {
    var t := Delete(t, SRC_TABLE, ANY.(tunId := Some(k)));
    var t := Delete(t, TUNNEL_OUT_TABLE, ANY.(tunId := Some(k)));
    Delete(t, LOCAL_OUT_TABLE, ANY.(tunId := Some(k)))
  }

  function DelLocal(env: Env, t: Table, n: NetworkId, k: Key, at: PortId, m: Mac): Table {
    var same := WithMac(env, n, at.dpid, m) - {at.port};
    var t := if same != {} then t[LocalMac(k, m) := Output(same)]
             else DeleteStrictTo(t, LocalMac(k, m), {at.port});
    t[LocalBroadcast(k) := Output(Active(env, n, at.dpid) - {at.port})]
  }

  /** _vm_port_del on another switch `x` of the network. */
  function DelThere(env: Env, t: Table, x: Dpid, n: NetworkId, k: Key, at: PortId, m: Mac): Table {
    DelWay(env, if Active(env, n, at.dpid) - {at.port} == {} then DelTunnel(env, t, x, n, k, at.dpid) else t, x, n, k, at, m)
  }

  /** The switch of the port has no instance left: its tunnel is not used. */
  function DelTunnel(env: Env, t: Table, x: Dpid, n: NetworkId, k: Key, d: Dpid): Table {
    var ways, ports := UpTunnels(env, x, d), TunnelPorts(env, x, GetDpids(env.nw, n) - {d});
    var t := t - (set p | p in ways :: SrcPass(p, k)) - (set p | p in ways :: SrcDrop(p));
    if ports == {} then DeleteStrict(t, TunnelBroadcast(k)) else t[TunnelBroadcast(k) := OutputThenLocal(ports)]
  }

  function DelWay(env: Env, t: Table, x: Dpid, n: NetworkId, k: Key, at: PortId, m: Mac): Table {
    var others := MacTunnels(env, x, n, at, m);
    if others != {} then t[TunnelMac(k, m) := OutputThenLocal(others)]
    else DeleteStrictTo(t, TunnelMac(k, m), UpTunnels(env, x, at.dpid))
  }

  function VmPortDel(env: Env, flows: Flows, n: NetworkId, k: Key, at: PortId, m: Mac): Flows {
    map x | x in flows ::
      if x == at.dpid then DelHere(env, flows[x], n, k, at, m)
      else if x in GetDpids(env.nw, n) && UpTunnels(env, x, at.dpid) != {} then DelThere(env, flows[x], x, n, k, at, m)
      else flows[x]
  }

  /** The tenant networks with a key that have a port on both switches. */
  function CommonNetworks(env: Env, d: Dpid, r: Dpid): set<NetworkId> {
    set p | p in PortsOf(env.nw, d) && PortsOf(env.nw, d)[p].network.Tenant?
            && PortsOf(env.nw, d)[p].network in env.tun.keys
            && (exists q | q in PortsOf(env.nw, r) :: PortsOf(env.nw, r)[q].network == PortsOf(env.nw, d)[p].network)
          :: PortsOf(env.nw, d)[p].network
  }

  function TunnelPortAdd(env: Env, flows: Flows, at: PortId, remote: Dpid): Flows {
    if at.dpid !in flows then flows
    else flows[at.dpid := TunnelAddHere(env, flows[at.dpid], at, remote)]
  }

  function TunnelAddHere(env: Env, t: Table, at: PortId, remote: Dpid): Table {
    var nets := CommonNetworks(env, at.dpid, remote);
    t[SrcDrop(at.port) := DROP] + TunnelPasses(env, at.port, nets) + TunnelMacs(env, at.port, nets, remote)
    + TunnelFloods(env, at.dpid, at.port, nets)
  }

  function TunnelPasses(env: Env, p: PortNo, nets: set<NetworkId>): Table
    requires nets <= env.tun.keys.Keys
  {
    Rows(set n | n in nets :: SrcPass(p, env.tun.keys[n]), OutputThenLocal({}))
  }

  function TunnelMacs(env: Env, p: PortNo, nets: set<NetworkId>, remote: Dpid): Table
    requires nets <= env.tun.keys.Keys
  {
    Rows(set n, q | n in nets && q in PortsOf(env.nw, remote)
           && PortsOf(env.nw, remote)[q].network == n && PortsOf(env.nw, remote)[q].mac.Some?
         :: TunnelMac(env.tun.keys[n], PortsOf(env.nw, remote)[q].mac.value),
         OutputThenLocal({p}))
  }

  function TunnelFloods(env: Env, d: Dpid, p: PortNo, nets: set<NetworkId>): Table
    requires nets <= env.tun.keys.Keys
  {
    var keys := set n | n in nets :: TunnelBroadcast(env.tun.keys[n]);
    map fk | fk in keys :: OutputThenLocal({p} + FloodPorts(env, d, nets, fk.rule.tunId))
  }

  function FloodPorts(env: Env, d: Dpid, nets: set<NetworkId>, k: Option<Key>): set<PortNo>
    requires nets <= env.tun.keys.Keys
  {
    set n, p | n in nets && Some(env.tun.keys[n]) == k && p in TunnelPorts(env, d, GetDpids(env.nw, n) - {d}) :: p
  }

  function TunnelPortDel(flows: Flows, at: PortId): Flows {
    if at.dpid !in flows then flows
    else flows[at.dpid := DeleteStrict(flows[at.dpid], SrcDrop(at.port))]
  }

  function Handle(env: Env, flows: Flows, ev: GreEvent): Flows {
    match ev
    case VmPort(n, k, at, m, true) => VmPortAdd(env, flows, n, k, at, m)
    case VmPort(n, k, at, m, false) => VmPortDel(env, flows, n, k, at, m)
    case TunnelPort(at, remote, true) => TunnelPortAdd(env, flows, at, remote)
    case TunnelPort(at, _, false) => TunnelPortDel(flows, at)
  }

  function HandleAll(env: Env, flows: Flows, evs: seq<GreEvent>): Flows
    decreases |evs|
  {
    if evs == [] then flows else HandleAll(env, Handle(env, flows, evs[0]), evs[1..])
  }

  // ----------------------------------------------------------------- PortSet

  /** _vm_port_handler. */
  function VmEvent(env: Env, at: PortId, n: NetworkId, mac: Option<Mac>, add: bool): seq<GreEvent> {
    if !n.Tenant? || mac == None || at.dpid !in env.connected || at.port > OFPP_MAX
       || (add && at !in env.up) || n !in env.tun.keys
    then []
    else [VmPort(n, env.tun.keys[n], at, mac.value, add)]
  }

  /** _tunnel_port_handler. */
  function TunnelEvent(env: Env, at: PortId, add: bool): seq<GreEvent> {
    if at.dpid !in env.connected || (add && at !in env.up) || at !in env.tun.remotes then []
    else [TunnelPort(at, env.tun.remotes[at], add)]
  }

  /** _vm_port_mac_handler. */
  function NetworkPortEvent(env: Env, at: PortId, n: NetworkId, add: bool): seq<GreEvent> {
    if n == VportGre then TunnelEvent(env, at, add)
    else match PortAt(env.nw.dpids, at)
         case None => []
         case Some(port) => VmEvent(env, at, n, port.mac, add)
  }

  /** _port_handler. */
  function PortEvent(env: Env, at: PortId, add: bool): seq<GreEvent> {
    match PortAt(env.nw.dpids, at)
    case None => []
    case Some(port) =>
      if port.network == VportGre then TunnelEvent(env, at, add)
      else VmEvent(env, at, port.network, port.mac, add)
  }

  function StoreEvent(env: Env, ev: Event): seq<GreEvent> {
    match ev
    case NetworkDel(_) => []
    case NetworkPort(n, at, add) => NetworkPortEvent(env, at, n, add)
    case MacAddress(n, at, m, add) => VmEvent(env, at, n, Some(m), add)
  }

  function StoreEvents(env: Env, evs: seq<Event>): seq<GreEvent>
    decreases |evs|
  {
    if evs == [] then [] else StoreEvent(env, evs[0]) + StoreEvents(env, evs[1..])
  }

  /** A handler that visits several ports of one network or one switch. */
  function NetworkPortEvents(env: Env, ports: seq<PortId>, n: NetworkId): seq<GreEvent>
    decreases |ports|
  {
    if ports == [] then [] else NetworkPortEvent(env, ports[0], n, true) + NetworkPortEvents(env, ports[1..], n)
  }

  function PortEvents(env: Env, ports: seq<PortId>): seq<GreEvent>
    decreases |ports|
  {
    if ports == [] then [] else PortEvent(env, ports[0], true) + PortEvents(env, ports[1..])
  }
}
