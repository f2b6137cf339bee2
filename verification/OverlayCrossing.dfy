/** Delivery across switches: between two switches with live ports of a tenant and
    a tunnel, the rows that carry the tenant's broadcasts and unicast packets
    across are there in every state, up to the steps that leave them out. */
module OverlayCrossing {
  import opened Wrappers
  import opened TenantStore
  import opened TunnelStore
  import opened Overlay
  import opened OverlaySystem
  import opened OverlayIsolation
  import opened OverlayLocal
  import opened OverlayCompiled
  import opened OverlayDelivery

  /** The tunnel ports of `d` to `r` that packets can use: both switches are
      connected, the port is up, and the store knows it as a tunnel port. */
  function Trunks(env: Env, d: Dpid, r: Dpid): set<PortNo> {
    set p | p in UpTunnels(env, d, r) && NetworkOf(env.nw.dpids, PortId(d, p)) == VportGre
  }

  /** Where broadcasts should go: the up tunnel ports towards the connected
      switches of the network. */
  function Floods(env: Env, n: NetworkId, d: Dpid): set<PortNo> {
    TunnelPorts(env, d, GetDpids(env.nw, n) - {d})
  }

  function OutputsOf(t: Table, fk: FlowKey): set<PortNo> {
    if fk in t then t[fk].outputs else {}
  }

  /** Where broadcasts under the key do go. */
  function FloodOf(t: Table, k: Key): set<PortNo> { OutputsOf(t, TunnelBroadcast(k)) }

  predicate PassOpen(t: Table, k: Key, q: PortNo) {
    Lookup(t, SrcPass(q, k)) == Some(OutputThenLocal({}))
  }

  /** Broadcasts under the key go out on the port, and what comes in there under
      the key goes on to LOCAL_OUT. */
  predicate WayOpen(t: Table, k: Key, q: PortNo) {
    PassOpen(t, k, q) && TunnelBroadcast(k) in t && q in FloodOf(t, k)
  }

  // --------------------------------------------- what one event does to a way

  /** A tenant has active ports on both ends of a tunnel. */
  ghost predicate Linked(env: Env, n: NetworkId, k: Key, x: Dpid, y: Dpid, q: PortNo) {
    && OwnedBy(env.tun.keys, n, k) && Injective(env.tun.keys) && Agree(env.nw)
    && x != y && Active(env, n, x) != {} && Active(env, n, y) != {} && q in UpTunnels(env, x, y)
  }

  /** The event describes the environment, and a withdrawn port is gone from it. */
  ghost predicate Apt(env: Env, ever: set<PortId>, ev: GreEvent) {
    && Fits(env, ever, ev)
    && TunnelTrue(env, ev)
    && (IsVmDel(ev) ==> ev.at !in env.tun.remotes && ev.at.port !in Active(env, ev.n, ev.at.dpid) && Gone(env, ev.at))
  }

  predicate Gone(env: Env, at: PortId) {
    PortAt(env.nw.dpids, at) == None || at !in env.up
  }

  predicate TunnelTrue(env: Env, ev: GreEvent) {
    ev.TunnelPort? && ev.add ==> ev.at in env.tun.remotes && env.tun.remotes[ev.at] == ev.remote
  }

  /** Events that open the way from `x` to `y`: the first port of the tenant on
      either switch, and the tunnel port itself. */
  predicate Opens(env: Env, ev: GreEvent, n: NetworkId, x: Dpid, y: Dpid, q: PortNo) {
    match ev
    case VmPort(n', _, at, _, add) => add && n' == n && (at.dpid == x || at.dpid == y) && |Active(env, n, at.dpid)| == 1
    case TunnelPort(at, remote, add) => add && at == PortId(x, q) && remote == y
  }

  lemma UpstreamWay(env: Env, t: Table, n: NetworkId, k: Key, at: PortId, m: Mac, k': Key, q: PortNo)
    ensures var t', first := AddHere(env, t, n, k, at, m), k == k' && |Active(env, n, at.dpid)| == 1;
            && (PassOpen(t', k', q) <==> PassOpen(t, k', q) || (first && q in Floods(env, n, at.dpid)))
            && (TunnelBroadcast(k') in t' <==> TunnelBroadcast(k') in t || first)
            && FloodOf(t', k') == if first then Floods(env, n, at.dpid) else FloodOf(t, k')
  {
    hide Active, TunnelPorts, RemoteMacs, WithMac, AddLocal, PassAll;
    var d, rs, t1 := at.dpid, GetDpids(env.nw, n) - {at.dpid}, AddLocal(env, t, n, k, at.dpid, m);
    LocalWay(env, t, n, k, d, m, k', q);
    NoWayInMacs(env, n, k, d, rs, k', q);
    PassAllWay(k, Floods(env, n, d), k', q);
    assert PassAll(k, Floods(env, n, d)) == PassAll(k, TunnelPorts(env, d, rs));
  }

  lemma LocalWay(env: Env, t: Table, n: NetworkId, k: Key, d: Dpid, m: Mac, k': Key, q: PortNo)
    ensures var t' := AddLocal(env, t, n, k, d, m);
            Lookup(t', SrcPass(q, k')) == Lookup(t, SrcPass(q, k')) && Lookup(t', TunnelBroadcast(k')) == Lookup(t, TunnelBroadcast(k'))
  {
    hide Active, WithMac;
  }

  lemma NoWayInMacs(env: Env, n: NetworkId, k: Key, d: Dpid, rs: set<Dpid>, k': Key, q: PortNo)
    ensures SrcPass(q, k') !in RemoteMacs(env, n, k, d, rs) && TunnelBroadcast(k') !in RemoteMacs(env, n, k, d, rs)
  {
    hide Active, UpTunnels, WaysTo;
  }

  lemma PassAllWay(k: Key, ports: set<PortNo>, k': Key, q: PortNo)
    ensures SrcPass(q, k') in PassAll(k, ports) <==> k == k' && q in ports
    ensures SrcPass(q, k') in PassAll(k, ports) ==> PassAll(k, ports)[SrcPass(q, k')] == OutputThenLocal({})
    ensures TunnelBroadcast(k') !in PassAll(k, ports)
  {
  }

  lemma RemoteAddWay(env: Env, t: Table, x: Dpid, n: NetworkId, k: Key, at: PortId, m: Mac, k': Key, q: PortNo)
    ensures var t', first := AddThere(env, t, x, n, k, at, m), k == k' && |Active(env, n, at.dpid)| == 1;
            var flood := TunnelPorts(env, x, GetDpids(env.nw, n) - {at.dpid}) + UpTunnels(env, x, at.dpid);
            && (PassOpen(t', k', q) <==> PassOpen(t, k', q) || (first && q in UpTunnels(env, x, at.dpid)))
            && (TunnelBroadcast(k') in t' <==> TunnelBroadcast(k') in t || first)
            && FloodOf(t', k') == if first then flood else FloodOf(t, k')
  {
    hide Active, TunnelPorts, MacTunnels, UpTunnels;
    assert SrcPass(q, k') in PassAll(k, UpTunnels(env, x, at.dpid)) <==> k == k' && q in UpTunnels(env, x, at.dpid);
  }

  lemma DelHereWay(env: Env, t: Table, n: NetworkId, k: Key, at: PortId, m: Mac, k': Key, q: PortNo)
    requires q != at.port
    ensures var t', last := DelHere(env, t, n, k, at, m), k == k' && Active(env, n, at.dpid) - {at.port} == {};
            && (PassOpen(t', k', q) <==> PassOpen(t, k', q) && !last)
            && (TunnelBroadcast(k') in t' <==> TunnelBroadcast(k') in t && !last)
            && FloodOf(t', k') == if last then {} else FloodOf(t, k')
  {
    hide Active, WithMac;
  }

  lemma RemoteDelWay(env: Env, t: Table, x: Dpid, n: NetworkId, k: Key, at: PortId, m: Mac, k': Key, q: PortNo)
    ensures var t', last := DelThere(env, t, x, n, k, at, m), k == k' && Active(env, n, at.dpid) - {at.port} == {};
            var flood := TunnelPorts(env, x, GetDpids(env.nw, n) - {at.dpid});
            && (PassOpen(t', k', q) <==> PassOpen(t, k', q) && !(last && q in UpTunnels(env, x, at.dpid)))
            && (TunnelBroadcast(k') in t' <==> if last then flood != {} else TunnelBroadcast(k') in t)
            && FloodOf(t', k') == if last then flood else FloodOf(t, k')
  {
    hide Active, TunnelPorts, MacTunnels, UpTunnels;
  }

  lemma TunnelAddWay(env: Env, t: Table, at: PortId, remote: Dpid, n: NetworkId, k: Key, q: PortNo)
    requires OwnedBy(env.tun.keys, n, k) && Injective(env.tun.keys)
    ensures var t', common := TunnelAddHere(env, t, at, remote), n in CommonNetworks(env, at.dpid, remote);
            && (PassOpen(t', k, q) <==> PassOpen(t, k, q) || (common && q == at.port))
            && (TunnelBroadcast(k) in t' <==> TunnelBroadcast(k) in t || common)
            && FloodOf(t', k) == if common then {at.port} + Floods(env, n, at.dpid) else FloodOf(t, k)
  {
    hide TunnelPorts, TunnelPasses, TunnelMacs, TunnelFloods;
    var nets := CommonNetworks(env, at.dpid, remote);
    PassRow(env, at.port, nets, n, k, q);
    FloodRow(env, at.dpid, at.port, nets, n, k);
    MacsElsewhere(env, at.port, nets, remote, k, q);
  }

  lemma PassRow(env: Env, p: PortNo, nets: set<NetworkId>, n: NetworkId, k: Key, q: PortNo)
    requires nets <= env.tun.keys.Keys && OwnedBy(env.tun.keys, n, k) && Injective(env.tun.keys)
    ensures var rows := TunnelPasses(env, p, nets);
            && (SrcPass(q, k) in rows <==> n in nets && q == p)
            && (SrcPass(q, k) in rows ==> rows[SrcPass(q, k)] == OutputThenLocal({}))
            && TunnelBroadcast(k) !in rows
  {
    if n in nets { assert SrcPass(p, env.tun.keys[n]) in TunnelPasses(env, p, nets); }
  }

  lemma FloodRow(env: Env, d: Dpid, p: PortNo, nets: set<NetworkId>, n: NetworkId, k: Key)
    requires nets <= env.tun.keys.Keys && OwnedBy(env.tun.keys, n, k) && Injective(env.tun.keys)
    ensures var rows := TunnelFloods(env, d, p, nets);
            && (TunnelBroadcast(k) in rows <==> n in nets)
            && (n in nets ==> rows[TunnelBroadcast(k)].outputs == {p} + Floods(env, n, d))
            && (forall q :: SrcPass(q, k) !in rows)
  {
    hide TunnelPorts;
    if n in nets {
      assert TunnelBroadcast(env.tun.keys[n]) in TunnelFloods(env, d, p, nets);
      assert FloodPorts(env, d, nets, Some(k)) == Floods(env, n, d);
    }
  }

  lemma MacsElsewhere(env: Env, p: PortNo, nets: set<NetworkId>, remote: Dpid, k: Key, q: PortNo)
    requires nets <= env.tun.keys.Keys
    ensures var rows := TunnelMacs(env, p, nets, remote); SrcPass(q, k) !in rows && TunnelBroadcast(k) !in rows
  {
  }

  lemma FloodsIs(env: Env, x: Dpid, y: Dpid, rs: set<Dpid>, q: PortNo)
    requires q in UpTunnels(env, x, y) && x != y
    ensures q in TunnelPorts(env, x, rs) <==> y in rs
    ensures forall z | z != y :: q !in UpTunnels(env, x, z)
  {
  }

  lemma ActiveMember(env: Env, n: NetworkId, d: Dpid)
    requires Agree(env.nw) && Active(env, n, d) != {} && n.Tenant?
    ensures d in GetDpids(env.nw, n)
  {
    var p :| p in Active(env, n, d);
    assert MemberAgrees(env.nw, n, PortId(d, p));
    assert InNetwork(env.nw.networks, n, PortId(d, p));
  }

  lemma BothCommon(env: Env, n: NetworkId, x: Dpid, y: Dpid)
    requires n.Tenant? && n in env.tun.keys && Active(env, n, x) != {} && Active(env, n, y) != {}
    ensures n in CommonNetworks(env, x, y)
  {
    var p :| p in Active(env, n, x);
    var q :| q in Active(env, n, y);
    assert PortsOf(env.nw, y)[q].network == PortsOf(env.nw, x)[p].network;
  }

  /** One event opens the way, or leaves it open; none closes it while both ends
      are active. */
  lemma EventWay(env: Env, ever: set<PortId>, flows: Flows, ev: GreEvent, n: NetworkId, k: Key, x: Dpid, y: Dpid, q: PortNo)
    requires Linked(env, n, k, x, y, q) && Apt(env, ever, ev) && x in flows
    requires WayOpen(flows[x], k, q) || Opens(env, ev, n, x, y, q)
    ensures WayOpen(Handle(env, flows, ev)[x], k, q)
  {
    hide Active, UpTunnels, TunnelPorts, GetDpids, CommonNetworks, Agree, AddHere, AddThere, DelHere, DelThere, TunnelAddHere, PassOpen, FloodOf, Lookup;
    var t := flows[x];
    LinkedWay(env, n, k, x, y, q);
    match ev
    case VmPort(n', k', at, m, true) =>
      FloodsIs(env, x, y, GetDpids(env.nw, n) - {at.dpid}, q);
      if at.dpid == x { UpstreamWay(env, t, n', k', at, m, k, q); } else { RemoteAddWay(env, t, x, n', k', at, m, k, q); }
    case VmPort(n', k', at, m, false) =>
      FloodsIs(env, x, y, GetDpids(env.nw, n) - {at.dpid}, q);
      if at.dpid == x { assert q != at.port by { TrunkPort(env, x, y, q); } DelHereWay(env, t, n', k', at, m, k, q); }
      else { RemoteDelWay(env, t, x, n', k', at, m, k, q); }
    case TunnelPort(at, remote, true) => if at.dpid == x { TunnelAddWay(env, t, at, remote, n, k, q); }
    case TunnelPort(at, remote, false) => DropWay(t, at.port, k, q);
  }

  lemma TrunkPort(env: Env, x: Dpid, y: Dpid, q: PortNo)
    requires q in UpTunnels(env, x, y)
    ensures PortId(x, q) in env.tun.remotes && env.tun.remotes[PortId(x, q)] == y && PortId(x, q) in env.up
    ensures x in env.connected && y in env.connected
  {
  }

  lemma LinkedWay(env: Env, n: NetworkId, k: Key, x: Dpid, y: Dpid, q: PortNo)
    requires Linked(env, n, k, x, y, q)
    ensures x in GetDpids(env.nw, n) && y in GetDpids(env.nw, n) && n in CommonNetworks(env, x, y)
    ensures q in Floods(env, n, x) && UpTunnels(env, x, y) != {}
  {
    hide Active, UpTunnels, CommonNetworks, GetDpids, Agree, TunnelPorts;
    ActiveMember(env, n, x);
    ActiveMember(env, n, y);
    BothCommon(env, n, x, y);
    FloodsIs(env, x, y, GetDpids(env.nw, n) - {x}, q);
  }

  lemma DropWay(t: Table, p: PortNo, k: Key, q: PortNo)
    ensures WayOpen(t, k, q) ==> WayOpen(DeleteStrict(t, SrcDrop(p)), k, q)
    ensures FloodOf(DeleteStrict(t, SrcDrop(p)), k) == FloodOf(t, k)
  {
  }

  // ------------------------------------------------------- a batch of events

  lemma {:induction false} BatchWay(env: Env, ever: set<PortId>, flows: Flows, evs: seq<GreEvent>, n: NetworkId, k: Key, x: Dpid, y: Dpid, q: PortNo)
    requires Linked(env, n, k, x, y, q) && x in flows && forall ev | ev in evs :: Apt(env, ever, ev)
    requires WayOpen(flows[x], k, q) || exists ev :: ev in evs && Opens(env, ev, n, x, y, q)
    ensures x in HandleAll(env, flows, evs) && WayOpen(HandleAll(env, flows, evs)[x], k, q)
    decreases |evs|
  {
    hide Linked, Apt, WayOpen, Opens, Handle;
    if evs != [] {
      HandledKeys(env, flows, evs[0]);
      assert Apt(env, ever, evs[0]);
      if WayOpen(flows[x], k, q) || Opens(env, evs[0], n, x, y, q) {
        EventWay(env, ever, flows, evs[0], n, k, x, y, q);
      } else {
        var ev :| ev in evs && Opens(env, ev, n, x, y, q);
        assert ev in evs[1..];
      }
      BatchWay(env, ever, Handle(env, flows, evs[0]), evs[1..], n, k, x, y, q);
    }
  }

  // ------------------------------------------------------------- whole steps

  /** Both switches have live ports of the tenant, and a tunnel between them. */
  predicate Joined(env: Env, n: NetworkId, x: Dpid, y: Dpid, q: PortNo) {
    x != y && Live(env, n, x) != {} && Live(env, n, y) != {} && q in Trunks(env, x, y)
  }

  /** Every two joined switches have their way open. */
  ghost predicate AllFlooded(w: World) {
    forall n, x, y, q | x in w.flows && Joined(w.env, n, x, y, q) :: FloodedAt(w, n, x, q)
  }

  ghost predicate FloodedAt(w: World, n: NetworkId, x: Dpid, q: PortNo)
    requires x in w.flows
  {
    n in w.env.tun.keys && WayOpen(w.flows[x], w.env.tun.keys[n], q)
  }

  lemma PortEventTrue(env: Env, at: PortId, n: NetworkId, add: bool)
    ensures forall ev | ev in PortEvent(env, at, add) :: TunnelTrue(env, ev)
    ensures forall ev | ev in NetworkPortEvent(env, at, n, add) :: TunnelTrue(env, ev)
  {
  }

  lemma {:induction false} PortEventsTrue(env: Env, ports: seq<PortId>, n: NetworkId)
    ensures forall ev | ev in PortEvents(env, ports) :: TunnelTrue(env, ev)
    ensures forall ev | ev in NetworkPortEvents(env, ports, n) :: TunnelTrue(env, ev)
    decreases |ports|
  {
    hide PortEvent, NetworkPortEvent, TunnelTrue;
    if ports != [] {
      PortEventTrue(env, ports[0], n, true);
      PortEventsTrue(env, ports[1..], n);
    }
  }

  lemma StepEventsTrue(w: World, step: Step)
    ensures forall ev | ev in EventsOf(w.env, step) :: TunnelTrue(EnvAfter(w.env, step), ev)
  {
    hide PortEvent, NetworkPortEvent, VmEvent, TunnelTrue, Apply;
    var env' := EnvAfter(w.env, step);
    match step
    case StoreCall(call) =>
      forall ev | ev in EventsOf(w.env, step) ensures TunnelTrue(env', ev) {
        StoreEventsComeFrom(env', Apply(w.env.nw, call.op, call.order).events, ev);
        var se :| se in Apply(w.env.nw, call.op, call.order).events && ev in StoreEvent(env', se);
        StoreEventTrue(env', se);
      }
    case SetKey(n, _, _, order) => PortEventsTrue(env', order, n);
    case SwitchEnter(_, _, order) => PortEventsTrue(env', order, Unknown);
    case SetTunnel(at, _, _) => PortEventTrue(env', at, Unknown, true);
    case DropTunnel(at) => PortEventTrue(env', at, Unknown, false);
    case PortUp(at) => PortEventTrue(env', at, Unknown, true);
    case PortDown(at) => PortEventTrue(env', at, Unknown, false);
  }

  lemma StoreEventTrue(env: Env, se: Event)
    ensures forall ev | ev in StoreEvent(env, se) :: TunnelTrue(env, ev)
  {
  }

  lemma StepApt(w: World, step: Step)
    requires WorldOk(w) && Allowed(w, step)
    ensures forall ev | ev in EventsOf(w.env, step) :: Apt(After(w, step).env, After(w, step).ever, ev)
  {
    hide FlowsOk, HandleAll, EventsOf, Allowed, Agree;
    var w', evs := After(w, step), EventsOf(w.env, step);
    StepKeepsFlows(w, step);
    StepEventsTrue(w, step);
    if HasVmDel(evs) {
      var del := WithdrawalShape(w, step);
      forall ev | ev in evs ensures Apt(w'.env, w'.ever, ev) {
        if ev == del { WithdrawnIsGone(w, step, del); } else { assert ev in evs[1..]; }
      }
    }
  }

  lemma WithdrawnIsGone(w: World, step: Step, ev: GreEvent)
    requires WorldOk(w) && Withdraws(w, step, ev)
    ensures ev.at !in EnvAfter(w.env, step).tun.remotes && ev.at.port !in Active(EnvAfter(w.env, step), ev.n, ev.at.dpid)
    ensures Gone(EnvAfter(w.env, step), ev.at)
  {
    hide FlowsOk, Agree, EventsOf, EnvAfter, Live;
    assert NetworkOf(w.env.nw.dpids, ev.at).Tenant?;
    PortsOfAt(EnvAfter(w.env, step), ev.at);
  }

  // -------------------------------------------- tunnel ports are announced

  lemma TrunkIs(env: Env, x: Dpid, y: Dpid, q: PortNo)
    ensures q in Trunks(env, x, y) <==>
            && x in env.connected && y in env.connected && PortId(x, q) in env.up
            && PortId(x, q) in env.tun.remotes && env.tun.remotes[PortId(x, q)] == y
            && NetworkOf(env.nw.dpids, PortId(x, q)) == VportGre
  {
  }

  lemma TrunkAnnounced(env: Env, x: Dpid, y: Dpid, q: PortNo)
    requires q in Trunks(env, x, y)
    ensures TunnelPort(PortId(x, q), y, true) in PortEvent(env, PortId(x, q), true)
    ensures TunnelPort(PortId(x, q), y, true) in StoreEvent(env, NetworkPort(VportGre, PortId(x, q), true))
  {
    TrunkIs(env, x, y, q);
  }

  lemma {:induction false} ListedEvents(env: Env, ports: seq<PortId>, at: PortId, ev: GreEvent)
    requires at in ports && ev in PortEvent(env, at, true)
    ensures ev in PortEvents(env, ports)
    decreases |ports|
  {
    hide PortEvent;
    if ports[0] != at { ListedEvents(env, ports[1..], at, ev); }
  }

  lemma {:induction false} SentEvents(env: Env, sent: seq<Event>, se: Event, ev: GreEvent)
    requires se in sent && ev in StoreEvent(env, se)
    ensures ev in StoreEvents(env, sent)
    decreases |sent|
  {
    hide StoreEvent;
    if sent[0] != se { SentEvents(env, sent[1..], se, ev); }
  }

  /** A tunnel port becomes usable by its own event, or because the switch at its
      far end joins. */
  lemma NewTrunkAnnounced(w: World, step: Step, x: Dpid, y: Dpid, q: PortNo)
    requires WorldOk(w) && Allowed(w, step)
    requires q in Trunks(EnvAfter(w.env, step), x, y) && q !in Trunks(w.env, x, y)
    ensures TunnelPort(PortId(x, q), y, true) in EventsOf(w.env, step) || y !in w.env.connected
  {
    hide FlowsOk, PortEvent, StoreEvent, Trunks, Apply, UpTunnels, Agree;
    var env', at := EnvAfter(w.env, step), PortId(x, q);
    var ev := TunnelPort(at, y, true);
    TrunkIs(w.env, x, y, q);
    TrunkIs(env', x, y, q);
    TrunkAnnounced(env', x, y, q);
    match step
    case StoreCall(call) =>
      GreAnnounced(w.env.nw, call, at);
      SentEvents(env', Apply(w.env.nw, call.op, call.order).events, NetworkPort(VportGre, at, true), ev);
    case SwitchEnter(d, ports, order) =>
      if y in w.env.connected {
        GreKnown(w.env, at);
        assert at in multiset(order);
        ListedEvents(env', order, at, ev);
      }
    case _ =>
  }

  lemma GreKnown(env: Env, at: PortId)
    requires NetworkOf(env.nw.dpids, at) == VportGre
    ensures at.port in PortsOf(env.nw, at.dpid).Keys && at == PortId(at.dpid, at.port)
  {
  }

  /** A port joins the tunnel ports of the store with an event. */
  lemma GreAnnounced(s: Store, call: Call, at: PortId)
    requires Agree(s) && Safe(s, call.op)
    requires NetworkOf(Apply(s, call.op, call.order).store.dpids, at) == VportGre != NetworkOf(s.dpids, at)
    ensures NetworkPort(VportGre, at, true) in Apply(s, call.op, call.order).events
  {
  }

  // ---------------------------------------------- ways over steps and runs

  lemma JoinedLinked(w: World, n: NetworkId, x: Dpid, y: Dpid, q: PortNo)
    requires EnvOk(w) && Joined(w.env, n, x, y, q)
    ensures OwnedBy(w.env.tun.keys, n, w.env.tun.keys[n]) && Linked(w.env, n, w.env.tun.keys[n], x, y, q)
    ensures Live(w.env, n, x) == Active(w.env, n, x) && Live(w.env, n, y) == Active(w.env, n, y)
  {
    hide Active, Agree;
  }

  /** What makes two switches joined also opens their way. */
  lemma NewlyJoinedOpens(w: World, step: Step, n: NetworkId, x: Dpid, y: Dpid, q: PortNo)
    requires WorldOk(w) && Allowed(w, step) && !Crowds(w, step)
    requires Joined(After(w, step).env, n, x, y, q) && !Joined(w.env, n, x, y, q)
    ensures exists ev :: ev in EventsOf(w.env, step) && Opens(After(w, step).env, ev, n, x, y, q)
  {
    hide FlowsOk, EventsOf, HandleAll, Allowed, Live, Active, Trunks, EnvAfter, EnvOk, CrowdsAt;
    var env', evs := EnvAfter(w.env, step), EventsOf(w.env, step);
    StepKeepsFlows(w, step);
    JoinedLinked(After(w, step), n, x, y, q);
    if Live(w.env, n, x) == {} {
      FirstPortOpens(w, step, n, x, y, q, x);
    } else if Live(w.env, n, y) == {} {
      FirstPortOpens(w, step, n, x, y, q, y);
    } else {
      NewTrunkAnnounced(w, step, x, y, q);
      LiveConnected(w.env, n, y);
      assert Opens(env', TunnelPort(PortId(x, q), y, true), n, x, y, q);
    }
  }

  lemma LiveConnected(env: Env, n: NetworkId, d: Dpid)
    requires Live(env, n, d) != {}
    ensures n.Tenant? && n in env.tun.keys && d in env.connected && Live(env, n, d) == Active(env, n, d)
  {
    hide Active;
  }

  lemma FirstPortOpens(w: World, step: Step, n: NetworkId, x: Dpid, y: Dpid, q: PortNo, d: Dpid)
    requires WorldOk(w) && Allowed(w, step) && !Crowds(w, step) && (d == x || d == y)
    requires Live(w.env, n, d) == {} && Live(EnvAfter(w.env, step), n, d) != {}
    ensures exists ev :: ev in EventsOf(w.env, step) && Opens(EnvAfter(w.env, step), ev, n, x, y, q)
  {
    hide FlowsOk, EventsOf, HandleAll, Allowed, Live, Active, EnvAfter, EnvOk;
    var env', evs := EnvAfter(w.env, step), EventsOf(w.env, step);
    var p :| p in Live(env', n, d);
    NewLiveAnnounced(w, step, n, d, p);
    LiveConnected(env', n, d);
    var ev :| ev in evs && ev.VmPort? && ev.add && ev.n == n && ev.at.dpid == d && ev.at.port == p;
    assert !CrowdsAt(w, step, n, d);
    OnlyOne(Live(env', n, d), p);
  }

  lemma OnlyOne<T>(s: set<T>, x: T)
    requires x in s && |s| < 2
    ensures |s| == 1
  {
  }

  lemma FloodedBefore(w: World, step: Step, n: NetworkId, x: Dpid, y: Dpid, q: PortNo)
    requires WorldOk(w) && Allowed(w, step) && AllFlooded(w) && Joined(w.env, n, x, y, q)
    ensures OwnedBy(w.env.tun.keys, n, w.env.tun.keys[n]) && OwnedBy(EnvAfter(w.env, step).tun.keys, n, w.env.tun.keys[n])
    ensures x in FlowsBefore(w, step) && WayOpen(FlowsBefore(w, step)[x], w.env.tun.keys[n], q)
  {
    hide FlowsOk, EventsOf, HandleAll, Live, Active, Trunks, EnvAfter, Agree, WayOpen;
    LiveConnected(w.env, n, x);
    KeysKept(w, step, n, w.env.tun.keys[n]);
    assert FloodedAt(w, n, x, q);
    assert !(step.SwitchEnter? && step.d == x);
  }

  lemma FloodedAfter(w: World, step: Step, n: NetworkId, x: Dpid, y: Dpid, q: PortNo)
    requires WorldOk(w) && Allowed(w, step) && AllFlooded(w) && !Crowds(w, step)
    requires Joined(After(w, step).env, n, x, y, q) && x in After(w, step).flows
    ensures FloodedAt(After(w, step), n, x, q)
  {
    hide FlowsOk, EventsOf, HandleAll, Allowed, AllFlooded, EnvOk, EnvAfter, Joined, WayOpen, Opens, Linked;
    var w', evs, flows := After(w, step), EventsOf(w.env, step), FlowsBefore(w, step);
    StepKeepsFlows(w, step);
    StepApt(w, step);
    JoinedLinked(w', n, x, y, q);
    HandleAllKeys(w'.env, flows, evs);
    if Joined(w.env, n, x, y, q) { FloodedBefore(w, step, n, x, y, q); } else { NewlyJoinedOpens(w, step, n, x, y, q); }
    BatchWay(w'.env, w'.ever, flows, evs, n, w'.env.tun.keys[n], x, y, q);
  }

  lemma StepFlooded(w: World, step: Step)
    requires WorldOk(w) && Allowed(w, step) && AllFlooded(w) && !Crowds(w, step)
    ensures AllFlooded(After(w, step))
  {
    hide WorldOk, Allowed, Crowds, After, Joined, FloodedAt;
    var w' := After(w, step);
    forall n, x, y, q | x in w'.flows && Joined(w'.env, n, x, y, q) ensures FloodedAt(w', n, x, q) {
      FloodedAfter(w, step, n, x, y, q);
    }
  }

  /** After any allowed step every live port's packets are carried to LOCAL_OUT
      and across every tunnel that joins two switches of its tenant, exactly
      unless the step made two ports of a tenant live at once where none was. */
  lemma CrossedExactly(w: World, step: Step)
    requires WorldOk(w) && Allowed(w, step) && AllCarried(w) && AllFlooded(w)
    ensures AllCarried(After(w, step)) && AllFlooded(After(w, step)) <==> !Crowds(w, step)
  {
    hide WorldOk, Allowed, Crowds, After, AllCarried, AllFlooded;
    CarriedExactly(w, step);
    if !Crowds(w, step) { StepFlooded(w, step); }
  }

  // ------------------------------------- where broadcasts go, to the port

  /** The event has the switch write its broadcast row anew: the tenant's first
      or last port on a switch at the end of an up tunnel, or on this one, and a
      tunnel port of this switch towards one the tenant is on too. */
  predicate Rewrites(env: Env, ev: GreEvent, n: NetworkId, x: Dpid) {
    match ev
    case VmPort(n', _, at, _, add) =>
      && n' == n && (at.dpid == x || (x in GetDpids(env.nw, n) && UpTunnels(env, x, at.dpid) != {}))
      && if add then |Active(env, n, at.dpid)| == 1 else Active(env, n, at.dpid) - {at.port} == {}
    case TunnelPort(at, remote, add) => add && at.dpid == x && n in CommonNetworks(env, x, remote)
  }

  /** Rewritten so, the row is exact: a withdrawal must have been the last port of
      the network on its switch, active or not, and the far end of a new tunnel
      port must be connected. */
  predicate Exact(env: Env, ev: GreEvent, n: NetworkId, x: Dpid) {
    match ev
    case VmPort(_, _, at, _, add) =>
      add || if at.dpid == x then Floods(env, n, x) == {} else at.dpid !in GetDpids(env.nw, n)
    case TunnelPort(at, remote, _) => at.port in Floods(env, n, x)
  }

  /** The last event that rewrites the row decides. */
  predicate Settles(env: Env, evs: seq<GreEvent>, n: NetworkId, x: Dpid, was: bool)
    decreases |evs|
  {
    if evs == [] then was
    else Settles(env, evs[1..], n, x, if Rewrites(env, evs[0], n, x) then Exact(env, evs[0], n, x) else was)
  }

  /** The tenant owns the key, in stores that agree. */
  ghost predicate Owned(env: Env, n: NetworkId, k: Key) {
    OwnedBy(env.tun.keys, n, k) && Injective(env.tun.keys) && Agree(env.nw)
  }

  lemma EventFlood(env: Env, ever: set<PortId>, flows: Flows, ev: GreEvent, n: NetworkId, k: Key, x: Dpid)
    requires Owned(env, n, k) && Apt(env, ever, ev) && x in flows
    ensures FloodOf(Handle(env, flows, ev)[x], k) == Floods(env, n, x)
            <==> if Rewrites(env, ev, n, x) then Exact(env, ev, n, x) else FloodOf(flows[x], k) == Floods(env, n, x)
  {
    hide Active, UpTunnels, TunnelPorts, GetDpids, CommonNetworks, Agree, AddHere, AddThere, DelHere, DelThere, TunnelAddHere, FloodOf, PassOpen;
    var t := flows[x];
    match ev
    case VmPort(n', k', at, m, true) =>
      if at.dpid == x { UpstreamWay(env, t, n', k', at, m, k, at.port); }
      else { RemoteAddWay(env, t, x, n', k', at, m, k, 0); if n' == n { AddedMember(env, n, at); FloodsWith(env, n, x, at.dpid); } }
    case VmPort(n', k', at, m, false) =>
      if at.dpid == x { DelHereWay(env, t, n', k', at, m, k, at.port + 1); }
      else { RemoteDelWay(env, t, x, n', k', at, m, k, 0); FloodsWithout(env, n, x, at.dpid); }
    case TunnelPort(at, remote, true) => if at.dpid == x { TunnelAddWay(env, t, at, remote, n, k, 0); }
    case TunnelPort(at, remote, false) => DropWay(t, at.port, k, 0);
  }

  lemma AddedMember(env: Env, n: NetworkId, at: PortId)
    requires Agree(env.nw) && n.Tenant? && NetworkOf(env.nw.dpids, at) == n
    ensures at.dpid in GetDpids(env.nw, n)
  {
    assert MemberAgrees(env.nw, n, at);
  }

  lemma FloodsWith(env: Env, n: NetworkId, x: Dpid, y: Dpid)
    requires x != y && y in GetDpids(env.nw, n)
    ensures TunnelPorts(env, x, GetDpids(env.nw, n) - {y}) + UpTunnels(env, x, y) == Floods(env, n, x)
  {
    hide UpTunnels, GetDpids;
  }

  lemma FloodsWithout(env: Env, n: NetworkId, x: Dpid, y: Dpid)
    requires x != y
    ensures UpTunnels(env, x, y) != {} ==>
              (TunnelPorts(env, x, GetDpids(env.nw, n) - {y}) == Floods(env, n, x) <==> y !in GetDpids(env.nw, n))
  {
    hide GetDpids;
    if q :| q in UpTunnels(env, x, y) {
      FloodsIs(env, x, y, GetDpids(env.nw, n) - {y}, q);
      FloodsIs(env, x, y, GetDpids(env.nw, n) - {x}, q);
      if y !in GetDpids(env.nw, n) { SameFloods(env, x, GetDpids(env.nw, n) - {y}, GetDpids(env.nw, n) - {x}); }
    }
  }

  lemma SameFloods(env: Env, x: Dpid, rs: set<Dpid>, rs': set<Dpid>)
    requires rs - {x} == rs' - {x}
    ensures TunnelPorts(env, x, rs) == TunnelPorts(env, x, rs')
  {
    hide UpTunnels;
    assert forall r | r != x :: r in rs <==> r in rs - {x};
    assert forall r | r != x :: r in rs' <==> r in rs' - {x};
  }

  lemma {:induction false} BatchFlood(env: Env, ever: set<PortId>, flows: Flows, evs: seq<GreEvent>, n: NetworkId, k: Key, x: Dpid, was: bool)
    requires Owned(env, n, k) && x in flows && forall ev | ev in evs :: Apt(env, ever, ev)
    requires was <==> FloodOf(flows[x], k) == Floods(env, n, x)
    ensures x in HandleAll(env, flows, evs)
    ensures FloodOf(HandleAll(env, flows, evs)[x], k) == Floods(env, n, x) <==> Settles(env, evs, n, x, was)
    decreases |evs|
  {
    hide Owned, Apt, FloodOf, Floods, Rewrites, Exact, Handle;
    if evs != [] {
      HandledKeys(env, flows, evs[0]);
      assert Apt(env, ever, evs[0]);
      EventFlood(env, ever, flows, evs[0], n, k, x);
      BatchFlood(env, ever, Handle(env, flows, evs[0]), evs[1..], n, k, x,
                 if Rewrites(env, evs[0], n, x) then Exact(env, evs[0], n, x) else was);
    }
  }

  /** After any allowed step broadcasts go exactly to the up tunnel ports towards
      the connected switches of the network, if the last event that rewrites the
      row is exact, or without one if they went exactly there before; and only then. */
  lemma FloodsExactly(w: World, step: Step, n: NetworkId, k: Key, x: Dpid)
    requires WorldOk(w) && Allowed(w, step) && x in FlowsBefore(w, step)
    requires OwnedBy(After(w, step).env.tun.keys, n, k)
    ensures x in After(w, step).flows
    ensures var env' := After(w, step).env;
            FloodOf(After(w, step).flows[x], k) == Floods(env', n, x)
            <==> Settles(env', EventsOf(w.env, step), n, x, FloodOf(FlowsBefore(w, step)[x], k) == Floods(env', n, x))
  {
    hide FlowsOk, EventsOf, HandleAll, Allowed, Agree, EnvAfter, FloodOf, Floods, Settles;
    var w', evs, flows := After(w, step), EventsOf(w.env, step), FlowsBefore(w, step);
    StepKeepsFlows(w, step);
    StepApt(w, step);
    HandleAllKeys(w'.env, flows, evs);
    BatchFlood(w'.env, w'.ever, flows, evs, n, k, x, FloodOf(flows[x], k) == Floods(w'.env, n, x));
  }

  // ------------------------------------------------------ unicast across tunnels

  function MacOut(t: Table, k: Key, m: Mac): set<PortNo> { OutputsOf(t, TunnelMac(k, m)) }

  /** A port of the network on the switch carries the MAC, up or not. */
  predicate Carrier(env: Env, n: NetworkId, r: Dpid, m: Mac) {
    exists p | p in PortsOf(env.nw, r) :: PortsOf(env.nw, r)[p] == Port(n, Some(m))
  }

  /** Whether the row for a MAC that is active on `y` leads there after an event:
      a new tunnel port to another switch that has the MAC takes it over. */
  predicate LeadsAfter(env: Env, ev: GreEvent, n: NetworkId, x: Dpid, y: Dpid, m: Mac, was: bool) {
    match ev
    case VmPort(n', _, at, m', add) =>
      if n' != n then was
      else if at.dpid == x then add || was
      else was || (m' == m && UpTunnels(env, x, at.dpid) != {})
    case TunnelPort(at, r, add) => if add && at.dpid == x && Carrier(env, n, r, m) then r == y else was
  }

  ghost predicate Target(env: Env, n: NetworkId, k: Key, x: Dpid, y: Dpid, q: PortNo, p: PortNo, m: Mac) {
    Linked(env, n, k, x, y, q) && OnePortEach(env.tun) && p in Active(env, n, y) && Holds(env, y, p, n, m)
  }

  lemma UpstreamMac(env: Env, t: Table, n: NetworkId, k: Key, at: PortId, m: Mac, k': Key, m': Mac)
    ensures var t', rows := AddHere(env, t, n, k, at, m), RemoteMacs(env, n, k, at.dpid, GetDpids(env.nw, n) - {at.dpid});
            MacOut(t', k', m') == if TunnelMac(k', m') in rows then rows[TunnelMac(k', m')].outputs else MacOut(t, k', m')
  {
    hide Active, TunnelPorts, RemoteMacs, WithMac, AddLocal, PassAll;
    LocalMacOut(env, t, n, k, at.dpid, m, k', m');
    forall ports: set<PortNo> ensures TunnelMac(k', m') !in PassAll(k, ports) { PassAllMac(k, ports, k', m'); }
  }

  lemma RemoteMacRow(env: Env, n: NetworkId, k: Key, d: Dpid, rs: set<Dpid>, k': Key, m: Mac)
    ensures var rows := RemoteMacs(env, n, k, d, rs);
            TunnelMac(k', m) in rows ==> k' == k && rows[TunnelMac(k', m)] == OutputThenLocal(WaysTo(env, n, d, rs, Some(m)))
  {
    hide Active, WaysTo, UpTunnels;
  }

  lemma PassAllMac(k: Key, ports: set<PortNo>, k': Key, m: Mac)
    ensures TunnelMac(k', m) !in PassAll(k, ports)
  {
  }

  lemma LocalMacOut(env: Env, t: Table, n: NetworkId, k: Key, d: Dpid, m: Mac, k': Key, m': Mac)
    ensures Lookup(AddLocal(env, t, n, k, d, m), TunnelMac(k', m')) == Lookup(t, TunnelMac(k', m'))
  {
    hide Active, WithMac;
  }

  lemma RemoteAddMac(env: Env, t: Table, x: Dpid, n: NetworkId, k: Key, at: PortId, m: Mac, k': Key, m': Mac)
    ensures MacOut(AddThere(env, t, x, n, k, at, m), k', m') ==
            if (k, m) == (k', m') then MacTunnels(env, x, n, at, m) + UpTunnels(env, x, at.dpid) else MacOut(t, k', m')
  {
    hide Active, TunnelPorts, MacTunnels, UpTunnels, PassAll;
    PassAllMac(k, UpTunnels(env, x, at.dpid), k', m');
  }

  lemma DelHereMac(env: Env, t: Table, n: NetworkId, k: Key, at: PortId, m: Mac, k': Key, m': Mac)
    requires k == k' ==> Active(env, n, at.dpid) - {at.port} != {}
    ensures MacOut(DelHere(env, t, n, k, at, m), k', m') == MacOut(t, k', m')
  {
    hide Active, WithMac;
  }

  lemma RemoteDelMac(env: Env, t: Table, x: Dpid, n: NetworkId, k: Key, at: PortId, m: Mac, k': Key, m': Mac)
    ensures var others := MacTunnels(env, x, n, at, m);
            && ((k, m) != (k', m') ==> MacOut(DelThere(env, t, x, n, k, at, m), k', m') == MacOut(t, k', m'))
            && ((k, m) == (k', m') && others != {} ==> MacOut(DelThere(env, t, x, n, k, at, m), k', m') == others)
  {
    hide Active, TunnelPorts, MacTunnels, UpTunnels;
  }

  lemma TunnelAddMac(env: Env, t: Table, at: PortId, r: Dpid, n: NetworkId, k: Key, m: Mac)
    requires OwnedBy(env.tun.keys, n, k) && Injective(env.tun.keys)
    ensures MacOut(TunnelAddHere(env, t, at, r), k, m) ==
            if n in CommonNetworks(env, at.dpid, r) && Carrier(env, n, r, m) then {at.port} else MacOut(t, k, m)
  {
    hide TunnelPorts, TunnelPasses, TunnelMacs, TunnelFloods;
    var nets := CommonNetworks(env, at.dpid, r);
    MacRow(env, at.port, nets, r, n, k, m);
    NoMacRow(env, at.dpid, at.port, nets, k, m);
  }

  lemma MacRow(env: Env, p: PortNo, nets: set<NetworkId>, r: Dpid, n: NetworkId, k: Key, m: Mac)
    requires nets <= env.tun.keys.Keys && OwnedBy(env.tun.keys, n, k) && Injective(env.tun.keys)
    ensures var rows := TunnelMacs(env, p, nets, r);
            && (TunnelMac(k, m) in rows <==> n in nets && Carrier(env, n, r, m))
            && (TunnelMac(k, m) in rows ==> rows[TunnelMac(k, m)].outputs == {p})
  {
    if n in nets && Carrier(env, n, r, m) {
      var q :| q in PortsOf(env.nw, r) && PortsOf(env.nw, r)[q] == Port(n, Some(m));
      assert TunnelMac(env.tun.keys[n], PortsOf(env.nw, r)[q].mac.value) in TunnelMacs(env, p, nets, r);
    }
  }

  lemma NoMacRow(env: Env, d: Dpid, p: PortNo, nets: set<NetworkId>, k: Key, m: Mac)
    requires nets <= env.tun.keys.Keys
    ensures TunnelMac(k, m) !in TunnelPasses(env, p, nets) && TunnelMac(k, m) !in TunnelFloods(env, d, p, nets)
  {
    hide FloodPorts;
  }

  lemma EventMac(env: Env, ever: set<PortId>, flows: Flows, ev: GreEvent, n: NetworkId, k: Key, x: Dpid, y: Dpid, q: PortNo, p: PortNo, m: Mac)
    requires Target(env, n, k, x, y, q, p, m) && Apt(env, ever, ev) && x in flows
    ensures q in MacOut(Handle(env, flows, ev)[x], k, m) <==> LeadsAfter(env, ev, n, x, y, m, q in MacOut(flows[x], k, m))
  {
    hide Active, UpTunnels, TunnelPorts, GetDpids, CommonNetworks, Agree, AddHere, AddThere, DelHere, DelThere, TunnelAddHere, MacOut, Carrier, RemoteMacs, MacTunnels, WaysTo;
    var t := flows[x];
    LinkedWay(env, n, k, x, y, q);
    match ev
    case VmPort(n', k', at, m', true) =>
      if at.dpid == x { UpstreamMac(env, t, n', k', at, m', k, m); RemoteMacRow(env, n', k', x, GetDpids(env.nw, n') - {x}, k, m); LeadsFrom(env, n, k, x, y, q, p, m); }
      else { RemoteAddMac(env, t, x, n', k', at, m', k, m); LeadsOther(env, n, k, x, y, q, p, m, at); }
    case VmPort(n', k', at, m', false) =>
      if at.dpid == x { DelHereMac(env, t, n', k', at, m', k, m); }
      else { RemoteDelMac(env, t, x, n', k', at, m', k, m); LeadsOther(env, n, k, x, y, q, p, m, at); }
    case TunnelPort(at, r, true) => if at.dpid == x { TunnelAddMac(env, t, at, r, n, k, m); TakenOver(env, n, k, x, y, q, p, m, at, r); }
    case TunnelPort(at, r, false) => DropMac(t, at.port, k, m);
  }

  lemma DropMac(t: Table, p: PortNo, k: Key, m: Mac)
    ensures MacOut(DeleteStrict(t, SrcDrop(p)), k, m) == MacOut(t, k, m)
  {
  }

  lemma LeadsFrom(env: Env, n: NetworkId, k: Key, x: Dpid, y: Dpid, q: PortNo, p: PortNo, m: Mac)
    requires Target(env, n, k, x, y, q, p, m)
    ensures var rs := GetDpids(env.nw, n) - {x}; TunnelMac(k, m) in RemoteMacs(env, n, k, x, rs) && q in WaysTo(env, n, x, rs, Some(m))
  {
    hide UpTunnels, GetDpids, Agree, Active;
    LinkedWay(env, n, k, x, y, q);
    PortsOfAt(env, PortId(y, p));
    assert TunnelMac(k, PortsOf(env.nw, y)[p].mac.value) == TunnelMac(k, m);
  }

  /** The other holder's tunnel is among those of a MAC. */
  lemma LeadsOther(env: Env, n: NetworkId, k: Key, x: Dpid, y: Dpid, q: PortNo, p: PortNo, m: Mac, at: PortId)
    requires Target(env, n, k, x, y, q, p, m)
    ensures at != PortId(y, p) ==> q in MacTunnels(env, x, n, at, m)
    ensures at.dpid == y ==> q in UpTunnels(env, x, at.dpid)
  {
    hide Active, GetDpids;
    assert MacAgrees(env.nw, n, m, PortId(y, p));
  }

  lemma TakenOver(env: Env, n: NetworkId, k: Key, x: Dpid, y: Dpid, q: PortNo, p: PortNo, m: Mac, at: PortId, r: Dpid)
    requires Target(env, n, k, x, y, q, p, m) && at.dpid == x
    ensures Carrier(env, n, r, m) ==> n in CommonNetworks(env, x, r)
    ensures at in env.tun.remotes && env.tun.remotes[at] == r ==> (at.port == q <==> r == y)
  {
    hide Agree, GetDpids;
    TrunkPort(env, x, y, q);
    assert at == PortId(x, at.port);
    var own :| own in Active(env, n, x);
  }

  predicate LeadsAll(env: Env, evs: seq<GreEvent>, n: NetworkId, x: Dpid, y: Dpid, m: Mac, was: bool)
    decreases |evs|
  {
    if evs == [] then was else LeadsAll(env, evs[1..], n, x, y, m, LeadsAfter(env, evs[0], n, x, y, m, was))
  }

  lemma {:induction false} BatchMac(env: Env, ever: set<PortId>, flows: Flows, evs: seq<GreEvent>, n: NetworkId, k: Key, x: Dpid, y: Dpid, q: PortNo, p: PortNo, m: Mac)
    requires Target(env, n, k, x, y, q, p, m) && x in flows && forall ev | ev in evs :: Apt(env, ever, ev)
    ensures x in HandleAll(env, flows, evs)
    ensures q in MacOut(HandleAll(env, flows, evs)[x], k, m) <==> LeadsAll(env, evs, n, x, y, m, q in MacOut(flows[x], k, m))
    decreases |evs|
  {
    hide Target, Apt, MacOut, LeadsAfter, Handle;
    if evs != [] {
      HandledKeys(env, flows, evs[0]);
      assert Apt(env, ever, evs[0]);
      EventMac(env, ever, flows, evs[0], n, k, x, y, q, p, m);
      BatchMac(env, ever, Handle(env, flows, evs[0]), evs[1..], n, k, x, y, q, p, m);
    }
  }

  /** Once some event leads there for sure, it does not matter what was before. */
  lemma {:induction false} LeadsAnyway(env: Env, evs: seq<GreEvent>, n: NetworkId, x: Dpid, y: Dpid, m: Mac)
    requires exists ev :: ev in evs && LeadsAfter(env, ev, n, x, y, m, false)
    ensures LeadsAll(env, evs, n, x, y, m, false) == LeadsAll(env, evs, n, x, y, m, true)
    decreases |evs|
  {
    LeadsMore(env, evs[0], n, x, y, m);
    hide LeadsAfter;
    if LeadsAfter(env, evs[0], n, x, y, m, false) != LeadsAfter(env, evs[0], n, x, y, m, true) {
      var ev :| ev in evs && LeadsAfter(env, ev, n, x, y, m, false);
      assert ev in evs[1..];
      LeadsAnyway(env, evs[1..], n, x, y, m);
    }
  }

  lemma LeadsMore(env: Env, ev: GreEvent, n: NetworkId, x: Dpid, y: Dpid, m: Mac)
    ensures LeadsAfter(env, ev, n, x, y, m, false) ==> LeadsAfter(env, ev, n, x, y, m, true)
  {
  }

  /** A live port with the MAC, on a switch joined to `x`. */
  predicate Aimed(env: Env, n: NetworkId, m: Mac, x: Dpid, y: Dpid, q: PortNo, p: PortNo) {
    Joined(env, n, x, y, q) && p in Live(env, n, y) && Holds(env, y, p, n, m)
  }

  /** On every switch joined to one where the MAC is live, its row leads there. */
  ghost predicate AllLed(w: World, n: NetworkId, m: Mac) {
    forall x, y, q, p | x in w.flows && Aimed(w.env, n, m, x, y, q, p) :: LedAt(w, n, m, x, q)
  }

  ghost predicate LedAt(w: World, n: NetworkId, m: Mac, x: Dpid, q: PortNo)
    requires x in w.flows
  {
    n in w.env.tun.keys && q in MacOut(w.flows[x], w.env.tun.keys[n], m)
  }

  /** The step lets a tunnel port take over the row of a MAC that is live behind
      another one, and no later event of the step puts that right. */
  ghost predicate Clobbers(w: World, step: Step, n: NetworkId, m: Mac) {
    exists x, y, q, p :: ClobbersAt(w, step, n, m, x, y, q, p)
  }

  predicate ClobbersAt(w: World, step: Step, n: NetworkId, m: Mac, x: Dpid, y: Dpid, q: PortNo, p: PortNo) {
    Aimed(EnvAfter(w.env, step), n, m, x, y, q, p) && !LeadsAll(EnvAfter(w.env, step), EventsOf(w.env, step), n, x, y, m, true)
  }

  lemma LivePortSame(w: World, step: Step, n: NetworkId, d: Dpid, p: PortNo)
    requires WorldOk(w) && Allowed(w, step) && p in Live(w.env, n, d) && p in Live(EnvAfter(w.env, step), n, d)
    ensures PortAt(EnvAfter(w.env, step).nw.dpids, PortId(d, p)) == PortAt(w.env.nw.dpids, PortId(d, p))
  {
    hide WorldOk, Allowed, EventsOf, EnvAfter, Live;
    if HasVmDel(EventsOf(w.env, step)) {
      var ev := WithdrawalShape(w, step);
    } else {
      StepOnlyAdds(w, step);
    }
  }

  /** What aims at a MAC anew also leads there. */
  lemma NewlyAimedLeads(w: World, step: Step, n: NetworkId, m: Mac, x: Dpid, y: Dpid, q: PortNo, p: PortNo)
    requires WorldOk(w) && Allowed(w, step)
    requires Aimed(EnvAfter(w.env, step), n, m, x, y, q, p) && !Aimed(w.env, n, m, x, y, q, p)
    ensures exists ev :: ev in EventsOf(w.env, step) && LeadsAfter(EnvAfter(w.env, step), ev, n, x, y, m, false)
  {
    hide FlowsOk, EventsOf, HandleAll, Allowed, Live, Active, Trunks, EnvAfter, EnvOk;
    var env', evs := EnvAfter(w.env, step), EventsOf(w.env, step);
    StepKeepsFlows(w, step);
    TrunksUp(env', x, y, q);
    if Live(w.env, n, x) == {} {
      var own :| own in Live(env', n, x);
      NewLiveAnnounced(w, step, n, x, own);
      var ev :| ev in evs && ev.VmPort? && ev.add && ev.n == n && ev.at.dpid == x && ev.at.port == own;
      assert LeadsAfter(env', ev, n, x, y, m, false);
    } else if p !in Live(w.env, n, y) {
      NewLiveAnnounced(w, step, n, y, p);
      var ev :| ev in evs && ev.VmPort? && ev.add && ev.n == n && ev.at.dpid == y && ev.at.port == p;
      assert Fits(env', After(w, step).ever, ev) && ev.at == PortId(y, p);
      assert LeadsAfter(env', ev, n, x, y, m, false);
    } else {
      LivePortSame(w, step, n, y, p);
      NewTrunkAnnounced(w, step, x, y, q);
      LiveConnected(w.env, n, y);
      PortsOfAt(env', PortId(y, p));
      assert LeadsAfter(env', TunnelPort(PortId(x, q), y, true), n, x, y, m, false);
    }
  }

  lemma TrunksUp(env: Env, x: Dpid, y: Dpid, q: PortNo)
    requires q in Trunks(env, x, y)
    ensures q in UpTunnels(env, x, y) && UpTunnels(env, x, y) != {}
  {
    hide UpTunnels;
  }

  lemma AimedTarget(w: World, n: NetworkId, m: Mac, x: Dpid, y: Dpid, q: PortNo, p: PortNo)
    requires EnvOk(w) && Aimed(w.env, n, m, x, y, q, p)
    ensures OwnedBy(w.env.tun.keys, n, w.env.tun.keys[n]) && Target(w.env, n, w.env.tun.keys[n], x, y, q, p, m)
  {
    hide Active, Agree, Trunks;
    JoinedLinked(w, n, x, y, q);
  }

  lemma LedBefore(w: World, step: Step, n: NetworkId, m: Mac, x: Dpid, y: Dpid, q: PortNo, p: PortNo)
    requires WorldOk(w) && Allowed(w, step) && AllLed(w, n, m) && Aimed(w.env, n, m, x, y, q, p)
    ensures OwnedBy(w.env.tun.keys, n, w.env.tun.keys[n]) && OwnedBy(EnvAfter(w.env, step).tun.keys, n, w.env.tun.keys[n])
    ensures x in FlowsBefore(w, step) && q in MacOut(FlowsBefore(w, step)[x], w.env.tun.keys[n], m)
  {
    hide FlowsOk, EventsOf, HandleAll, Live, Active, Trunks, EnvAfter, Agree, MacOut;
    LiveConnected(w.env, n, x);
    KeysKept(w, step, n, w.env.tun.keys[n]);
    assert LedAt(w, n, m, x, q);
    assert !(step.SwitchEnter? && step.d == x);
  }

  lemma LedAfter(w: World, step: Step, n: NetworkId, m: Mac, x: Dpid, y: Dpid, q: PortNo, p: PortNo)
    requires WorldOk(w) && Allowed(w, step) && AllLed(w, n, m)
    requires Aimed(EnvAfter(w.env, step), n, m, x, y, q, p)
    ensures x in After(w, step).flows
    ensures LedAt(After(w, step), n, m, x, q) <==> !ClobbersAt(w, step, n, m, x, y, q, p)
  {
    hide FlowsOk, EventsOf, HandleAll, Allowed, AllLed, EnvOk, EnvAfter, Aimed, Target, MacOut;
    var w', evs, flows := After(w, step), EventsOf(w.env, step), FlowsBefore(w, step);
    StepKeepsFlows(w, step);
    StepApt(w, step);
    AimedTarget(w', n, m, x, y, q, p);
    AimedConnected(w', n, m, x, y, q, p);
    HandleAllKeys(w'.env, flows, evs);
    if Aimed(w.env, n, m, x, y, q, p) {
      LedBefore(w, step, n, m, x, y, q, p);
    } else {
      NewlyAimedLeads(w, step, n, m, x, y, q, p);
      LeadsAnyway(w'.env, evs, n, x, y, m);
    }
    BatchMac(w'.env, w'.ever, flows, evs, n, w'.env.tun.keys[n], x, y, q, p, m);
  }

  lemma AimedConnected(w: World, n: NetworkId, m: Mac, x: Dpid, y: Dpid, q: PortNo, p: PortNo)
    requires WorldOk(w) && Aimed(w.env, n, m, x, y, q, p)
    ensures x in w.flows && y in w.flows
  {
    hide FlowsOk, Live, Agree;
    LiveConnected(w.env, n, x);
    LiveConnected(w.env, n, y);
  }

  /** After any allowed step the rows of a MAC still lead to every switch where it
      is live, exactly unless a tunnel port took them over. */
  lemma LedExactly(w: World, step: Step, n: NetworkId, m: Mac)
    requires WorldOk(w) && Allowed(w, step) && AllLed(w, n, m)
    ensures AllLed(After(w, step), n, m) <==> !Clobbers(w, step, n, m)
  {
    hide WorldOk, Allowed, EventsOf, HandleAll, EnvAfter, Aimed, LedAt, ClobbersAt;
    var w' := After(w, step);
    if x, y, q, p :| ClobbersAt(w, step, n, m, x, y, q, p) {
      ClobberAims(w, step, n, m, x, y, q, p);
      LedAfter(w, step, n, m, x, y, q, p);
    } else {
      forall x, y, q, p | x in w'.flows && Aimed(w'.env, n, m, x, y, q, p) ensures LedAt(w', n, m, x, q) {
        LedAfter(w, step, n, m, x, y, q, p);
      }
    }
  }

  lemma ClobberAims(w: World, step: Step, n: NetworkId, m: Mac, x: Dpid, y: Dpid, q: PortNo, p: PortNo)
    requires ClobbersAt(w, step, n, m, x, y, q, p)
    ensures Aimed(EnvAfter(w.env, step), n, m, x, y, q, p)
  {
    hide Aimed, EnvAfter, EventsOf;
  }

  /** Only a MAC on two ports is ever taken over. */
  lemma SoleHolderKeepsRows(w: World, step: Step, n: NetworkId, m: Mac)
    requires WorldOk(w) && Allowed(w, step) && |MacPorts(EnvAfter(w.env, step).nw.macs, n, m)| <= 1
    ensures !Clobbers(w, step, n, m)
  {
    hide WorldOk, Allowed, EventsOf, EnvAfter, Aimed, MacPorts, After;
    var env', evs := EnvAfter(w.env, step), EventsOf(w.env, step);
    StepKeepsFlows(w, step);
    forall x, y, q, p ensures !ClobbersAt(w, step, n, m, x, y, q, p) {
      if Aimed(env', n, m, x, y, q, p) {
        SoleCarrier(w, step, n, m, x, y, q, p);
        NoCarrierLeads(env', evs, n, x, y, m);
      }
    }
  }

  lemma SoleCarrier(w: World, step: Step, n: NetworkId, m: Mac, x: Dpid, y: Dpid, q: PortNo, p: PortNo)
    requires WorldOk(After(w, step)) && Aimed(EnvAfter(w.env, step), n, m, x, y, q, p)
    requires |MacPorts(EnvAfter(w.env, step).nw.macs, n, m)| <= 1
    ensures forall r | Carrier(EnvAfter(w.env, step), n, r, m) :: r == y
  {
    hide FlowsOk, EventsOf, EnvAfter, HandleAll, MacPorts, Live, Trunks;
    var env' := EnvAfter(w.env, step);
    forall r | Carrier(env', n, r, m) ensures r == y {
      var o :| o in PortsOf(env'.nw, r) && PortsOf(env'.nw, r)[o] == Port(n, Some(m));
      PortsOfAt(env', PortId(r, o));
      assert MacAgrees(env'.nw, n, m, PortId(r, o)) && MacAgrees(env'.nw, n, m, PortId(y, p));
      if r != y { SubsetSmaller({PortId(r, o), PortId(y, p)}, MacPorts(env'.nw.macs, n, m)); }
    }
  }

  lemma {:induction false} NoCarrierLeads(env: Env, evs: seq<GreEvent>, n: NetworkId, x: Dpid, y: Dpid, m: Mac)
    requires forall r | Carrier(env, n, r, m) :: r == y
    ensures LeadsAll(env, evs, n, x, y, m, true)
    decreases |evs|
  {
    hide Carrier, UpTunnels;
    if evs != [] { NoCarrierLeads(env, evs[1..], n, x, y, m); }
  }

  // -------------------------------------------- no VM has the broadcast address

  /** Above the broadcast rows TUNNEL_OUT only has rows for MACs, and none of them
      is the broadcast address. */
  predicate PlainRow(fk: FlowKey) {
    fk.table == TUNNEL_OUT_TABLE && fk.priority > TUNNEL_OUT_PRI_BROADCAST ==>
      && fk.rule.tunId.Some? && fk.rule.dlDst.Some? && fk.rule.dlDst.value != BROADCAST
      && fk == TunnelMac(fk.rule.tunId.value, fk.rule.dlDst.value)
  }

  ghost predicate Plain(t: Table) {
    forall fk | fk in t :: PlainRow(fk)
  }

  ghost predicate PlainPorts(env: Env) {
    forall at :: PlainPort(env, at)
  }

  predicate PlainPort(env: Env, at: PortId) {
    PortAt(env.nw.dpids, at).Some? ==> PortAt(env.nw.dpids, at).value.mac != Some(BROADCAST)
  }

  ghost predicate AllPlain(w: World) {
    PlainPorts(w.env) && forall d | d in w.flows :: Plain(w.flows[d])
  }

  /** The call makes the broadcast address a VM's own. */
  predicate GivesBroadcast(step: Step) {
    step.StoreCall? && (step.call.op.CreateMac? || step.call.op.UpdateMac?) && step.call.op.m == BROADCAST
  }

  predicate PlainEvent(ev: GreEvent) { ev.VmPort? ==> ev.m != BROADCAST }

  lemma PortsOfPlain(env: Env, d: Dpid)
    requires PlainPorts(env)
    ensures forall p | p in PortsOf(env.nw, d) :: PortsOf(env.nw, d)[p].mac != Some(BROADCAST)
  {
    forall p | p in PortsOf(env.nw, d) ensures PortsOf(env.nw, d)[p].mac != Some(BROADCAST) {
      assert PlainPort(env, PortId(d, p));
      PortsOfAt(env, PortId(d, p));
    }
  }

  lemma RemoteMacsPlain(env: Env, n: NetworkId, k: Key, d: Dpid, rs: set<Dpid>)
    requires PlainPorts(env)
    ensures Plain(RemoteMacs(env, n, k, d, rs))
  {
    hide PlainPorts, UpTunnels, WaysTo;
    forall r ensures forall p | p in PortsOf(env.nw, r) :: PortsOf(env.nw, r)[p].mac != Some(BROADCAST) { PortsOfPlain(env, r); }
  }

  lemma TunnelRowsPlain(env: Env, d: Dpid, p: PortNo, nets: set<NetworkId>, remote: Dpid)
    requires PlainPorts(env) && nets <= env.tun.keys.Keys
    ensures Plain(TunnelPasses(env, p, nets)) && Plain(TunnelMacs(env, p, nets, remote)) && Plain(TunnelFloods(env, d, p, nets))
  {
    hide PlainPorts, FloodPorts;
    PortsOfPlain(env, remote);
  }

  lemma EventPlain(env: Env, flows: Flows, ev: GreEvent, d: Dpid)
    requires PlainPorts(env) && PlainEvent(ev) && d in flows && Plain(flows[d])
    ensures Plain(Handle(env, flows, ev)[d])
  {
    hide AddHere, AddThere, DelHere, DelThere, TunnelAddHere, PlainPorts, Plain, UpTunnels, GetDpids;
    var t := flows[d];
    match ev
    case VmPort(n, k, at, m, true) => AddPlain(env, t, d, n, k, at, m);
    case VmPort(n, k, at, m, false) => DelPlain(env, t, d, n, k, at, m);
    case TunnelPort(at, remote, add) => TunnelPlain(env, t, at, remote);
  }

  lemma AddPlain(env: Env, t: Table, x: Dpid, n: NetworkId, k: Key, at: PortId, m: Mac)
    requires PlainPorts(env) && m != BROADCAST && Plain(t)
    ensures Plain(AddHere(env, t, n, k, at, m)) && Plain(AddThere(env, t, x, n, k, at, m))
  {
    hide PlainPorts, Active, TunnelPorts, UpTunnels, RemoteMacs, WithMac, MacTunnels, GetDpids;
    RemoteMacsPlain(env, n, k, at.dpid, GetDpids(env.nw, n) - {at.dpid});
  }

  lemma DelPlain(env: Env, t: Table, x: Dpid, n: NetworkId, k: Key, at: PortId, m: Mac)
    requires m != BROADCAST && Plain(t)
    ensures Plain(DelHere(env, t, n, k, at, m)) && Plain(DelThere(env, t, x, n, k, at, m))
  {
    hide Active, TunnelPorts, UpTunnels, WithMac, MacTunnels, GetDpids;
  }

  lemma TunnelPlain(env: Env, t: Table, at: PortId, remote: Dpid)
    requires PlainPorts(env) && Plain(t)
    ensures Plain(TunnelAddHere(env, t, at, remote)) && Plain(DeleteStrict(t, SrcDrop(at.port)))
  {
    hide PlainPorts, TunnelPasses, TunnelMacs, TunnelFloods;
    TunnelRowsPlain(env, at.dpid, at.port, CommonNetworks(env, at.dpid, remote), remote);
  }

  lemma {:induction false} BatchPlain(env: Env, flows: Flows, evs: seq<GreEvent>, d: Dpid)
    requires PlainPorts(env) && d in flows && Plain(flows[d]) && forall ev | ev in evs :: PlainEvent(ev)
    ensures d in HandleAll(env, flows, evs) && Plain(HandleAll(env, flows, evs)[d])
    decreases |evs|
  {
    hide PlainPorts, Plain, PlainEvent, Handle;
    if evs != [] {
      HandledKeys(env, flows, evs[0]);
      assert PlainEvent(evs[0]);
      EventPlain(env, flows, evs[0], d);
      BatchPlain(env, Handle(env, flows, evs[0]), evs[1..], d);
    }
  }

  lemma StepPlain(w: World, step: Step)
    requires WorldOk(w) && Allowed(w, step) && AllPlain(w) && !GivesBroadcast(step)
    ensures AllPlain(After(w, step))
  {
    hide FlowsOk, HandleAll, EventsOf, Agree, Plain, PlainPorts, PlainEvent;
    var w', evs, flows := After(w, step), EventsOf(w.env, step), FlowsBefore(w, step);
    PortsStayPlain(w, step);
    EventsPlain(w, step);
    HandleAllKeys(w'.env, flows, evs);
    forall d | d in w'.flows ensures Plain(w'.flows[d]) {
      assert Plain(flows[d]) by { EmptyPlain(); }
      BatchPlain(w'.env, flows, evs, d);
    }
  }

  lemma EmptyPlain()
    ensures Plain(map[])
  {
  }

  lemma PortsStayPlain(w: World, step: Step)
    requires WorldOk(w) && Allowed(w, step) && PlainPorts(w.env) && !GivesBroadcast(step)
    ensures PlainPorts(EnvAfter(w.env, step))
  {
    hide FlowsOk, Apply, Agree;
    forall at ensures PlainPort(EnvAfter(w.env, step), at) {
      assert PlainPort(w.env, at);
      if step.StoreCall? { HowPortsChange(w.env.nw, step.call.op, step.call.order, at); }
    }
  }

  lemma FirstOrTunnel(evs: seq<GreEvent>, first: GreEvent, ev: GreEvent)
    requires evs != [] && evs[0] == first && ev in evs && forall other | other in evs[1..] :: other.TunnelPort?
    ensures ev == first || ev.TunnelPort?
  {
    if ev != first { assert ev in evs[1..]; }
  }

  lemma EventsPlain(w: World, step: Step)
    requires WorldOk(w) && Allowed(w, step) && PlainPorts(w.env) && PlainPorts(EnvAfter(w.env, step))
    ensures forall ev | ev in EventsOf(w.env, step) :: PlainEvent(ev)
  {
    hide FlowsOk, HandleAll, EventsOf, Allowed, Agree, EnvAfter;
    StepKeepsFlows(w, step);
    var evs := EventsOf(w.env, step);
    forall ev | ev in evs ensures PlainEvent(ev) {
      if IsVmDel(ev) {
        var del := WithdrawalShape(w, step);
        FirstOrTunnel(evs, del, ev);
        assert PlainPort(w.env, ev.at);
      } else if ev.VmPort? {
        assert PlainPort(EnvAfter(w.env, step), ev.at);
      }
    }
  }

  // ------------------------------------------------------ packets that cross

  /** A state as runs that crowd no switch lead to: LOCAL_OUT is compiled, every
      live port carried, every joined switch flooded. */
  ghost predicate Complete(w: World) {
    WorldOk(w) && FromScratch(w) && AllCarried(w) && AllFlooded(w) && AllPlain(w)
  }

  lemma BroadcastHit(v: View, d: Dpid, t: Table, k: Key, p: PortNo, f: Frame, q: PortNo)
    requires TableOk(v, d, t) && Plain(t) && TunnelBroadcast(k) in t && q in FloodOf(t, k)
    requires f.dst == BROADCAST && f.tun == k
    ensures Emits(t, TUNNEL_OUT_TABLE, p, f, q, f, 1)
  {
    hide Emits;
    var fk := TunnelBroadcast(k);
    assert RowOk(v, d, fk, t[fk]);
    forall other | other in t && other.table == TUNNEL_OUT_TABLE && Matches(other.rule, p, f) ensures other.priority <= fk.priority {
      assert PlainRow(other);
    }
    assert Via(t, t[fk], p, f, q, f, 1);
    TakesHit(t, TUNNEL_OUT_TABLE, p, f, q, f, 1, fk);
  }

  lemma UnicastHit(v: View, d: Dpid, t: Table, k: Key, p: PortNo, f: Frame, q: PortNo)
    requires TableOk(v, d, t) && Low(t) && q in MacOut(t, k, f.dst) && f.tun == k
    ensures Emits(t, TUNNEL_OUT_TABLE, p, f, q, f, 1)
  {
    hide Emits;
    var fk := TunnelMac(k, f.dst);
    assert RowOk(v, d, fk, t[fk]);
    assert Hits(t, TUNNEL_OUT_TABLE, p, f, fk);
    assert Via(t, t[fk], p, f, q, f, 1);
    TakesHit(t, TUNNEL_OUT_TABLE, p, f, q, f, 1, fk);
  }

  /** What comes in on an open way goes on to LOCAL_OUT. */
  lemma ArrivalHit(t: Table, k: Key, e: PortNo, f: Frame, p: PortNo)
    requires Low(t) && PassOpen(t, k, e) && f.tun == k && Emits(t, LOCAL_OUT_TABLE, e, f, p, f, 0)
    ensures Emits(t, SRC_TABLE, e, f, p, f, 1)
  {
    hide Emits;
    var fk := SrcPass(e, k);
    assert Hits(t, SRC_TABLE, e, f, fk);
    assert Via(t, t[fk], e, f, p, f, 1);
    TakesHit(t, SRC_TABLE, e, f, p, f, 1, fk);
  }

  /** LOCAL_OUT floods broadcasts to every live port. */
  lemma LocalFlood(env: Env, v: View, n: NetworkId, d: Dpid, t: Table, e: PortNo, f: Frame, p: PortNo)
    requires LocalFromScratch(env, d, t) && TableOk(v, d, t) && PlainPorts(env) && p in Live(env, n, d)
    requires f.dst == BROADCAST && f.tun == env.tun.keys[n]
    ensures Emits(t, LOCAL_OUT_TABLE, e, f, p, f, 0)
  {
    hide Emits, KeyRows, PlainPorts, Compiled, RowOk;
    var k := env.tun.keys[n];
    LiveConnected(env, n, d);
    StateIsCompiled(env, v, n, d, t);
    assert Lookup(t, LocalBroadcast(k)) == Some(Output(Live(env, n, d)));
    var fk := LocalBroadcast(k);
    forall other | other in t && other.table == LOCAL_OUT_TABLE && Matches(other.rule, e, f) ensures other.priority <= fk.priority {
      NoMacForBroadcast(env, v, n, d, t, e, f, other);
    }
    assert Via(t, t[fk], e, f, p, f, 0);
    TakesHit(t, LOCAL_OUT_TABLE, e, f, p, f, 0, fk);
  }

  lemma NoMacForBroadcast(env: Env, v: View, n: NetworkId, d: Dpid, t: Table, e: PortNo, f: Frame, fk: FlowKey)
    requires LocalFromScratch(env, d, t) && TableOk(v, d, t) && PlainPorts(env) && Live(env, n, d) != {}
    requires f.dst == BROADCAST && f.tun == env.tun.keys[n]
    requires fk in t && fk.table == LOCAL_OUT_TABLE && Matches(fk.rule, e, f)
    ensures fk.priority <= LOCAL_OUT_PRI_BROADCAST
  {
    hide PlainPorts, Live, Unicast;
    LiveConnected(env, n, d);
    assert RowOk(v, d, fk, t[fk]);
    NoUnicastForBroadcast(env, n, d, f.tun);
    assert fk in KeyRows(t, f.tun) && fk in Compiled(env, n, d);
  }

  lemma NoUnicastForBroadcast(env: Env, n: NetworkId, d: Dpid, k: Key)
    requires PlainPorts(env)
    ensures LocalMac(k, BROADCAST) !in Unicast(env, n, d, k)
  {
    hide PlainPorts, WithMac;
    PortsOfPlain(env, d);
  }

  /** One tunnel between two switches, a port at either end. */
  predicate Tunnel(env: Env, x: Dpid, q: PortNo, y: Dpid, e: PortNo) {
    q in Trunks(env, x, y) && e in Trunks(env, y, x)
  }

  /** The packet goes out on one end of a tunnel, and what went out comes in on
      the other end and leaves there. */
  ghost predicate Crosses(w: World, at: PortId, f: Frame, q: PortNo, e: PortNo, out: PortId) {
    && at.dpid in w.flows && out.dpid in w.flows && Tunnel(w.env, at.dpid, q, out.dpid, e)
    && exists g, i, j :: Emits(w.flows[at.dpid], SRC_TABLE, at.port, f, q, g, i)
                         && Emits(w.flows[out.dpid], SRC_TABLE, e, g, out.port, g, j)
  }

  lemma CrossingReaches(w: World, at: PortId, f: Frame, q: PortNo, e: PortNo, out: PortId)
    requires EnvOk(w) && Crosses(w, at, f, q, e, out)
    ensures Reaches(w, at, f, out, 1)
  {
    hide Agree, Emits;
    TrunkIs(w.env, at.dpid, out.dpid, q);
    TrunkIs(w.env, out.dpid, at.dpid, e);
    var g, i, j :| Emits(w.flows[at.dpid], SRC_TABLE, at.port, f, q, g, i) && Emits(w.flows[out.dpid], SRC_TABLE, e, g, out.port, g, j);
    assert Reaches(w, PortId(out.dpid, e), g, out, 0);
    assert PortId(at.dpid, q) in w.ever && PortId(out.dpid, e) in w.ever;
  }

  lemma OpenWay(w: World, n: NetworkId, x: Dpid, y: Dpid, q: PortNo)
    requires Complete(w) && Joined(w.env, n, x, y, q)
    ensures n in w.env.tun.keys && OwnedBy(w.env.tun.keys, n, w.env.tun.keys[n])
    ensures x in w.flows && WayOpen(w.flows[x], w.env.tun.keys[n], q)
    ensures TableOk(ViewOf(w), x, w.flows[x]) && Low(w.flows[x]) && Plain(w.flows[x]) && LocalFromScratch(w.env, x, w.flows[x])
    ensures Carried(w.env, n, x, w.env.tun.keys[n], w.flows[x])
  {
    hide Agree, Live, Trunks, WayOpen, TableOk, Low, Plain, LocalFromScratch, Carried;
    LiveConnected(w.env, n, x);
    assert FloodedAt(w, n, x, q);
    assert Carries(w.env, x, w.flows[x]);
  }

  /** A live port's broadcast comes out on every live port of its tenant on a
      switch at the other end of a tunnel. */
  lemma BroadcastCrosses(w: World, n: NetworkId, x: Dpid, p: PortNo, m: Mac, y: Dpid, p': PortNo, q: PortNo, e: PortNo)
    requires Complete(w) && x != y && Tunnel(w.env, x, q, y, e)
    requires p in Live(w.env, n, x) && Holds(w.env, x, p, n, m) && p' in Live(w.env, n, y)
    ensures Crosses(w, PortId(x, p), Frame(m, BROADCAST, 0), q, e, PortId(y, p'))
  {
    hide WorldOk, FromScratch, AllCarried, AllFlooded, Plain, Live, Trunks, TableOk, Low, LocalFromScratch, Emits, Holds;
    OpenWay(w, n, x, y, q);
    OpenWay(w, n, y, x, e);
    var k, v := w.env.tun.keys[n], ViewOf(w);
    var f := Frame(m, BROADCAST, k);
    BroadcastHit(v, x, w.flows[x], k, p, f, q);
    SourceHit(w.flows[x], p, Frame(m, BROADCAST, 0), k, q);
    LocalFlood(w.env, v, n, y, w.flows[y], e, f, p');
    ArrivalHit(w.flows[y], k, e, f, p');
  }

  /** A live port's packet to a MAC that is live at the other end of a tunnel, and
      whose row leads there, comes out on that port. */
  lemma UnicastCrosses(w: World, n: NetworkId, x: Dpid, p: PortNo, m: Mac, y: Dpid, p': PortNo, m': Mac, q: PortNo, e: PortNo)
    requires Complete(w) && AllLed(w, n, m') && x != y && Tunnel(w.env, x, q, y, e)
    requires p in Live(w.env, n, x) && Holds(w.env, x, p, n, m) && p' in Live(w.env, n, y) && Holds(w.env, y, p', n, m')
    ensures Crosses(w, PortId(x, p), Frame(m, m', 0), q, e, PortId(y, p'))
  {
    hide WorldOk, FromScratch, AllCarried, AllFlooded, AllPlain, Plain, Live, Trunks, TableOk, Low, LocalFromScratch, Emits, Holds, MacOut;
    OpenWay(w, n, x, y, q);
    OpenWay(w, n, y, x, e);
    var k, v := w.env.tun.keys[n], ViewOf(w);
    var f := Frame(m, m', k);
    assert Aimed(w.env, n, m', x, y, q, p');
    assert LedAt(w, n, m', x, q);
    UnicastHit(v, x, w.flows[x], k, p, f, q);
    SourceHit(w.flows[x], p, Frame(m, m', 0), k, q);
    LocalHit(w.env, v, n, y, p', m', w.flows[y], e, f);
    ArrivalHit(w.flows[y], k, e, f, p');
  }

  /** With a row for the MAC, a packet to it leaves the switch on that row's
      tunnel ports and no others. */
  lemma LeavesOnlyThere(w: World, d: Dpid, p: PortNo, f: Frame, k: Key, q: PortNo, g: Frame, i: nat)
    requires WorldOk(w) && AllPlain(w) && d in w.flows && HoldsKey(ViewOf(w), d, p, k)
    requires TunnelMac(k, f.dst) in w.flows[d] && PortId(d, q) in w.ever
    requires Emits(w.flows[d], SRC_TABLE, p, f, q, g, i)
    ensures q in MacOut(w.flows[d], k, f.dst)
  {
    hide EnvOk, HoldsKey, PlainPorts;
    ThroughTunnelOut(w, d, p, f, k, q, g, i);
    var t, v, f' := w.flows[d], ViewOf(w), f.(tun := k);
    var fk :| Hits(t, TUNNEL_OUT_TABLE, p, f', fk) && Via(t, t[fk], p, f', q, g, i - 1);
    assert Matches(TunnelMac(k, f.dst).rule, p, f') && PlainRow(fk) && RowOk(v, d, fk, t[fk]);
    assert fk == TunnelMac(k, f.dst);
    if q !in t[fk].outputs {
      LocalEmits(v, d, t, p, f', q, g, i - 2);
      NoVmThere(w, d, q, k);
    }
  }

  lemma NoVmThere(w: World, d: Dpid, q: PortNo, k: Key)
    requires EnvOk(w) && HoldsKey(ViewOf(w), d, q, k)
    ensures PortId(d, q) !in w.ever
  {
    assert NetworkOf(w.env.nw.dpids, PortId(d, q)).Tenant?;
  }

  /** A live port's broadcast also comes out on the tenant's other live ports on
      its own switch. */
  lemma BroadcastStaysToo(w: World, n: NetworkId, d: Dpid, p: PortNo, m: Mac, p': PortNo)
    requires Complete(w) && p in Live(w.env, n, d) && Holds(w.env, d, p, n, m) && p' in Live(w.env, n, d)
    ensures Reaches(w, PortId(d, p), Frame(m, BROADCAST, 0), PortId(d, p'), 0)
  {
    hide Agree, Live, Plain, TableOk, Low, LocalFromScratch, Emits, Holds, PlainPorts, AllFlooded;
    LiveConnected(w.env, n, d);
    var t, k, v := w.flows[d], w.env.tun.keys[n], ViewOf(w);
    assert OwnedBy(w.env.tun.keys, n, k);
    assert LocalFromScratch(w.env, d, t) && Carries(w.env, d, t) && Carried(w.env, n, d, k, t) && TableOk(v, d, t);
    LocalFlood(w.env, v, n, d, t, p, Frame(m, BROADCAST, k), p');
    PassedOn(v, d, t, p, Frame(m, BROADCAST, k), p');
    SourceHit(t, p, Frame(m, BROADCAST, 0), k, p');
  }

  // ------------------------------------------------------------------- runs

  ghost predicate NeverGivesBroadcast(steps: seq<Step>) {
    forall step | step in steps :: !GivesBroadcast(step)
  }

  lemma {:induction false} RunPlain(w: World, steps: seq<Step>)
    requires WorldOk(w) && AllPlain(w) && AllAllowed(w, steps) && NeverGivesBroadcast(steps)
    ensures AllPlain(RunAll(w, steps))
    decreases |steps|
  {
    hide WorldOk, AllPlain, Allowed, After, GivesBroadcast;
    if steps != [] {
      assert steps[0] in steps;
      StepKeepsFlows(w, steps[0]);
      StepPlain(w, steps[0]);
      RunPlain(After(w, steps[0]), steps[1..]);
    }
  }

  lemma StartComplete()
    ensures Complete(START) && forall n, m :: AllLed(START, n, m)
  {
    StartOk();
  }

  lemma StepComplete(w: World, step: Step)
    requires Complete(w) && Allowed(w, step) && !Crowds(w, step) && !GivesBroadcast(step)
    ensures Complete(After(w, step))
  {
    hide WorldOk, Allowed, Crowds, After, AllCarried, AllFlooded, AllPlain, FromScratch, GivesBroadcast;
    StepKeepsFlows(w, step);
    FromScratchExactly(w, step);
    CrossedExactly(w, step);
    StepPlain(w, step);
  }

  lemma {:induction false} RunComplete(w: World, steps: seq<Step>)
    requires Complete(w) && AllAllowed(w, steps) && NeverCrowds(w, steps) && NeverGivesBroadcast(steps)
    ensures Complete(RunAll(w, steps))
    decreases |steps|
  {
    hide Complete, Allowed, Crowds, After, GivesBroadcast;
    if steps != [] {
      assert steps[0] in steps;
      StepComplete(w, steps[0]);
      RunComplete(After(w, steps[0]), steps[1..]);
    }
  }

  ghost predicate NeverClobbers(w: World, steps: seq<Step>, n: NetworkId, m: Mac)
    decreases |steps|
  {
    steps == [] || (!Clobbers(w, steps[0], n, m) && NeverClobbers(After(w, steps[0]), steps[1..], n, m))
  }

  lemma {:induction false} RunLed(w: World, steps: seq<Step>, n: NetworkId, m: Mac)
    requires WorldOk(w) && AllLed(w, n, m) && AllAllowed(w, steps) && NeverClobbers(w, steps, n, m)
    ensures AllLed(RunAll(w, steps), n, m)
    decreases |steps|
  {
    hide WorldOk, AllLed, Allowed, Clobbers, After;
    if steps != [] {
      StepKeepsFlows(w, steps[0]);
      LedExactly(w, steps[0], n, m);
      RunLed(After(w, steps[0]), steps[1..], n, m);
    }
  }

  /** No state of the run has the MAC on two ports. */
  predicate NeverShared(w: World, steps: seq<Step>, n: NetworkId, m: Mac)
    decreases |steps|
  {
    |MacPorts(w.env.nw.macs, n, m)| <= 1 && (steps == [] || NeverShared(After(w, steps[0]), steps[1..], n, m))
  }

  lemma {:induction false} SharedByNone(w: World, steps: seq<Step>, n: NetworkId, m: Mac)
    requires WorldOk(w) && AllAllowed(w, steps) && NeverShared(w, steps, n, m)
    ensures NeverClobbers(w, steps, n, m)
    decreases |steps|
  {
    hide WorldOk, Allowed, Clobbers, After, MacPorts;
    if steps != [] {
      StepKeepsFlows(w, steps[0]);
      assert NeverShared(After(w, steps[0]), steps[1..], n, m);
      AfterEnv(w, steps[0]);
      SoleHolderKeepsRows(w, steps[0], n, m);
      SharedByNone(After(w, steps[0]), steps[1..], n, m);
    }
  }

  lemma AfterEnv(w: World, step: Step)
    ensures After(w, step).env == EnvAfter(w.env, step)
  {
    hide EnvAfter, HandleAll, EventsOf;
  }

  /** From the empty system, over every run that crowds no switch and gives no VM
      the broadcast address: broadcasts cross every tunnel between two switches
      with live ports of a tenant, and come out on each of them. */
  lemma BroadcastsOverRuns(steps: seq<Step>, n: NetworkId, x: Dpid, p: PortNo, m: Mac, y: Dpid, p': PortNo, q: PortNo, e: PortNo)
    requires AllAllowed(START, steps) && NeverCrowds(START, steps) && NeverGivesBroadcast(steps)
    requires var env := RunAll(START, steps).env;
             && x != y && Tunnel(env, x, q, y, e) && p in Live(env, n, x) && Holds(env, x, p, n, m) && p' in Live(env, n, y)
    ensures Crosses(RunAll(START, steps), PortId(x, p), Frame(m, BROADCAST, 0), q, e, PortId(y, p'))
    ensures Reaches(RunAll(START, steps), PortId(x, p), Frame(m, BROADCAST, 0), PortId(y, p'), 1)
  {
    hide AllAllowed, NeverCrowds, NeverGivesBroadcast, RunAll, Live, Holds, Reaches, Crosses, Tunnel, FromScratch, AllCarried, AllFlooded, AllPlain, FlowsOk, EnvOk;
    StartComplete();
    RunComplete(START, steps);
    BroadcastCrosses(RunAll(START, steps), n, x, p, m, y, p', q, e);
    CrossingReaches(RunAll(START, steps), PortId(x, p), Frame(m, BROADCAST, 0), q, e, PortId(y, p'));
  }

  /** Likewise unicast to a MAC that never sat on two ports. */
  lemma UnicastOverRuns(steps: seq<Step>, n: NetworkId, x: Dpid, p: PortNo, m: Mac, y: Dpid, p': PortNo, m': Mac, q: PortNo, e: PortNo)
    requires AllAllowed(START, steps) && NeverCrowds(START, steps) && NeverGivesBroadcast(steps) && NeverShared(START, steps, n, m')
    requires var env := RunAll(START, steps).env;
             && x != y && Tunnel(env, x, q, y, e) && p in Live(env, n, x) && Holds(env, x, p, n, m)
             && p' in Live(env, n, y) && Holds(env, y, p', n, m')
    ensures Crosses(RunAll(START, steps), PortId(x, p), Frame(m, m', 0), q, e, PortId(y, p'))
    ensures Reaches(RunAll(START, steps), PortId(x, p), Frame(m, m', 0), PortId(y, p'), 1)
  {
    hide AllAllowed, NeverCrowds, NeverGivesBroadcast, NeverShared, RunAll, Live, Holds, Reaches, Crosses, Tunnel, FromScratch, AllCarried, AllFlooded, AllPlain, FlowsOk, EnvOk, AllLed;
    StartComplete();
    RunComplete(START, steps);
    SharedByNone(START, steps, n, m');
    RunLed(START, steps, n, m');
    UnicastCrosses(RunAll(START, steps), n, x, p, m, y, p', m', q, e);
    CrossingReaches(RunAll(START, steps), PortId(x, p), Frame(m, m', 0), q, e, PortId(y, p'));
  }
}
