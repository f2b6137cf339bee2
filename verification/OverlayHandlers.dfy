/** The handlers of app/gre_tunnel.py as they run: loops over ports and switches
    that send one flow modification after another. */
module OverlayHandlers {
  import opened Wrappers
  import opened TenantStore
  import opened TunnelStore
  import opened Overlay
  import opened OverlaySystem
  import opened OverlayIsolation
  import opened OverlayCompiled

  // --------------------------------------------- what the handlers assert

  function PortsWithMac(env: Env, n: NetworkId, d: Dpid, m: Mac): set<PortNo> {
    set p | p in PortsOf(env.nw, d) && PortsOf(env.nw, d)[p] == Port(n, Some(m))
  }

  /** The handlers' own assertions, and the lookups they do not guard. */
  predicate Asserted(env: Env, ev: GreEvent) {
    ev.at.dpid in env.connected &&
    match ev
    case VmPort(n, _, at, m, true) =>
      && at.port in WithMac(env, n, at.dpid, m)
      && at.dpid in GetDpids(env.nw, n)
      && |MacPorts(env.nw.macs, n, m) - {at}| <= 1
    case VmPort(n, _, at, m, false) =>
      && (WithMac(env, n, at.dpid, m) - {at.port} != {} ==> |PortsWithMac(env, n, at.dpid, m)| == 1)
      && |MacPorts(env.nw.macs, n, m) - {at}| <= 1
    case TunnelPort(at, remote, true) =>
      forall n | n in CommonNetworks(env, at.dpid, remote) :: at.dpid in GetDpids(env.nw, n)
    case TunnelPort(_, _, false) => true
  }

  /** In every allowed step the handlers' assertions hold. */
  lemma AssertionsHold(w: World, step: Step, ev: GreEvent)
    requires WorldOk(w) && Allowed(w, step) && ev in EventsOf(w.env, step)
    ensures Asserted(After(w, step).env, ev) && OnePortEach(After(w, step).env.tun)
  {
    hide FlowsOk, HandleAll, Allowed, EnvAfter, EventsOf, Agree;
    StepKeepsFlows(w, step);
    EventsConnected(w.env, step, ev);
    if IsVmDel(ev) {
      var del := WithdrawalShape(w, step);
      OnlyVmEvent(EventsOf(w.env, step), ev);
      WithdrawalAsserted(w, step, ev);
    } else if ev.VmPort? {
      AdditionAsserted(After(w, step), ev);
    } else {
      TunnelAsserted(After(w, step), ev);
    }
  }

  lemma OnlyVmEvent(evs: seq<GreEvent>, ev: GreEvent)
    requires ev in evs && ev.VmPort? && forall other | other in evs[1..] :: other.TunnelPort?
    ensures ev == evs[0]
  {
    assert evs == [evs[0]] + evs[1..];
  }

  lemma AdditionAsserted(w: World, ev: GreEvent)
    requires EnvOk(w) && Fits(w.env, w.ever, ev) && ev.VmPort? && ev.add && ev.at.dpid in w.env.connected
    ensures Asserted(w.env, ev)
  {
    hide MacPorts, RareMac, RowOk, PortAt;
    PortsOfAt(w.env, ev.at);
    assert MemberAgrees(w.env.nw, ev.n, ev.at);
    assert ev.at in w.env.nw.networks[ev.n];
    assert MacAgrees(w.env.nw, ev.n, ev.m, ev.at);
    assert RareMac(w.env.nw.macs, ev.n, ev.at, ev.m);
    RareHolders(w.env.nw.macs, ev.n, ev.at, ev.m);
  }

  lemma TunnelAsserted(w: World, ev: GreEvent)
    requires EnvOk(w) && ev.TunnelPort? && ev.at.dpid in w.env.connected
    ensures Asserted(w.env, ev)
  {
    var env, d := w.env, ev.at.dpid;
    forall n | n in CommonNetworks(env, d, ev.remote) ensures d in GetDpids(env.nw, n) {
      var p :| p in PortsOf(env.nw, d) && PortsOf(env.nw, d)[p].network == n;
      PortsOfAt(env, PortId(d, p));
      assert MemberAgrees(env.nw, n, PortId(d, p));
    }
  }

  lemma WithdrawalAsserted(w: World, step: Step, ev: GreEvent)
    requires EnvOk(w) && EnvOk(After(w, step)) && Withdraws(w, step, ev) && ev.at.dpid in After(w, step).env.connected
    ensures Asserted(After(w, step).env, ev)
  {
    hide EventsOf, EnvAfter, HandleAll, MacPorts;
    var env', n, d, m := After(w, step).env, ev.n, ev.at.dpid, ev.m;
    assert MacAgrees(w.env.nw, n, m, ev.at);
    RareHolders(w.env.nw.macs, n, ev.at, m);
    var was, now := MacPorts(w.env.nw.macs, n, m) - {ev.at}, MacPorts(env'.nw.macs, n, m) - {ev.at};
    forall x | x in now ensures x in was {
      assert MacAgrees(env'.nw, n, m, x) && MacAgrees(w.env.nw, n, m, x);
    }
    SubsetSmaller(now, was);
    forall p | p in PortsWithMac(env', n, d, m) ensures p == ev.at.port {
      var x := PortId(d, p);
      PortsOfAt(env', x);
      assert MacAgrees(env'.nw, n, m, x) && MacAgrees(w.env.nw, n, m, x);
    }
    assert WithMac(env', n, d, m) <= PortsWithMac(env', n, d, m);
  }

  /** PortSet passes events on for connected switches only. */
  lemma EventsConnected(env: Env, step: Step, ev: GreEvent)
    requires ev in EventsOf(env, step)
    ensures ev.at.dpid in EnvAfter(env, step).connected
  {
    hide Apply, PortEvent;
    var env' := EnvAfter(env, step);
    match step
    case StoreCall(call) => StoreEventsConnected(env', Apply(env.nw, call.op, call.order).events, ev);
    case SetKey(n, _, _, order) => PortEventsConnected(env', order, n, ev);
    case SwitchEnter(_, _, order) => PortEventsConnected(env', order, Unknown, ev);
    case SetTunnel(at, _, _) => PortEventConnected(env', at, ev);
    case DropTunnel(at) => PortEventConnected(env', at, ev);
    case PortUp(at) => PortEventConnected(env', at, ev);
    case PortDown(at) => PortEventConnected(env', at, ev);
  }

  lemma {:induction false} StoreEventsConnected(env: Env, evs: seq<Event>, ev: GreEvent)
    requires ev in StoreEvents(env, evs)
    ensures ev.at.dpid in env.connected
  {
    StoreEventsComeFrom(env, evs, ev);
  }

  lemma PortEventConnected(env: Env, at: PortId, ev: GreEvent)
    requires ev in PortEvent(env, at, true) || ev in PortEvent(env, at, false)
    ensures ev.at.dpid in env.connected
  {
  }

  lemma {:induction false} PortEventsConnected(env: Env, ports: seq<PortId>, n: NetworkId, ev: GreEvent)
    requires ev in PortEvents(env, ports) || ev in NetworkPortEvents(env, ports, n)
    ensures ev.at.dpid in env.connected
    decreases |ports|
  {
    if ev in PortEvents(env, ports[1..]) || ev in NetworkPortEvents(env, ports[1..], n) {
      PortEventsConnected(env, ports[1..], n, ev);
    } else {
      assert ev in PortEvent(env, ports[0], true) || ev in NetworkPortEvent(env, ports[0], n, true);
    }
  }

  // ------------------------------------------------------------- the loops

  /** _port_is_active over the ports of a switch. */
  method ActivePorts(env: Env, n: NetworkId, d: Dpid) returns (active: set<PortNo>)
    ensures active == Active(env, n, d)
  {
    var ports := PortsOf(env.nw, d);
    var todo := ports.Keys;
    active := {};
    while todo != {}
      invariant todo <= ports.Keys && active == Active(env, n, d) - todo
      decreases todo
    {
      var p :| p in todo;
      todo := todo - {p};
      if ports[p].network == n && ports[p].mac.Some? && PortId(d, p) in env.up { active := active + {p}; }
    }
  }

  /** tunnels.get_port, and whether that port's link is up. */
  method TunnelTo(env: Env, d: Dpid, r: Dpid) returns (way: Option<PortNo>)
    requires OnePortEach(env.tun) && d in env.connected
    ensures UpTunnels(env, d, r) == if way.Some? then {way.value} else {}
  {
    if r !in env.connected { return None; }
    var found := PortsTo(env.tun, d, r);
    if found == {} { return None; }
    var p :| p in found;
    AtMostOnePort(env.tun, d, r, p);
    way := if PortId(d, p) in env.up then Some(p) else None;
  }

  /** _list_tunnel_port. */
  method ListTunnelPorts(env: Env, d: Dpid, remotes: set<Dpid>) returns (ports: set<PortNo>)
    requires OnePortEach(env.tun) && d in env.connected
    ensures ports == TunnelPorts(env, d, remotes)
  {
    var todo := remotes;
    ports := {};
    while todo != {}
      invariant todo <= remotes && ports == TunnelPorts(env, d, remotes - todo)
      decreases todo
    {
      var r :| r in todo;
      OneMoreTunnel(env, d, remotes - todo, r);
      assert remotes - (todo - {r}) == remotes - todo + {r};
      todo := todo - {r};
      if r != d {
        var way := TunnelTo(env, d, r);
        if way.Some? { ports := ports + {way.value}; }
      }
    }
    assert remotes - {} == remotes;
  }

  lemma OneMoreTunnel(env: Env, d: Dpid, rs: set<Dpid>, r: Dpid)
    ensures TunnelPorts(env, d, rs + {r}) == TunnelPorts(env, d, rs) + (if r != d then UpTunnels(env, d, r) else {})
  {
  }

  /** _tunnel_port_with_mac; it asserts that at most one port is found. */
  method TunnelPortsWithMac(env: Env, d: Dpid, n: NetworkId, at: PortId, m: Mac) returns (ports: set<PortNo>)
    requires OnePortEach(env.tun) && |MacPorts(env.nw.macs, n, m) - {at}| <= 1
    ensures ports == MacTunnels(env, d, n, at, m) && |ports| <= 1
  {
    var holders := MacPorts(env.nw.macs, n, m) - {at};
    ports := {};
    if holders != {} {
      var q :| q in holders;
      assert holders == {q} by { SubsetSmaller({q}, holders); OnlyElement(holders, q); }
      var found := PortsTo(env.tun, d, q.dpid);
      if found != {} {
        var p :| p in found;
        AtMostOnePort(env.tun, d, q.dpid, p);
        if PortId(d, p) in env.up { ports := {p}; }
      }
    }
  }

  lemma OnlyElement<T>(s: set<T>, x: T)
    requires x in s && |s| <= 1
    ensures s == {x}
  {
    if y :| y in s && y != x { SubsetSmaller({x, y}, s); }
  }

  /** The tables once an addition has been handled on some of the other switches. */
  ghost function AddedThere(env: Env, was: Flows, done: set<Dpid>, n: NetworkId, k: Key, at: PortId, m: Mac): Flows {
    map x | x in was ::
      if x in done && UpTunnels(env, x, at.dpid) != {} then AddThere(env, was[x], x, n, k, at, m) else was[x]
  }

  lemma AddedThereNone(env: Env, was: Flows, n: NetworkId, k: Key, at: PortId, m: Mac)
    ensures AddedThere(env, was, {}, n, k, at, m) == was
  {
    hide AddThere, UpTunnels;
  }

  lemma AddedThereDone(env: Env, was: Flows, done: set<Dpid>, n: NetworkId, k: Key, at: PortId, m: Mac)
    ensures AddedThere(env, was, done, n, k, at, m) == map x | x in was ::
              if x in done && UpTunnels(env, x, at.dpid) != {} then AddThere(env, was[x], x, n, k, at, m) else was[x]
  {
  }

  lemma AddedThereOneMore(env: Env, was: Flows, done: set<Dpid>, x: Dpid, n: NetworkId, k: Key, at: PortId, m: Mac)
    requires x !in done && was.Keys == env.connected
    ensures var flows := AddedThere(env, was, done, n, k, at, m);
            && flows.Keys == was.Keys
            && (x in was ==> flows[x] == was[x])
            && AddedThere(env, was, done + {x}, n, k, at, m) ==
                 if x in was && UpTunnels(env, x, at.dpid) != {} then flows[x := AddThere(env, was[x], x, n, k, at, m)] else flows
  {
    hide AddThere, UpTunnels;
  }

  /** The tables once a deletion has been handled on some of the other switches. */
  ghost function DeletedThere(env: Env, was: Flows, done: set<Dpid>, n: NetworkId, k: Key, at: PortId, m: Mac): Flows {
    map x | x in was ::
      if x in done && UpTunnels(env, x, at.dpid) != {} then DelThere(env, was[x], x, n, k, at, m) else was[x]
  }

  lemma DeletedThereNone(env: Env, was: Flows, n: NetworkId, k: Key, at: PortId, m: Mac)
    ensures DeletedThere(env, was, {}, n, k, at, m) == was
  {
    hide DelThere, UpTunnels;
  }

  lemma DeletedThereDone(env: Env, was: Flows, done: set<Dpid>, n: NetworkId, k: Key, at: PortId, m: Mac)
    ensures DeletedThere(env, was, done, n, k, at, m) == map x | x in was ::
              if x in done && UpTunnels(env, x, at.dpid) != {} then DelThere(env, was[x], x, n, k, at, m) else was[x]
  {
  }

  lemma DeletedThereOneMore(env: Env, was: Flows, done: set<Dpid>, x: Dpid, n: NetworkId, k: Key, at: PortId, m: Mac)
    requires x !in done && was.Keys == env.connected
    ensures var flows := DeletedThere(env, was, done, n, k, at, m);
            && flows.Keys == was.Keys
            && (x in was ==> flows[x] == was[x])
            && DeletedThere(env, was, done + {x}, n, k, at, m) ==
                 if x in was && UpTunnels(env, x, at.dpid) != {} then flows[x := DelThere(env, was[x], x, n, k, at, m)] else flows
  {
    hide DelThere, UpTunnels;
  }

  /** TUNNEL_OUT's rows of low priority, for a first instance. */
  function WithCatchAll(env: Env, t: Table, k: Key, d: Dpid, remotes: set<Dpid>, first: bool): Table {
    if first
    then t[TunnelPass(k) := OutputThenLocal({})][TunnelBroadcast(k) := OutputThenLocal(TunnelPorts(env, d, remotes))]
    else t
  }

  lemma Rewritten(was: Flows, d: Dpid, a: Table, b: Table)
    ensures was[d := a][d := b] == was[d := b]
  {
  }

  lemma UpstreamInParts(env: Env, t: Table, n: NetworkId, k: Key, at: PortId, m: Mac)
    ensures var d, remotes, first := at.dpid, GetDpids(env.nw, n) - {at.dpid}, |Active(env, n, at.dpid)| == 1;
            var t1 := (if first then t + PassAll(k, TunnelPorts(env, d, remotes)) else t) + RemoteMacs(env, n, k, d, remotes);
            AddUpstream(env, t, n, k, at, m) ==
              WithCatchAll(env, t1, k, d, remotes, first)[SrcVm(at.port, m) := EnterTunnel(k)][SrcDrop(at.port) := DROP]
  {
    hide Active, TunnelPorts, RemoteMacs, PassAll;
  }

  lemma ThereInParts(env: Env, t: Table, x: Dpid, n: NetworkId, k: Key, at: PortId, m: Mac, way: PortNo)
    requires UpTunnels(env, x, at.dpid) == {way}
    ensures var remotes, first := GetDpids(env.nw, n) - {at.dpid}, |Active(env, n, at.dpid)| == 1;
            var t1 := t[TunnelMac(k, m) := OutputThenLocal(MacTunnels(env, x, n, at, m) + {way})];
            AddThere(env, t, x, n, k, at, m) ==
              if first then t1[SrcPass(way, k) := OutputThenLocal({})]
                              [TunnelBroadcast(k) := OutputThenLocal(TunnelPorts(env, x, remotes) + {way})]
              else t1
  {
    hide Active, TunnelPorts, MacTunnels, UpTunnels;
    var t1 := t[TunnelMac(k, m) := OutputThenLocal(MacTunnels(env, x, n, at, m) + {way})];
    OnePass(t1, k, way);
  }

  lemma OnePass(t: Table, k: Key, way: PortNo)
    ensures t + PassAll(k, {way}) == t[SrcPass(way, k) := OutputThenLocal({})]
  {
    assert PassAll(k, {way}) == map[SrcPass(way, k) := OutputThenLocal({})];
  }

  /** The application; `flows` is what the switches' tables hold. */
  class GreTunnel {
    var flows: Flows

    constructor ()
      ensures flows == map[]
    {
      flows := map[];
    }

    /** OFPFC_ADD, and OFPFC_MODIFY_STRICT, which adds an absent entry. */
    method SendFlowMod(d: Dpid, fk: FlowKey, a: Actions)
      requires d in flows
      modifies this
      ensures flows == old(flows)[d := old(flows)[d][fk := a]]
    {
      flows := flows[d := flows[d][fk := a]];
    }

    /** dp_handler: a joining switch starts with empty tables. */
    method SwitchEnters(d: Dpid)
      modifies this
      ensures flows == old(flows)[d := map[]]
    {
      flows := flows[d := map[]];
    }

    /** _vm_port_add. */
    method VmPortAdd(env: Env, n: NetworkId, k: Key, at: PortId, m: Mac)
      requires Asserted(env, VmPort(n, k, at, m, true)) && OnePortEach(env.tun) && flows.Keys == env.connected
      modifies this
      ensures flows == Overlay.VmPortAdd(env, old(flows), n, k, at, m)
    {
      hide AddHere, AddThere;
      var d := at.dpid;
      var remotes := GetDpids(env.nw, n) - {d};
      var first := AddHereLoop(env, n, k, at, m, remotes);
      AddThereLoop(env, n, k, at, m, remotes, first);
    }

    /** The part on the port's own switch. */
    method AddHereLoop(env: Env, n: NetworkId, k: Key, at: PortId, m: Mac, remotes: set<Dpid>) returns (first: bool)
      requires Asserted(env, VmPort(n, k, at, m, true)) && OnePortEach(env.tun) && at.dpid in flows
      requires remotes == GetDpids(env.nw, n) - {at.dpid}
      modifies this
      ensures flows == old(flows)[at.dpid := AddHere(env, old(flows)[at.dpid], n, k, at, m)]
      ensures first == (|Active(env, n, at.dpid)| == 1)
    {
      var d := at.dpid;
      ghost var t := flows[d];
      SendFlowMod(d, LocalMac(k, m), Output(set p | p in PortsOf(env.nw, d)
        && PortsOf(env.nw, d)[p] == Port(n, Some(m)) && PortId(d, p) in env.up));
      var active := ActivePorts(env, n, d);
      assert at.port in active;
      first := |active| == 1;
      SendFlowMod(d, LocalBroadcast(k), Output(active));
      if first { SendFlowMod(d, LocalDrop(k), DROP); }
      assert WithMac(env, n, d, m) == set p | p in PortsOf(env.nw, d)
        && PortsOf(env.nw, d)[p] == Port(n, Some(m)) && PortId(d, p) in env.up;
      assert flows == old(flows)[d := AddLocal(env, t, n, k, d, m)];
      AddUpstreamLoop(env, n, k, at, m, remotes, first);
    }

    method AddUpstreamLoop(env: Env, n: NetworkId, k: Key, at: PortId, m: Mac, remotes: set<Dpid>, first: bool)
      requires at.dpid in env.connected && OnePortEach(env.tun) && at.dpid in flows
      requires remotes == GetDpids(env.nw, n) - {at.dpid} && first == (|Active(env, n, at.dpid)| == 1)
      modifies this
      ensures flows == old(flows)[at.dpid := AddUpstream(env, old(flows)[at.dpid], n, k, at, m)]
    {
      UpstreamInParts(env, flows[at.dpid], n, k, at, m);
      hide Active, TunnelPorts, RemoteMacs, PassAll, WaysFound, UpTunnels, AddUpstream, OnePortEach, GetDpids, WithCatchAll;
      var d := at.dpid;
      ghost var was, t := flows, flows[d];
      var ways := ScanRemotes(env, n, k, d, remotes, first);
      ghost var t1 := if first then t + PassAll(k, TunnelPorts(env, d, remotes)) else t;
      WriteWays(env, n, k, d, remotes, ways);
      ghost var t2 := t1 + RemoteMacs(env, n, k, d, remotes);
      Rewritten(was, d, t1, t2);
      UpstreamCatchAll(env, n, k, d, remotes, first);
      ghost var t3 := WithCatchAll(env, t2, k, d, remotes, first);
      Rewritten(was, d, t2, t3);
      SendFlowMod(d, SrcVm(at.port, m), EnterTunnel(k));
      Rewritten(was, d, t3, t3[SrcVm(at.port, m) := EnterTunnel(k)]);
      SendFlowMod(d, SrcDrop(at.port), DROP);
      Rewritten(was, d, t3[SrcVm(at.port, m) := EnterTunnel(k)], flows[d]);
    }

    method UpstreamCatchAll(env: Env, n: NetworkId, k: Key, d: Dpid, remotes: set<Dpid>, first: bool)
      requires d in env.connected && OnePortEach(env.tun) && d in flows
      modifies this
      ensures flows == old(flows)[d := WithCatchAll(env, old(flows)[d], k, d, remotes, first)]
    {
      hide TunnelPorts, OnePortEach;
      if first {
        SendFlowMod(d, TunnelPass(k), OutputThenLocal({}));
        var ports := ListTunnelPorts(env, d, remotes);
        SendFlowMod(d, TunnelBroadcast(k), OutputThenLocal(ports));
      }
    }

    /** The first loop over the remote switches: it collects the ways to each
        MAC and, for a first instance, lets the tunnels in. */
    method ScanRemotes(env: Env, n: NetworkId, k: Key, d: Dpid, remotes: set<Dpid>, first: bool)
      returns (ways: map<Mac, set<PortNo>>)
      requires d in env.connected && OnePortEach(env.tun) && d in flows && d !in remotes
      modifies this
      ensures var t := old(flows)[d];
              flows == old(flows)[d := if first then t + PassAll(k, TunnelPorts(env, d, remotes)) else t]
      ensures WaysFound(env, n, d, remotes, ways)
    {
      hide WaysFound, TunnelPorts, UpTunnels, PassAll, OnePortEach;
      ghost var t := flows[d];
      var todo := remotes;
      ways := map[];
      ScanNothing(env, n, k, d, t);
      assert remotes - todo == {};
      while todo != {}
        invariant todo <= remotes && d in flows
        invariant flows == old(flows)[d := if first then t + PassAll(k, TunnelPorts(env, d, remotes - todo)) else t]
        invariant WaysFound(env, n, d, remotes - todo, ways)
        decreases todo
      {
        var r :| r in todo;
        ghost var done := remotes - todo;
        assert remotes - (todo - {r}) == done + {r};
        OneMoreTunnel(env, d, done, r);
        todo := todo - {r};
        var way := TunnelTo(env, d, r);
        if way.Some? {
          ways := ScanPorts(env, n, d, done, r, way.value, ways);
          if first {
            PassOneMore(t, k, TunnelPorts(env, d, done), way.value);
            SendFlowMod(d, SrcPass(way.value, k), OutputThenLocal({}));
          }
        } else {
          NoNewWays(env, n, d, done, r, ways);
          assert TunnelPorts(env, d, done + {r}) == TunnelPorts(env, d, done);
        }
      }
      assert remotes - {} == remotes;
    }

    /** The inner loop over the ports of one remote switch. */
    method ScanPorts(env: Env, n: NetworkId, d: Dpid, ghost done: set<Dpid>, r: Dpid, way: PortNo,
                     ways0: map<Mac, set<PortNo>>) returns (ways: map<Mac, set<PortNo>>)
      requires WaysFound(env, n, d, done, ways0) && UpTunnels(env, d, r) == {way}
      ensures WaysFound(env, n, d, done + {r}, ways)
    {
      hide WaysVia, WaysFound, UpTunnels, WaysAre;
      var ports := PortsOf(env.nw, r);
      var todo := ports.Keys;
      ways := ways0;
      assert ports.Keys - todo == {};
      WaysViaNone(env, n, d, done, r, way, ways0);
      while todo != {}
        invariant todo <= ports.Keys
        invariant WaysVia(env, n, r, way, ports.Keys - todo, ways0, ways)
        decreases todo
      {
        var p :| p in todo;
        ghost var seen := ports.Keys - todo;
        assert ports.Keys - (todo - {p}) == seen + {p};
        todo := todo - {p};
        ghost var before := ways;
        if ports[p].network == n && ports[p].mac.Some? && PortId(r, p) in env.up {
          var m := ports[p].mac.value;
          ways := ways[m := Ways(ways, m) + {way}];
        }
        WaysViaOneMore(env, n, r, way, seen, p, ways0, before, ways);
      }
      assert ports.Keys - {} == ports.Keys;
      WaysViaAll(env, n, d, done, r, way, ways0, ways);
    }

    method WriteWays(env: Env, n: NetworkId, k: Key, d: Dpid, ghost remotes: set<Dpid>, ways: map<Mac, set<PortNo>>)
      requires d in flows && WaysFound(env, n, d, remotes, ways)
      modifies this
      ensures flows == old(flows)[d := old(flows)[d] + RemoteMacs(env, n, k, d, remotes)]
    {
      hide WaysFound, RemoteMacs, WayRows;
      ghost var t := flows[d];
      var todo := ways.Keys;
      NoRow(t, k, ways);
      assert ways.Keys - todo == {};
      while todo != {}
        invariant todo <= ways.Keys && d in flows
        invariant flows == old(flows)[d := t + WayRows(k, ways, ways.Keys - todo)]
        decreases todo
      {
        var m :| m in todo;
        OneMoreRow(t, k, ways, ways.Keys - todo, m);
        assert ways.Keys - (todo - {m}) == ways.Keys - todo + {m};
        todo := todo - {m};
        SendFlowMod(d, TunnelMac(k, m), OutputThenLocal(ways[m]));
      }
      assert ways.Keys - {} == ways.Keys;
      AllRows(env, n, k, d, remotes, ways);
    }

    /** The second loop over the remote switches. */
    method AddThereLoop(env: Env, n: NetworkId, k: Key, at: PortId, m: Mac, remotes: set<Dpid>, first: bool)
      requires at.dpid in env.connected && OnePortEach(env.tun) && flows.Keys == env.connected
      requires |MacPorts(env.nw.macs, n, m) - {at}| <= 1
      requires remotes == GetDpids(env.nw, n) - {at.dpid} && first == (|Active(env, n, at.dpid)| == 1)
      modifies this
      ensures flows == map x | x in old(flows) ::
                if x in remotes && UpTunnels(env, x, at.dpid) != {} then AddThere(env, old(flows)[x], x, n, k, at, m)
                else old(flows)[x]
    {
      hide Active, AddThere, UpTunnels, OnePortEach, AddedThere;
      ghost var was := flows;
      AddedThereNone(env, was, n, k, at, m);
      assert remotes - remotes == {};
      var todo := remotes;
      while todo != {}
        invariant todo <= remotes && flows.Keys == was.Keys
        invariant flows == AddedThere(env, was, remotes - todo, n, k, at, m)
        decreases todo
      {
        var x :| x in todo;
        AddedThereOneMore(env, was, remotes - todo, x, n, k, at, m);
        assert remotes - (todo - {x}) == remotes - todo + {x};
        todo := todo - {x};
        if x in env.connected {
          var way := TunnelTo(env, x, at.dpid);
          if way.Some? { AddThereOne(env, n, k, at, m, remotes, first, x, way.value); }
        }
      }
      assert remotes - {} == remotes;
      AddedThereDone(env, was, remotes, n, k, at, m);
    }

    method AddThereOne(env: Env, n: NetworkId, k: Key, at: PortId, m: Mac, remotes: set<Dpid>, first: bool, x: Dpid, way: PortNo)
      requires OnePortEach(env.tun) && x in env.connected && x in flows && UpTunnels(env, x, at.dpid) == {way}
      requires |MacPorts(env.nw.macs, n, m) - {at}| <= 1
      requires remotes == GetDpids(env.nw, n) - {at.dpid} && first == (|Active(env, n, at.dpid)| == 1)
      modifies this
      ensures flows == old(flows)[x := AddThere(env, old(flows)[x], x, n, k, at, m)]
    {
      ThereInParts(env, flows[x], x, n, k, at, m, way);
      hide Active, TunnelPorts, MacTunnels, UpTunnels, AddThere, OnePortEach, GetDpids;
      ghost var was := flows;
      var others := TunnelPortsWithMac(env, x, n, at, m);
      SendFlowMod(x, TunnelMac(k, m), OutputThenLocal(others + {way}));
      ghost var t1 := flows[x];
      if first {
        SendFlowMod(x, SrcPass(way, k), OutputThenLocal({}));
        Rewritten(was, x, t1, flows[x]);
        ghost var t2 := flows[x];
        var ports := ListTunnelPorts(env, x, remotes);
        SendFlowMod(x, TunnelBroadcast(k), OutputThenLocal(ports + {way}));
        Rewritten(was, x, t2, flows[x]);
      }
    }

    method SendDelete(d: Dpid, table: nat, pattern: Rule)
      requires d in flows
      modifies this
      ensures flows == old(flows)[d := Delete(old(flows)[d], table, pattern)]
    {
      flows := flows[d := Delete(flows[d], table, pattern)];
    }

    /** OFPFC_DELETE_STRICT, with an out_port filter if one is given. */
    method SendDeleteStrict(d: Dpid, fk: FlowKey, outPort: Option<PortNo>)
      requires d in flows
      modifies this
      ensures flows == old(flows)[d := if outPort.Some? then DeleteStrictTo(old(flows)[d], fk, {outPort.value})
                                       else DeleteStrict(old(flows)[d], fk)]
    {
      if outPort == None || (fk in flows[d] && outPort.value in flows[d][fk].outputs) {
        assert outPort.Some? ==> outPort.value in flows[d][fk].outputs * {outPort.value};
        flows := flows[d := flows[d] - {fk}];
      } else {
        assert fk in flows[d] ==> flows[d][fk].outputs * {outPort.value} == {};
        assert flows[d := flows[d]] == flows;
      }
    }

    /** _vm_port_del. */
    method VmPortDel(env: Env, n: NetworkId, k: Key, at: PortId, m: Mac)
      requires Asserted(env, VmPort(n, k, at, m, false)) && OnePortEach(env.tun) && flows.Keys == env.connected
      modifies this
      ensures flows == Overlay.VmPortDel(env, old(flows), n, k, at, m)
    {
      hide DelHere, DelThere, Active;
      var last := DelHereSteps(env, n, k, at, m);
      DelThereLoop(env, n, k, at, m, GetDpids(env.nw, n) - {at.dpid}, last);
    }

    method DelHereSteps(env: Env, n: NetworkId, k: Key, at: PortId, m: Mac) returns (last: bool)
      requires Asserted(env, VmPort(n, k, at, m, false)) && at.dpid in flows
      modifies this
      ensures flows == old(flows)[at.dpid := DelHere(env, old(flows)[at.dpid], n, k, at, m)]
      ensures last == (Active(env, n, at.dpid) - {at.port} == {})
    {
      hide Delete, Active, DelLocal;
      ghost var was := flows;
      var d := at.dpid;
      var active := ActivePorts(env, n, d);
      var localPorts := active - {at.port};
      last := localPorts == {};
      SendDelete(d, SRC_TABLE, ANY.(inPort := Some(at.port)));
      Rewritten(was, d, was[d], flows[d]);
      ghost var t1 := flows[d];
      if last {
        SendDelete(d, SRC_TABLE, ANY.(tunId := Some(k)));
        Rewritten(was, d, t1, flows[d]);
        ghost var t2 := flows[d];
        SendDelete(d, TUNNEL_OUT_TABLE, ANY.(tunId := Some(k)));
        Rewritten(was, d, t2, flows[d]);
        ghost var t3 := flows[d];
        SendDelete(d, LOCAL_OUT_TABLE, ANY.(tunId := Some(k)));
        Rewritten(was, d, t3, flows[d]);
      } else {
        DelLocalSteps(env, n, k, at, m, localPorts);
        Rewritten(was, d, t1, flows[d]);
      }
    }

    method DelLocalSteps(env: Env, n: NetworkId, k: Key, at: PortId, m: Mac, localPorts: set<PortNo>)
      requires Asserted(env, VmPort(n, k, at, m, false)) && at.dpid in flows
      requires localPorts == Active(env, n, at.dpid) - {at.port}
      modifies this
      ensures flows == old(flows)[at.dpid := DelLocal(env, old(flows)[at.dpid], n, k, at, m)]
    {
      var d := at.dpid;
      var ports := PortsWithMac(env, n, d, m);
      var others := set p | p in ports && p != at.port && PortId(d, p) in env.up;
      assert others == WithMac(env, n, d, m) - {at.port};
      if others != {} {
        assert |ports| == 1;
        SendFlowMod(d, LocalMac(k, m), Output(others));
      } else {
        SendDeleteStrict(d, LocalMac(k, m), Some(at.port));
      }
      SendFlowMod(d, LocalBroadcast(k), Output(localPorts));
    }

    /** The loop over the other switches of the network. */
    method DelThereLoop(env: Env, n: NetworkId, k: Key, at: PortId, m: Mac, remotes: set<Dpid>, last: bool)
      requires at.dpid in env.connected && OnePortEach(env.tun) && flows.Keys == env.connected
      requires |MacPorts(env.nw.macs, n, m) - {at}| <= 1
      requires remotes == GetDpids(env.nw, n) - {at.dpid} && last == (Active(env, n, at.dpid) - {at.port} == {})
      modifies this
      ensures flows == map x | x in old(flows) ::
                if x in remotes && UpTunnels(env, x, at.dpid) != {} then DelThere(env, old(flows)[x], x, n, k, at, m)
                else old(flows)[x]
    {
      hide Active, DelThere, UpTunnels, OnePortEach, DeletedThere;
      ghost var was := flows;
      DeletedThereNone(env, was, n, k, at, m);
      assert remotes - remotes == {};
      var todo := remotes;
      while todo != {}
        invariant todo <= remotes && flows.Keys == was.Keys
        invariant flows == DeletedThere(env, was, remotes - todo, n, k, at, m)
        decreases todo
      {
        var x :| x in todo;
        DeletedThereOneMore(env, was, remotes - todo, x, n, k, at, m);
        assert remotes - (todo - {x}) == remotes - todo + {x};
        todo := todo - {x};
        if x in env.connected {
          var way := TunnelTo(env, x, at.dpid);
          if way.Some? { DelThereOne(env, n, k, at, m, remotes, last, x, way.value); }
        }
      }
      assert remotes - {} == remotes;
      DeletedThereDone(env, was, remotes, n, k, at, m);
    }

    method DelThereOne(env: Env, n: NetworkId, k: Key, at: PortId, m: Mac, remotes: set<Dpid>, last: bool, x: Dpid, way: PortNo)
      requires OnePortEach(env.tun) && x in env.connected && x in flows && UpTunnels(env, x, at.dpid) == {way}
      requires |MacPorts(env.nw.macs, n, m) - {at}| <= 1
      requires remotes == GetDpids(env.nw, n) - {at.dpid} && last == (Active(env, n, at.dpid) - {at.port} == {})
      modifies this
      ensures flows == old(flows)[x := DelThere(env, old(flows)[x], x, n, k, at, m)]
    {
      hide Active, TunnelPorts, MacTunnels, UpTunnels;
      if last { DelTunnelSteps(env, n, k, at.dpid, remotes, x, way); }
      var others := TunnelPortsWithMac(env, x, n, at, m);
      if others != {} {
        SendFlowMod(x, TunnelMac(k, m), OutputThenLocal(others));
      } else {
        SendDeleteStrict(x, TunnelMac(k, m), Some(way));
      }
    }

    method DelTunnelSteps(env: Env, n: NetworkId, k: Key, d: Dpid, remotes: set<Dpid>, x: Dpid, way: PortNo)
      requires OnePortEach(env.tun) && x in env.connected && x in flows && UpTunnels(env, x, d) == {way}
      requires remotes == GetDpids(env.nw, n) - {d}
      modifies this
      ensures flows == old(flows)[x := DelTunnel(env, old(flows)[x], x, n, k, d)]
    {
      hide TunnelPorts, UpTunnels;
      ghost var t := flows[x];
      SendDeleteStrict(x, SrcPass(way, k), None);
      SendDeleteStrict(x, SrcDrop(way), None);
      ghost var ways := UpTunnels(env, x, d);
      ghost var t1 := t - (set p | p in ways :: SrcPass(p, k)) - (set p | p in ways :: SrcDrop(p));
      assert (set p | p in ways :: SrcPass(p, k)) == {SrcPass(way, k)} && (set p | p in ways :: SrcDrop(p)) == {SrcDrop(way)};
      assert flows[x] == t1;
      var ports := ListTunnelPorts(env, x, remotes);
      assert way !in ports by { TunnelLeadsOneWay(env, x, d, remotes, way); }
      if ports == {} {
        SendDeleteStrict(x, TunnelBroadcast(k), None);
        assert flows[x] == DeleteStrict(t1, TunnelBroadcast(k));
      } else {
        SendFlowMod(x, TunnelBroadcast(k), OutputThenLocal(ports));
      }
    }

    /** _tunnel_port_add. */
    method TunnelPortAdd(env: Env, at: PortId, remote: Dpid)
      requires Asserted(env, TunnelPort(at, remote, true)) && OnePortEach(env.tun) && Injective(env.tun.keys)
      requires flows.Keys == env.connected
      modifies this
      ensures flows == Overlay.TunnelPortAdd(env, old(flows), at, remote)
    {
      hide TunnelPasses, TunnelMacs, TunnelFloods, CommonNetworks;
      var d := at.dpid;
      var localNets, remoteNets := TenantNetworks(env, d), TenantNetworks(env, remote);
      ghost var nets := CommonNetworks(env, d, remote);
      assert nets == set n | n in localNets && n in env.tun.keys && n in remoteNets by { CommonAre(env, d, remote); }
      SendFlowMod(d, SrcDrop(at.port), DROP);
      PassKnownKeys(env, d, at.port, remote, localNets, remoteNets);
      FillTunnel(env, at, remote, localNets, remoteNets);
    }

    method PassKnownKeys(env: Env, d: Dpid, p: PortNo, ghost remote: Dpid, localNets: set<NetworkId>, remoteNets: set<NetworkId>)
      requires d in flows
      requires CommonNetworks(env, d, remote) == set n | n in localNets && n in env.tun.keys && n in remoteNets
      modifies this
      ensures flows == old(flows)[d := old(flows)[d] + TunnelPasses(env, p, CommonNetworks(env, d, remote))]
    {
      hide TunnelPasses, CommonNetworks;
      ghost var t := flows[d];
      ghost var done: set<NetworkId> := {};
      var todo := localNets;
      NothingPassed(env, p, t);
      while todo != {}
        invariant todo <= localNets && d in flows
        invariant done == set n | n in localNets - todo && n in env.tun.keys && n in remoteNets
        invariant flows == old(flows)[d := t + TunnelPasses(env, p, done)]
        decreases todo
      {
        var n :| n in todo;
        todo := todo - {n};
        if n in env.tun.keys && n in remoteNets {
          OneMorePass(env, p, t, done, n);
          SendFlowMod(d, SrcPass(p, env.tun.keys[n]), OutputThenLocal({}));
          done := done + {n};
        }
      }
      assert localNets - {} == localNets && done == CommonNetworks(env, d, remote);
    }

    method FillTunnel(env: Env, at: PortId, remote: Dpid, localNets: set<NetworkId>, remoteNets: set<NetworkId>)
      requires Asserted(env, TunnelPort(at, remote, true)) && OnePortEach(env.tun) && Injective(env.tun.keys)
      requires at.dpid in flows
      requires CommonNetworks(env, at.dpid, remote) == set n | n in localNets && n in env.tun.keys && n in remoteNets
      modifies this
      ensures var nets := CommonNetworks(env, at.dpid, remote);
              flows == old(flows)[at.dpid :=
                old(flows)[at.dpid] + TunnelMacs(env, at.port, nets, remote) + TunnelFloods(env, at.dpid, at.port, nets)]
    {
      hide TunnelMacs, TunnelFloods, CommonNetworks, TunnelPorts, GetDpids, OnePortEach, Injective, WithMac, PortsWithMac;
      var d, p := at.dpid, at.port;
      ghost var t := flows[d];
      ghost var done: set<NetworkId> := {};
      var todo := localNets;
      NothingFilled(env, d, p, remote, t);
      while todo != {}
        invariant todo <= localNets && d in flows
        invariant done == set n | n in localNets - todo && n in env.tun.keys && n in remoteNets
        invariant flows == old(flows)[d := t + TunnelMacs(env, p, done, remote) + TunnelFloods(env, d, p, done)]
        decreases todo
      {
        var n :| n in todo;
        todo := todo - {n};
        if n in env.tun.keys && n in remoteNets {
          OneMoreFilled(env, d, p, remote, t, done, n);
          FillMacs(env, d, p, remote, n);
          assert d in GetDpids(env.nw, n);
          var ports := ListTunnelPorts(env, d, GetDpids(env.nw, n) - {d});
          SendFlowMod(d, TunnelBroadcast(env.tun.keys[n]), OutputThenLocal(ports + {p}));
          done := done + {n};
        }
      }
      assert localNets - {} == localNets && done == CommonNetworks(env, d, remote);
    }

    method FillMacs(env: Env, d: Dpid, p: PortNo, remote: Dpid, n: NetworkId)
      requires d in flows && n in env.tun.keys
      modifies this
      ensures flows == old(flows)[d := old(flows)[d] + TunnelMacs(env, p, {n}, remote)]
    {
      hide MacRows, TunnelMacs;
      NoMacRow(env, p, n, remote);
      ghost var t := flows[d];
      var ports := PortsOf(env.nw, remote);
      var todo := ports.Keys;
      ghost var rows: Table := map[];
      assert t + rows == t && ports.Keys - todo == {};
      while todo != {}
        invariant todo <= ports.Keys && d in flows
        invariant rows == MacRows(env, p, n, remote, ports.Keys - todo)
        invariant flows == old(flows)[d := t + rows]
        decreases todo
      {
        var q :| q in todo;
        OneMoreMacRow(env, p, n, remote, ports.Keys - todo, q);
        assert ports.Keys - (todo - {q}) == ports.Keys - todo + {q};
        todo := todo - {q};
        if ports[q].network == n && ports[q].mac.Some? {
          SendFlowMod(d, TunnelMac(env.tun.keys[n], ports[q].mac.value), OutputThenLocal({p}));
          assert flows[d] == t + rows[TunnelMac(env.tun.keys[n], ports[q].mac.value) := OutputThenLocal({p})];
          rows := rows[TunnelMac(env.tun.keys[n], ports[q].mac.value) := OutputThenLocal({p})];
        }
      }
      assert ports.Keys - {} == ports.Keys;
      AllMacRows(env, p, n, remote);
    }

    /** _tunnel_port_del. */
    method TunnelPortDel(at: PortId)
      requires at.dpid in flows
      modifies this
      ensures flows == Overlay.TunnelPortDel(old(flows), at)
    {
      SendDeleteStrict(at.dpid, SrcDrop(at.port), None);
    }

    /** vm_port_handler and tunnel_port_handler. */
    method HandleEvent(env: Env, ev: GreEvent)
      requires Asserted(env, ev) && OnePortEach(env.tun) && Injective(env.tun.keys) && flows.Keys == env.connected
      modifies this
      ensures flows == Overlay.Handle(env, old(flows), ev)
    {
      match ev
      case VmPort(n, k, at, m, true) => VmPortAdd(env, n, k, at, m);
      case VmPort(n, k, at, m, false) => VmPortDel(env, n, k, at, m);
      case TunnelPort(at, remote, true) => TunnelPortAdd(env, at, remote);
      case TunnelPort(at, _, false) => TunnelPortDel(at);
    }
  }

  // ---------------------------------------------- what the loops accumulate

  function Ways(ways: map<Mac, set<PortNo>>, m: Mac): set<PortNo> {
    if m in ways then ways[m] else {}
  }

  /** The ways to each MAC active on some of the switches, none for others. */
  ghost predicate WaysFound(env: Env, n: NetworkId, d: Dpid, rs: set<Dpid>, ways: map<Mac, set<PortNo>>) {
    forall m: Mac :: WaysAre(ways, m, WaysTo(env, n, d, rs, Some(m)))
  }

  predicate WaysAre(ways: map<Mac, set<PortNo>>, m: Mac, ps: set<PortNo>) {
    Ways(ways, m) == ps && (m in ways <==> ps != {})
  }

  ghost predicate WaysVia(env: Env, n: NetworkId, r: Dpid, way: PortNo, ps: set<PortNo>,
                          ways0: map<Mac, set<PortNo>>, ways: map<Mac, set<PortNo>>) {
    forall m: Mac :: WaysAre(ways, m, Ways(ways0, m) + (if WithMac(env, n, r, m) * ps != {} then {way} else {}))
  }

  lemma WaysViaNone(env: Env, n: NetworkId, d: Dpid, rs: set<Dpid>, r: Dpid, way: PortNo, ways: map<Mac, set<PortNo>>)
    requires WaysFound(env, n, d, rs, ways)
    ensures WaysVia(env, n, r, way, {}, ways, ways)
  {
    hide WithMac;
    forall m: Mac ensures WaysAre(ways, m, Ways(ways, m) + (if WithMac(env, n, r, m) * {} != {} then {way} else {})) {
      assert WaysAre(ways, m, WaysTo(env, n, d, rs, Some(m)));
    }
  }

  lemma WaysViaOneMore(env: Env, n: NetworkId, r: Dpid, way: PortNo, ps: set<PortNo>, p: PortNo,
                       ways0: map<Mac, set<PortNo>>, ways: map<Mac, set<PortNo>>, ways': map<Mac, set<PortNo>>)
    requires WaysVia(env, n, r, way, ps, ways0, ways) && p in PortsOf(env.nw, r)
    requires if p in Active(env, n, r) then
               var m := PortsOf(env.nw, r)[p].mac.value; ways' == ways[m := Ways(ways, m) + {way}]
             else ways' == ways
    ensures WaysVia(env, n, r, way, ps + {p}, ways0, ways')
  {
    forall m: Mac
      ensures WaysAre(ways', m, Ways(ways0, m) + (if WithMac(env, n, r, m) * (ps + {p}) != {} then {way} else {}))
    {
      assert WithMac(env, n, r, m) * (ps + {p}) == WithMac(env, n, r, m) * ps + WithMac(env, n, r, m) * {p};
      assert WaysAre(ways, m, Ways(ways0, m) + (if WithMac(env, n, r, m) * ps != {} then {way} else {}));
      MacOfActive(env, n, r, p, m);
    }
  }

  lemma MacOfActive(env: Env, n: NetworkId, r: Dpid, p: PortNo, m: Mac)
    ensures WithMac(env, n, r, m) * {p} ==
            if p in Active(env, n, r) && PortsOf(env.nw, r)[p].mac == Some(m) then {p} else {}
  {
  }

  lemma WaysViaAll(env: Env, n: NetworkId, d: Dpid, rs: set<Dpid>, r: Dpid, way: PortNo,
                   ways0: map<Mac, set<PortNo>>, ways: map<Mac, set<PortNo>>)
    requires WaysFound(env, n, d, rs, ways0) && UpTunnels(env, d, r) == {way}
    requires WaysVia(env, n, r, way, PortsOf(env.nw, r).Keys, ways0, ways)
    ensures WaysFound(env, n, d, rs + {r}, ways)
  {
    forall m: Mac ensures WaysAre(ways, m, WaysTo(env, n, d, rs + {r}, Some(m))) {
      OneMoreWay(env, n, d, rs, r, m);
      assert WaysAre(ways0, m, WaysTo(env, n, d, rs, Some(m)));
      assert WithMac(env, n, r, m) * PortsOf(env.nw, r).Keys == WithMac(env, n, r, m);
      assert WaysAre(ways, m, Ways(ways0, m) + (if WithMac(env, n, r, m) * PortsOf(env.nw, r).Keys != {} then {way} else {}));
    }
  }

  lemma OneMoreWay(env: Env, n: NetworkId, d: Dpid, rs: set<Dpid>, r: Dpid, m: Mac)
    ensures WaysTo(env, n, d, rs + {r}, Some(m)) ==
            WaysTo(env, n, d, rs, Some(m)) + (if WithMac(env, n, r, m) != {} then UpTunnels(env, d, r) else {})
  {
    hide UpTunnels;
    forall q ensures q in WaysTo(env, n, d, rs + {r}, Some(m)) <==>
                     q in WaysTo(env, n, d, rs, Some(m)) || (WithMac(env, n, r, m) != {} && q in UpTunnels(env, d, r)) {
      if WithMac(env, n, r, m) != {} && q in UpTunnels(env, d, r) {
        var p :| p in WithMac(env, n, r, m);
        assert r in rs + {r} && p in Active(env, n, r) && PortsOf(env.nw, r)[p].mac == Some(m);
      }
      if q in WaysTo(env, n, d, rs + {r}, Some(m)) && q !in WaysTo(env, n, d, rs, Some(m)) {
        var r', p :| r' in rs + {r} && p in Active(env, n, r') && PortsOf(env.nw, r')[p].mac == Some(m) && q in UpTunnels(env, d, r');
        assert r' == r && p in WithMac(env, n, r, m);
      }
    }
  }

  lemma NoNewWays(env: Env, n: NetworkId, d: Dpid, rs: set<Dpid>, r: Dpid, ways: map<Mac, set<PortNo>>)
    requires WaysFound(env, n, d, rs, ways) && UpTunnels(env, d, r) == {}
    ensures WaysFound(env, n, d, rs + {r}, ways)
  {
    hide UpTunnels, Active, WaysTo;
    forall m: Mac ensures WaysAre(ways, m, WaysTo(env, n, d, rs + {r}, Some(m))) {
      OneMoreWay(env, n, d, rs, r, m);
      assert WaysAre(ways, m, WaysTo(env, n, d, rs, Some(m)));
    }
  }

  lemma ScanNothing(env: Env, n: NetworkId, k: Key, d: Dpid, t: Table)
    ensures t + PassAll(k, TunnelPorts(env, d, {})) == t
    ensures WaysFound(env, n, d, {}, map[])
  {
  }

  lemma PassOneMore(t: Table, k: Key, ports: set<PortNo>, p: PortNo)
    ensures (t + PassAll(k, ports))[SrcPass(p, k) := OutputThenLocal({})] == t + PassAll(k, ports + {p})
  {
  }

  /** The rows for some of the MACs. */
  function WayRows(k: Key, ways: map<Mac, set<PortNo>>, ms: set<Mac>): Table
    requires ms <= ways.Keys
  {
    var keys := set m | m in ms :: TunnelMac(k, m);
    map fk | fk in keys :: OutputThenLocal(Ways(ways, fk.rule.dlDst.GetOr(0)))
  }

  lemma NoRow(t: Table, k: Key, ways: map<Mac, set<PortNo>>)
    ensures t + WayRows(k, ways, {}) == t
  {
  }

  lemma OneMoreRow(t: Table, k: Key, ways: map<Mac, set<PortNo>>, ms: set<Mac>, m: Mac)
    requires ms <= ways.Keys && m in ways
    ensures (t + WayRows(k, ways, ms))[TunnelMac(k, m) := OutputThenLocal(ways[m])] == t + WayRows(k, ways, ms + {m})
  {
  }

  lemma AllRows(env: Env, n: NetworkId, k: Key, d: Dpid, rs: set<Dpid>, ways: map<Mac, set<PortNo>>)
    requires WaysFound(env, n, d, rs, ways)
    ensures WayRows(k, ways, ways.Keys) == RemoteMacs(env, n, k, d, rs)
  {
    hide UpTunnels, Active, WaysTo;
    var rows := RemoteMacs(env, n, k, d, rs);
    forall m: Mac ensures TunnelMac(k, m) in rows <==> m in ways {
      assert WaysAre(ways, m, WaysTo(env, n, d, rs, Some(m)));
      RemoteMacHas(env, n, k, d, rs, m);
    }
    forall fk: FlowKey | fk in rows || fk in WayRows(k, ways, ways.Keys)
      ensures fk.rule.dlDst.Some? && fk == TunnelMac(k, fk.rule.dlDst.value)
      ensures OutputThenLocal(Ways(ways, fk.rule.dlDst.GetOr(0))) == OutputThenLocal(WaysTo(env, n, d, rs, fk.rule.dlDst))
    {
      var m := fk.rule.dlDst.GetOr(0);
      assert WaysAre(ways, m, WaysTo(env, n, d, rs, Some(m)));
    }
  }

  lemma RemoteMacHas(env: Env, n: NetworkId, k: Key, d: Dpid, rs: set<Dpid>, m: Mac)
    ensures TunnelMac(k, m) in RemoteMacs(env, n, k, d, rs) <==> WaysTo(env, n, d, rs, Some(m)) != {}
  {
    hide UpTunnels;
    if q :| q in WaysTo(env, n, d, rs, Some(m)) {
      var r, p :| r in rs && p in Active(env, n, r) && PortsOf(env.nw, r)[p].mac == Some(m) && q in UpTunnels(env, d, r);
      assert TunnelMac(k, PortsOf(env.nw, r)[p].mac.value) == TunnelMac(k, m);
    }
    if TunnelMac(k, m) in RemoteMacs(env, n, k, d, rs) {
      var r, p :| r in rs && UpTunnels(env, d, r) != {} && p in Active(env, n, r)
                  && TunnelMac(k, PortsOf(env.nw, r)[p].mac.value) == TunnelMac(k, m);
      assert TunnelMac(k, m).rule.dlDst == Some(m) && PortsOf(env.nw, r)[p].mac.Some?;
      var q :| q in UpTunnels(env, d, r);
      assert q in WaysTo(env, n, d, rs, Some(m));
    }
  }

  // ------------------------------------------------------ tunnel additions

  /** A tunnel port leads to one switch only. */
  lemma TunnelLeadsOneWay(env: Env, x: Dpid, d: Dpid, rs: set<Dpid>, p: PortNo)
    requires p in UpTunnels(env, x, d) && d !in rs
    ensures p !in TunnelPorts(env, x, rs)
  {
  }

  /** The keys of _get_vm_ports. */
  function TenantNetworks(env: Env, d: Dpid): set<NetworkId> {
    set p | p in PortsOf(env.nw, d) && PortsOf(env.nw, d)[p].network.Tenant? :: PortsOf(env.nw, d)[p].network
  }

  lemma CommonAre(env: Env, d: Dpid, r: Dpid)
    ensures CommonNetworks(env, d, r) ==
            set n | n in TenantNetworks(env, d) && n in env.tun.keys && n in TenantNetworks(env, r)
  {
  }

  lemma NothingPassed(env: Env, p: PortNo, t: Table)
    ensures t + TunnelPasses(env, p, {}) == t
  {
  }

  lemma OneMorePass(env: Env, p: PortNo, t: Table, nets: set<NetworkId>, n: NetworkId)
    requires nets <= env.tun.keys.Keys && n in env.tun.keys
    ensures (t + TunnelPasses(env, p, nets))[SrcPass(p, env.tun.keys[n]) := OutputThenLocal({})]
            == t + TunnelPasses(env, p, nets + {n})
  {
  }

  /** The rows of the remote ports seen so far. */
  function MacRows(env: Env, p: PortNo, n: NetworkId, remote: Dpid, seen: set<PortNo>): Table
    requires n in env.tun.keys
  {
    Rows(set q | q in seen && q in PortsOf(env.nw, remote)
           && PortsOf(env.nw, remote)[q].network == n && PortsOf(env.nw, remote)[q].mac.Some?
         :: TunnelMac(env.tun.keys[n], PortsOf(env.nw, remote)[q].mac.value), OutputThenLocal({p}))
  }

  lemma NoMacRow(env: Env, p: PortNo, n: NetworkId, remote: Dpid)
    requires n in env.tun.keys
    ensures MacRows(env, p, n, remote, {}) == map[]
  {
  }

  lemma OneMoreMacRow(env: Env, p: PortNo, n: NetworkId, remote: Dpid, seen: set<PortNo>, q: PortNo)
    requires n in env.tun.keys && q in PortsOf(env.nw, remote)
    ensures var port := PortsOf(env.nw, remote)[q];
            MacRows(env, p, n, remote, seen + {q}) ==
              if port.network == n && port.mac.Some?
              then MacRows(env, p, n, remote, seen)[TunnelMac(env.tun.keys[n], port.mac.value) := OutputThenLocal({p})]
              else MacRows(env, p, n, remote, seen)
  {
  }

  lemma AllMacRows(env: Env, p: PortNo, n: NetworkId, remote: Dpid)
    requires n in env.tun.keys
    ensures MacRows(env, p, n, remote, PortsOf(env.nw, remote).Keys) == TunnelMacs(env, p, {n}, remote)
  {
    assert n in {n};
  }

  lemma NothingFilled(env: Env, d: Dpid, p: PortNo, remote: Dpid, t: Table)
    ensures t + TunnelMacs(env, p, {}, remote) + TunnelFloods(env, d, p, {}) == t
  {
  }

  lemma OneMoreFilled(env: Env, d: Dpid, p: PortNo, remote: Dpid, t: Table, nets: set<NetworkId>, n: NetworkId)
    requires nets <= env.tun.keys.Keys && n in env.tun.keys && n !in nets && Injective(env.tun.keys)
    ensures (t + TunnelMacs(env, p, nets, remote) + TunnelFloods(env, d, p, nets) + TunnelMacs(env, p, {n}, remote))
              [TunnelBroadcast(env.tun.keys[n]) := OutputThenLocal(TunnelPorts(env, d, GetDpids(env.nw, n) - {d}) + {p})]
            == t + TunnelMacs(env, p, nets + {n}, remote) + TunnelFloods(env, d, p, nets + {n})
  {
    hide TunnelPorts, TunnelMacs, TunnelFloods;
    MacsJoin(env, p, remote, nets, n);
    FloodsJoin(env, d, p, nets, n);
    MacsAndFloodsApart(env, d, p, remote, nets, n);
    RowsCommute(t, TunnelMacs(env, p, nets, remote), TunnelMacs(env, p, {n}, remote), TunnelFloods(env, d, p, nets),
                TunnelBroadcast(env.tun.keys[n]),
                OutputThenLocal(TunnelPorts(env, d, GetDpids(env.nw, n) - {d}) + {p}));
  }

  lemma RowsCommute(t: Table, a: Table, b: Table, c: Table, fk: FlowKey, x: Actions)
    requires b.Keys !! c.Keys
    ensures (t + a + c + b)[fk := x] == t + (a + b) + c[fk := x]
  {
  }

  lemma MacsJoin(env: Env, p: PortNo, remote: Dpid, nets: set<NetworkId>, n: NetworkId)
    requires nets <= env.tun.keys.Keys && n in env.tun.keys
    ensures TunnelMacs(env, p, nets + {n}, remote) == TunnelMacs(env, p, nets, remote) + TunnelMacs(env, p, {n}, remote)
  {
  }

  lemma FloodsJoin(env: Env, d: Dpid, p: PortNo, nets: set<NetworkId>, n: NetworkId)
    requires nets <= env.tun.keys.Keys && n in env.tun.keys && n !in nets && Injective(env.tun.keys)
    ensures TunnelFloods(env, d, p, nets + {n}) ==
            TunnelFloods(env, d, p, nets)[TunnelBroadcast(env.tun.keys[n]) :=
              OutputThenLocal(TunnelPorts(env, d, GetDpids(env.nw, n) - {d}) + {p})]
  {
    hide TunnelPorts, TunnelFloods;
    var all, some := TunnelFloods(env, d, p, nets + {n}), TunnelFloods(env, d, p, nets);
    var mine, row := TunnelBroadcast(env.tun.keys[n]), OutputThenLocal(TunnelPorts(env, d, GetDpids(env.nw, n) - {d}) + {p});
    FloodRow(env, d, p, nets + {n}, n);
    forall fk: FlowKey | fk in all && fk != mine ensures fk in some && some[fk] == all[fk] {
      var x := FloodOwner(env, d, p, nets + {n}, fk);
      FloodRow(env, d, p, nets + {n}, x);
      FloodRow(env, d, p, nets, x);
    }
    forall fk: FlowKey | fk in some ensures fk in all {
      var x := FloodOwner(env, d, p, nets, fk);
      FloodRow(env, d, p, nets + {n}, x);
    }
    assert forall fk | fk in all :: fk in some[mine := row] && some[mine := row][fk] == all[fk];
  }

  lemma FloodOwner(env: Env, d: Dpid, p: PortNo, nets: set<NetworkId>, fk: FlowKey) returns (n: NetworkId)
    requires nets <= env.tun.keys.Keys && fk in TunnelFloods(env, d, p, nets)
    ensures n in nets && fk == TunnelBroadcast(env.tun.keys[n])
  {
    n :| n in nets && TunnelBroadcast(env.tun.keys[n]) == fk;
  }

  lemma FloodRow(env: Env, d: Dpid, p: PortNo, nets: set<NetworkId>, n: NetworkId)
    requires nets <= env.tun.keys.Keys && n in nets && Injective(env.tun.keys)
    ensures var fk, rows := TunnelBroadcast(env.tun.keys[n]), TunnelFloods(env, d, p, nets);
            fk in rows && rows[fk] == OutputThenLocal(TunnelPorts(env, d, GetDpids(env.nw, n) - {d}) + {p})
  {
    hide TunnelPorts, FloodPorts;
    FloodOfOne(env, d, nets, n);
  }

  /** Injective keys: the flood ports of a key are those of its one network. */
  lemma FloodOfOne(env: Env, d: Dpid, nets: set<NetworkId>, n: NetworkId)
    requires nets <= env.tun.keys.Keys && n in nets && Injective(env.tun.keys)
    ensures FloodPorts(env, d, nets, Some(env.tun.keys[n])) == TunnelPorts(env, d, GetDpids(env.nw, n) - {d})
  {
    hide TunnelPorts;
  }

  lemma MacsAndFloodsApart(env: Env, d: Dpid, p: PortNo, remote: Dpid, nets: set<NetworkId>, n: NetworkId)
    requires nets <= env.tun.keys.Keys && n in env.tun.keys
    ensures TunnelMacs(env, p, {n}, remote).Keys !! TunnelFloods(env, d, p, nets).Keys
    ensures forall x | x in env.tun.keys :: TunnelBroadcast(env.tun.keys[x]) !in TunnelMacs(env, p, {n}, remote)
    ensures forall x | x in env.tun.keys :: TunnelBroadcast(env.tun.keys[x]) !in TunnelMacs(env, p, nets, remote)
  {
    forall fk | fk in TunnelFloods(env, d, p, nets) ensures fk.priority == TUNNEL_OUT_PRI_BROADCAST {}
    forall fk | fk in TunnelMacs(env, p, {n}, remote) || fk in TunnelMacs(env, p, nets, remote) ensures fk.priority == TUNNEL_OUT_PRI_MAC {}
  }
}
