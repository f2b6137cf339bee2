/** LOCAL_OUT kept incrementally against LOCAL_OUT compiled afresh. */
module OverlayLocal {
  import opened Wrappers
  import opened TenantStore
  import opened TunnelStore
  import opened Overlay
  import opened OverlaySystem
  import opened OverlayIsolation

  /** The ports of a tenant on a switch that packets should reach: the tenant
      has a key, the switch is connected, the port is active. */
  function Live(env: Env, n: NetworkId, d: Dpid): set<PortNo> {
    if n.Tenant? && n in env.tun.keys && d in env.connected then Active(env, n, d) else {}
  }

  /** The LOCAL_OUT rows of one key. */
  function KeyRows(t: Table, k: Key): Table {
    map fk: FlowKey | fk in t && fk.table == LOCAL_OUT_TABLE && fk.rule.tunId == Some(k) :: t[fk]
  }

  /** What the live ports of a tenant call for, compiled afresh: one row per MAC,
      one for broadcast, and a drop rule for the rest. */
  function Compiled(env: Env, n: NetworkId, d: Dpid): Table {
    var ports := Live(env, n, d);
    if ports == {} then map[]
    else
      var k := env.tun.keys[n];
      Unicast(env, n, d, k)[LocalBroadcast(k) := Output(ports)][LocalDrop(k) := DROP]
  }

  function Unicast(env: Env, n: NetworkId, d: Dpid, k: Key): Table {
    var keys := set p | p in Active(env, n, d) :: LocalMac(k, PortsOf(env.nw, d)[p].mac.value);
    map fk | fk in keys :: Output(WithMac(env, n, d, fk.rule.dlDst.GetOr(0)))
  }

  predicate OwnedBy(keys: map<NetworkId, Key>, n: NetworkId, k: Key) {
    n.Tenant? && n in keys && keys[n] == k
  }

  /** LOCAL_OUT of a switch holds exactly the rows its live ports call for:
      those of each tenant, and none under a key that no tenant owns. */
  ghost predicate LocalFromScratch(env: Env, d: Dpid, t: Table) {
    && (forall n | n in env.tun.keys && n.Tenant? :: KeyRows(t, env.tun.keys[n]) == Compiled(env, n, d))
    && (forall k :: KeyRows(t, k) != map[] ==> exists n :: OwnedBy(env.tun.keys, n, k))
  }

  ghost predicate FromScratch(w: World) {
    forall d | d in w.flows :: LocalFromScratch(w.env, d, w.flows[d])
  }

  // -------------------------------------------------- one tenant at a time

  function Holders(env: Env, d: Dpid, handled: set<PortNo>, m: Mac): set<PortNo> {
    set p | p in handled && p in PortsOf(env.nw, d) && PortsOf(env.nw, d)[p].mac == Some(m)
  }

  function OutputIfAny(ps: set<PortNo>): Option<Actions> {
    if ps == {} then None else Some(Output(ps))
  }

  /** The rows of key `k`: unicast for the ports handled so far, broadcast to
      `flood`, and the drop rule if `drop`. */
  ghost predicate LocalState(env: Env, d: Dpid, k: Key, t: Table, handled: set<PortNo>, flood: set<PortNo>, drop: bool) {
    && (forall m :: Lookup(t, LocalMac(k, m)) == OutputIfAny(Holders(env, d, handled, m)))
    && Lookup(t, LocalBroadcast(k)) == OutputIfAny(flood)
    && Lookup(t, LocalDrop(k)) == if drop then Some(DROP) else None
  }

  /** On one switch no MAC sits on two ports of a network. */
  ghost predicate UniqueMacs(env: Env, n: NetworkId, d: Dpid) {
    forall p, q | p in Active(env, n, d) && q in Active(env, n, d) &&
                  PortsOf(env.nw, d)[p].mac == PortsOf(env.nw, d)[q].mac :: p == q
  }

  /** Rows of another table or another key do not disturb a key's rows. */
  predicate Elsewhere(fk: FlowKey, k: Key) {
    fk.table != LOCAL_OUT_TABLE || fk.rule.tunId != Some(k)
  }

  lemma WriteElsewhere(t: Table, fk: FlowKey, a: Actions, k: Key)
    requires Elsewhere(fk, k)
    ensures KeyRows(t[fk := a], k) == KeyRows(t, k)
  {
  }

  lemma MergeElsewhere(t: Table, t': Table, k: Key)
    requires forall fk | fk in t' :: Elsewhere(fk, k)
    ensures KeyRows(t + t', k) == KeyRows(t, k)
  {
  }

  lemma DeleteElsewhere(t: Table, t': Table, k: Key)
    requires forall fk | fk in t' :: fk in t && t'[fk] == t[fk]
    requires forall fk | fk in t && fk !in t' :: Elsewhere(fk, k)
    ensures KeyRows(t', k) == KeyRows(t, k)
  {
  }

  lemma UpstreamElsewhere(env: Env, t: Table, n: NetworkId, k: Key, at: PortId, m: Mac, k': Key)
    ensures KeyRows(AddUpstream(env, t, n, k, at, m), k') == KeyRows(t, k')
  {
    var d, rs := at.dpid, GetDpids(env.nw, n) - {at.dpid};
    var first, ports := |Active(env, n, d)| == 1, TunnelPorts(env, d, rs);
    MergeElsewhere(t, PassAll(k, ports), k');
    var t1 := if first then t + PassAll(k, ports) else t;
    MergeElsewhere(t1, RemoteMacs(env, n, k, d, rs), k');
    var t2 := t1 + RemoteMacs(env, n, k, d, rs);
    WriteElsewhere(t2, TunnelPass(k), OutputThenLocal({}), k');
    WriteElsewhere(t2[TunnelPass(k) := OutputThenLocal({})], TunnelBroadcast(k), OutputThenLocal(ports), k');
    var t3 := if first then t2[TunnelPass(k) := OutputThenLocal({})][TunnelBroadcast(k) := OutputThenLocal(ports)] else t2;
    WriteElsewhere(t3, SrcVm(at.port, m), EnterTunnel(k), k');
    WriteElsewhere(t3[SrcVm(at.port, m) := EnterTunnel(k)], SrcDrop(at.port), DROP, k');
  }

  lemma OtherTenantLocal(env: Env, t: Table, n: NetworkId, k: Key, at: PortId, m: Mac, k': Key)
    requires k' != k
    ensures KeyRows(AddHere(env, t, n, k, at, m), k') == KeyRows(t, k')
    ensures KeyRows(DelHere(env, t, n, k, at, m), k') == KeyRows(t, k')
  {
    hide Active, WithMac, AddUpstream;
    var d, active := at.dpid, Active(env, n, at.dpid);
    var t1 := t[LocalMac(k, m) := Output(WithMac(env, n, d, m))];
    WriteElsewhere(t, LocalMac(k, m), Output(WithMac(env, n, d, m)), k');
    WriteElsewhere(t1, LocalBroadcast(k), Output(active), k');
    WriteElsewhere(t1[LocalBroadcast(k) := Output(active)], LocalDrop(k), DROP, k');
    UpstreamElsewhere(env, AddLocal(env, t, n, k, d, m), n, k, at, m, k');

    var t2 := Delete(t, SRC_TABLE, ANY.(inPort := Some(at.port)));
    DeleteElsewhere(t, t2, k');
    DeleteElsewhere(t2, DelLast(t2, k), k');
    var same := WithMac(env, n, d, m) - {at.port};
    WriteElsewhere(t2, LocalMac(k, m), Output(same), k');
    DeleteElsewhere(t2, DeleteStrictTo(t2, LocalMac(k, m), {at.port}), k');
    var t3 := if same != {} then t2[LocalMac(k, m) := Output(same)] else DeleteStrictTo(t2, LocalMac(k, m), {at.port});
    WriteElsewhere(t3, LocalBroadcast(k), Output(active - {at.port}), k');
  }

  lemma RemoteLocal(env: Env, t: Table, x: Dpid, n: NetworkId, k: Key, at: PortId, m: Mac, k': Key)
    ensures KeyRows(AddThere(env, t, x, n, k, at, m), k') == KeyRows(t, k')
    ensures KeyRows(DelThere(env, t, x, n, k, at, m), k') == KeyRows(t, k')
  {
    var ways, rs := UpTunnels(env, x, at.dpid), GetDpids(env.nw, n) - {at.dpid};
    var a := OutputThenLocal(MacTunnels(env, x, n, at, m) + ways);
    WriteElsewhere(t, TunnelMac(k, m), a, k');
    MergeElsewhere(t[TunnelMac(k, m) := a], PassAll(k, ways), k');
    WriteElsewhere(t[TunnelMac(k, m) := a] + PassAll(k, ways), TunnelBroadcast(k),
                   OutputThenLocal(TunnelPorts(env, x, rs) + ways), k');
    DelTunnelElsewhere(env, t, x, n, k, at.dpid, k');
    DelWayElsewhere(env, t, x, n, k, at, m, k');
    DelWayElsewhere(env, DelTunnel(env, t, x, n, k, at.dpid), x, n, k, at, m, k');
  }

  lemma DelTunnelElsewhere(env: Env, t: Table, x: Dpid, n: NetworkId, k: Key, d: Dpid, k': Key)
    ensures KeyRows(DelTunnel(env, t, x, n, k, d), k') == KeyRows(t, k')
  {
    var ways, ports := UpTunnels(env, x, d), TunnelPorts(env, x, GetDpids(env.nw, n) - {d});
    var t1 := t - (set p | p in ways :: SrcPass(p, k)) - (set p | p in ways :: SrcDrop(p));
    DeleteElsewhere(t, t1, k');
    DeleteElsewhere(t1, DeleteStrict(t1, TunnelBroadcast(k)), k');
    WriteElsewhere(t1, TunnelBroadcast(k), OutputThenLocal(ports), k');
  }

  lemma DelWayElsewhere(env: Env, t: Table, x: Dpid, n: NetworkId, k: Key, at: PortId, m: Mac, k': Key)
    ensures KeyRows(DelWay(env, t, x, n, k, at, m), k') == KeyRows(t, k')
  {
    WriteElsewhere(t, TunnelMac(k, m), OutputThenLocal(MacTunnels(env, x, n, at, m)), k');
    DeleteElsewhere(t, DeleteStrictTo(t, TunnelMac(k, m), UpTunnels(env, x, at.dpid)), k');
  }

  lemma TunnelLocal(env: Env, t: Table, at: PortId, remote: Dpid, k': Key)
    ensures KeyRows(TunnelAddHere(env, t, at, remote), k') == KeyRows(t, k')
    ensures KeyRows(DeleteStrict(t, SrcDrop(at.port)), k') == KeyRows(t, k')
  {
    var nets := CommonNetworks(env, at.dpid, remote);
    var t1 := t[SrcDrop(at.port) := DROP];
    WriteElsewhere(t, SrcDrop(at.port), DROP, k');
    MergeElsewhere(t1, TunnelPasses(env, at.port, nets), k');
    MergeElsewhere(t1 + TunnelPasses(env, at.port, nets), TunnelMacs(env, at.port, nets, remote), k');
    MergeElsewhere(t1 + TunnelPasses(env, at.port, nets) + TunnelMacs(env, at.port, nets, remote),
                   TunnelFloods(env, at.dpid, at.port, nets), k');
    DeleteElsewhere(t, DeleteStrict(t, SrcDrop(at.port)), k');
  }

  // ------------------------------------------------------ one event at a time

  lemma LocalStateFrame(env: Env, d: Dpid, k: Key, t: Table, t': Table, handled: set<PortNo>, flood: set<PortNo>, drop: bool)
    requires KeyRows(t, k) == KeyRows(t', k) && LocalState(env, d, k, t, handled, flood, drop)
    ensures LocalState(env, d, k, t', handled, flood, drop)
  {
    forall fk: FlowKey | !Elsewhere(fk, k) ensures Lookup(t', fk) == Lookup(t, fk) {
      assert fk in t <==> fk in KeyRows(t, k);
      assert fk in t' <==> fk in KeyRows(t', k);
    }
    forall m ensures Lookup(t', LocalMac(k, m)) == OutputIfAny(Holders(env, d, handled, m)) {
      assert !Elsewhere(LocalMac(k, m), k);
    }
    assert !Elsewhere(LocalBroadcast(k), k) && !Elsewhere(LocalDrop(k), k);
  }

  lemma AddHereLocal(env: Env, t: Table, n: NetworkId, k: Key, at: PortId, m: Mac,
                     handled: set<PortNo>, flood: set<PortNo>, drop: bool)
    requires UniqueMacs(env, n, at.dpid) && handled <= Active(env, n, at.dpid)
    requires at.port in WithMac(env, n, at.dpid, m)
    requires LocalState(env, at.dpid, k, t, handled, flood, drop)
    ensures var active := Active(env, n, at.dpid);
            LocalState(env, at.dpid, k, AddHere(env, t, n, k, at, m), handled + {at.port}, active, drop || |active| == 1)
  {
    var d, active, t' := at.dpid, Active(env, n, at.dpid), AddLocal(env, t, n, k, at.dpid, m);
    forall m' ensures Lookup(t', LocalMac(k, m')) == OutputIfAny(Holders(env, d, handled + {at.port}, m')) {
      assert Lookup(t, LocalMac(k, m')) == OutputIfAny(Holders(env, d, handled, m'));
      if m' == m {
        assert WithMac(env, n, d, m) == {at.port} == Holders(env, d, handled + {at.port}, m);
      } else {
        assert Holders(env, d, handled + {at.port}, m') == Holders(env, d, handled, m');
      }
    }
    UpstreamElsewhere(env, t', n, k, at, m, k);
    LocalStateFrame(env, d, k, t', AddHere(env, t, n, k, at, m), handled + {at.port}, active, drop || |active| == 1);
  }

  /** Before a port goes, its unicast row may still be there. */
  ghost predicate LocalStateBut(env: Env, d: Dpid, k: Key, t: Table, handled: set<PortNo>, p: PortNo, m: Mac) {
    && (forall m' | m' != m :: Lookup(t, LocalMac(k, m')) == OutputIfAny(Holders(env, d, handled, m')))
    && (Lookup(t, LocalMac(k, m)) == None || Lookup(t, LocalMac(k, m)) == Some(Output({p})))
    && (handled != {} ==> Lookup(t, LocalDrop(k)) == Some(DROP))
  }

  lemma DelHereLocal(env: Env, t: Table, n: NetworkId, k: Key, at: PortId, m: Mac)
    requires WithMac(env, n, at.dpid, m) - {at.port} == {} && at.port !in Active(env, n, at.dpid)
    requires LocalStateBut(env, at.dpid, k, t, Active(env, n, at.dpid), at.port, m)
    ensures var rest := Active(env, n, at.dpid);
            LocalState(env, at.dpid, k, DelHere(env, t, n, k, at, m), rest, rest, rest != {})
  {
    var d, rest := at.dpid, Active(env, n, at.dpid);
    var t1 := Delete(t, SRC_TABLE, ANY.(inPort := Some(at.port)));
    assert rest - {at.port} == rest && Holders(env, d, rest, m) == {};
    if rest == {} {
      assert forall m' :: Holders(env, d, rest, m') == {};
      assert forall fk | fk in DelLast(t1, k) :: Elsewhere(fk, k);
    } else {
      var t2 := DeleteStrictTo(t1, LocalMac(k, m), {at.port});
      assert Lookup(t2, LocalMac(k, m)) == None;
      forall m' ensures Lookup(DelLocal(env, t1, n, k, at, m), LocalMac(k, m')) == OutputIfAny(Holders(env, d, rest, m')) {
        assert m' != m ==> Lookup(t2, LocalMac(k, m')) == Lookup(t, LocalMac(k, m'));
      }
    }
  }

  /** Shaped rows under key `k` are determined by the three kinds of lookup. */
  lemma StateIsCompiled(env: Env, v: View, n: NetworkId, d: Dpid, t: Table)
    requires n in env.tun.keys && n.Tenant? && d in env.connected && TableOk(v, d, t)
    ensures var k, live := env.tun.keys[n], Live(env, n, d);
            LocalState(env, d, k, t, live, live, live != {}) <==> KeyRows(t, k) == Compiled(env, n, d)
  {
    var k, live := env.tun.keys[n], Live(env, n, d);
    assert forall m :: Holders(env, d, live, m) == WithMac(env, n, d, m);
    CompiledLookups(env, n, d);
    if LocalState(env, d, k, t, live, live, live != {}) {
      forall fk: FlowKey ensures Lookup(KeyRows(t, k), fk) == Lookup(Compiled(env, n, d), fk) {
        if fk in t && !Elsewhere(fk, k) { assert RowOk(v, d, fk, t[fk]); }
      }
      SameLookups(KeyRows(t, k), Compiled(env, n, d));
    }
    if KeyRows(t, k) == Compiled(env, n, d) {
      forall fk: FlowKey | !Elsewhere(fk, k) ensures Lookup(t, fk) == Lookup(Compiled(env, n, d), fk) {
        assert fk in t <==> fk in KeyRows(t, k);
      }
      forall m ensures Lookup(t, LocalMac(k, m)) == OutputIfAny(Holders(env, d, live, m)) {
        assert !Elsewhere(LocalMac(k, m), k);
      }
      assert !Elsewhere(LocalBroadcast(k), k) && !Elsewhere(LocalDrop(k), k);
    }
  }

  lemma SameLookups(t: Table, t': Table)
    requires forall fk :: Lookup(t, fk) == Lookup(t', fk)
    ensures t == t'
  {
    assert forall fk :: fk in t <==> Lookup(t, fk).Some?;
    assert forall fk :: fk in t' <==> Lookup(t', fk).Some?;
  }

  lemma CompiledLookups(env: Env, n: NetworkId, d: Dpid)
    requires n in env.tun.keys && n.Tenant? && d in env.connected
    ensures var k, live, c := env.tun.keys[n], Live(env, n, d), Compiled(env, n, d);
            && (forall m :: Lookup(c, LocalMac(k, m)) == OutputIfAny(WithMac(env, n, d, m)))
            && Lookup(c, LocalBroadcast(k)) == OutputIfAny(live)
            && Lookup(c, LocalDrop(k)) == (if live != {} then Some(DROP) else None)
            && (forall fk | fk in c :: !Elsewhere(fk, k) &&
                  (fk == LocalBroadcast(k) || fk == LocalDrop(k) || exists m :: fk == LocalMac(k, m)))
  {
    var k, live, c := env.tun.keys[n], Live(env, n, d), Compiled(env, n, d);
    forall m: Mac ensures Lookup(c, LocalMac(k, m)) == OutputIfAny(WithMac(env, n, d, m)) {
      if LocalMac(k, m) in Unicast(env, n, d, k) {
        var p :| p in Active(env, n, d) && LocalMac(k, PortsOf(env.nw, d)[p].mac.value) == LocalMac(k, m);
        assert LocalMac(k, m).rule.dlDst == Some(m);
        assert p in WithMac(env, n, d, m);
      }
      if p :| p in WithMac(env, n, d, m) {
        assert p in Active(env, n, d) && LocalMac(k, PortsOf(env.nw, d)[p].mac.value) == LocalMac(k, m);
        assert LocalMac(k, m) in Unicast(env, n, d, k);
      }
      assert live == {} ==> WithMac(env, n, d, m) == {};
    }
  }

  // ----------------------------------------------------- a batch of additions

  function EventPorts(evs: seq<GreEvent>, n: NetworkId, d: Dpid): set<PortNo> {
    set ev | ev in evs && ev.VmPort? && ev.add && ev.n == n && ev.at.dpid == d :: ev.at.port
  }

  /** What one addition does to the rows of a tenant on a switch. */
  ghost predicate Advances(env: Env, n: NetworkId, d: Dpid, k: Key, t: Table, ps: set<PortNo>,
                           handled: set<PortNo>, flood: set<PortNo>, drop: bool) {
    LocalState(env, d, k, t, handled + ps, if ps == {} then flood else Active(env, n, d),
               drop || (ps != {} && |Active(env, n, d)| == 1))
  }

  lemma Unmoved(env: Env, n: NetworkId, d: Dpid, k: Key, t: Table, t': Table,
                handled: set<PortNo>, flood: set<PortNo>, drop: bool)
    requires KeyRows(t, k) == KeyRows(t', k) && LocalState(env, d, k, t, handled, flood, drop)
    ensures Advances(env, n, d, k, t', {}, handled, flood, drop)
  {
    assert handled + {} == handled;
    LocalStateFrame(env, d, k, t, t', handled, flood, drop);
  }

  lemma HandleLocal(env: Env, ever: set<PortId>, flows: Flows, ev: GreEvent, n: NetworkId, d: Dpid, k: Key,
                    handled: set<PortNo>, flood: set<PortNo>, drop: bool)
    requires OwnedBy(env.tun.keys, n, k) && d in flows && Injective(env.tun.keys)
    requires Fits(env, ever, ev) && !IsVmDel(ev)
    requires UniqueMacs(env, n, d) && handled <= Active(env, n, d)
    requires LocalState(env, d, k, flows[d], handled, flood, drop)
    ensures Advances(env, n, d, k, Handle(env, flows, ev)[d], EventPorts([ev], n, d), handled, flood, drop)
    ensures EventPorts([ev], n, d) <= Active(env, n, d)
  {
    var t, t' := flows[d], Handle(env, flows, ev)[d];
    if ev.VmPort? && ev.n == n && ev.at.dpid == d {
      assert EventPorts([ev], n, d) == {ev.at.port} by { assert ev in [ev]; }
      assert ev.at.port in WithMac(env, n, d, ev.m);
      AddHereLocal(env, t, n, k, ev.at, ev.m, handled, flood, drop);
    } else {
      assert EventPorts([ev], n, d) == {};
      OtherEventLocal(env, flows, ev, d, k);
      Unmoved(env, n, d, k, t, t', handled, flood, drop);
    }
  }

  lemma VmAddLocal(env: Env, flows: Flows, n: NetworkId, k: Key, at: PortId, m: Mac, d: Dpid, k': Key)
    requires d in flows && (at.dpid == d ==> k != k')
    ensures KeyRows(VmPortAdd(env, flows, n, k, at, m)[d], k') == KeyRows(flows[d], k')
  {
    if at.dpid == d { OtherTenantLocal(env, flows[d], n, k, at, m, k'); }
    else { RemoteLocal(env, flows[d], d, n, k, at, m, k'); }
  }

  lemma VmDelLocal(env: Env, flows: Flows, n: NetworkId, k: Key, at: PortId, m: Mac, d: Dpid, k': Key)
    requires d in flows && (at.dpid == d ==> k != k')
    ensures KeyRows(VmPortDel(env, flows, n, k, at, m)[d], k') == KeyRows(flows[d], k')
  {
    if at.dpid == d { OtherTenantLocal(env, flows[d], n, k, at, m, k'); }
    else { RemoteLocal(env, flows[d], d, n, k, at, m, k'); }
  }

  lemma TunnelPortLocal(env: Env, flows: Flows, at: PortId, remote: Dpid, d: Dpid, k': Key)
    requires d in flows
    ensures KeyRows(TunnelPortAdd(env, flows, at, remote)[d], k') == KeyRows(flows[d], k')
    ensures KeyRows(TunnelPortDel(flows, at)[d], k') == KeyRows(flows[d], k')
  {
    TunnelLocal(env, flows[d], at, remote, k');
  }

  /** Events under other keys, on other switches and of tunnels pass by. */
  lemma OtherEventLocal(env: Env, flows: Flows, ev: GreEvent, d: Dpid, k: Key)
    requires d in flows && (ev.VmPort? && ev.at.dpid == d ==> ev.k != k)
    ensures KeyRows(Handle(env, flows, ev)[d], k) == KeyRows(flows[d], k)
  {
    match ev
    case VmPort(n', k', at, m, true) => VmAddLocal(env, flows, n', k', at, m, d, k);
    case VmPort(n', k', at, m, false) => VmDelLocal(env, flows, n', k', at, m, d, k);
    case TunnelPort(at, remote, _) => TunnelPortLocal(env, flows, at, remote, d, k);
  }

  lemma {:induction false} BatchLocal(env: Env, ever: set<PortId>, flows: Flows, evs: seq<GreEvent>, n: NetworkId, d: Dpid, k: Key,
                                      handled: set<PortNo>, flood: set<PortNo>, drop: bool)
    requires OwnedBy(env.tun.keys, n, k) && d in flows && Injective(env.tun.keys)
    requires forall ev | ev in evs :: Fits(env, ever, ev) && !IsVmDel(ev)
    requires UniqueMacs(env, n, d) && handled <= Active(env, n, d)
    requires LocalState(env, d, k, flows[d], handled, flood, drop)
    ensures d in HandleAll(env, flows, evs)
    ensures Advances(env, n, d, k, HandleAll(env, flows, evs)[d], EventPorts(evs, n, d), handled, flood, drop)
    decreases |evs|
  {
    if evs == [] {
      Unmoved(env, n, d, k, flows[d], flows[d], handled, flood, drop);
    } else {
      var ps0, ps1 := EventPorts([evs[0]], n, d), EventPorts(evs[1..], n, d);
      SplitEventPorts(evs, n, d);
      HandleLocal(env, ever, flows, evs[0], n, d, k, handled, flood, drop);
      BatchLocal(env, ever, Handle(env, flows, evs[0]), evs[1..], n, d, k, handled + ps0,
                 if ps0 == {} then flood else Active(env, n, d), drop || (ps0 != {} && |Active(env, n, d)| == 1));
      assert handled + ps0 + ps1 == handled + (ps0 + ps1);
    }
  }

  lemma SplitEventPorts(evs: seq<GreEvent>, n: NetworkId, d: Dpid)
    requires evs != []
    ensures EventPorts(evs, n, d) == EventPorts([evs[0]], n, d) + EventPorts(evs[1..], n, d)
  {
    assert evs == [evs[0]] + evs[1..];
  }

  /** No event writes rows under a key nobody owns. */
  lemma {:induction false} UnownedUntouched(env: Env, ever: set<PortId>, flows: Flows, evs: seq<GreEvent>, d: Dpid, k: Key)
    requires d in flows && forall ev | ev in evs :: Fits(env, ever, ev)
    requires forall n :: !OwnedBy(env.tun.keys, n, k)
    ensures d in HandleAll(env, flows, evs) && KeyRows(HandleAll(env, flows, evs)[d], k) == KeyRows(flows[d], k)
    decreases |evs|
  {
    if evs != [] {
      assert Fits(env, ever, evs[0]) && (evs[0].VmPort? ==> OwnedBy(env.tun.keys, evs[0].n, evs[0].k));
      OtherEventLocal(env, flows, evs[0], d, k);
      UnownedUntouched(env, ever, Handle(env, flows, evs[0]), evs[1..], d, k);
    }
  }

  lemma RareMeansUnique(w: World, n: NetworkId, d: Dpid)
    requires EnvOk(w)
    ensures UniqueMacs(w.env, n, d)
  {
    forall p, q | p in Active(w.env, n, d) && q in Active(w.env, n, d)
                  && PortsOf(w.env.nw, d)[p].mac == PortsOf(w.env.nw, d)[q].mac
      ensures p == q
    {
      var m := PortsOf(w.env.nw, d)[p].mac.value;
      assert MacAgrees(w.env.nw, n, m, PortId(d, p)) && MacAgrees(w.env.nw, n, m, PortId(d, q));
      assert RareMac(w.env.nw.macs, n, PortId(d, p), m);
    }
  }

  // ----------------------------------------------------------- whole steps

  /** The step makes two or more ports of a tenant live at once on a switch
      where none was. */
  ghost predicate Crowds(w: World, step: Step) {
    exists n, d :: CrowdsAt(w, step, n, d)
  }

  predicate CrowdsAt(w: World, step: Step, n: NetworkId, d: Dpid) {
    Live(w.env, n, d) == {} && |Live(EnvAfter(w.env, step), n, d)| >= 2
  }

  /** The flows the step's events start from: joining switches are wiped. */
  function FlowsBefore(w: World, step: Step): Flows {
    if step.SwitchEnter? then w.flows[step.d := map[]] else w.flows
  }

  /** The step only adds: every port that is live afterwards was so before, or
      is announced by one of the step's events. */
  ghost predicate OnlyAdds(w: World, step: Step) {
    && (forall ev | ev in EventsOf(w.env, step) :: !IsVmDel(ev))
    && (forall n, d, p | p in Live(w.env, n, d) ::
          p in Live(EnvAfter(w.env, step), n, d)
          && PortAt(EnvAfter(w.env, step).nw.dpids, PortId(d, p)) == PortAt(w.env.nw.dpids, PortId(d, p)))
    && (forall n, d :: Live(EnvAfter(w.env, step), n, d) <= Live(w.env, n, d) + EventPorts(EventsOf(w.env, step), n, d))
  }

  /** Before an adding step, seen from the environment after it. */
  lemma RowsBefore(w: World, step: Step, n: NetworkId, d: Dpid, k: Key)
    requires WorldOk(w) && Allowed(w, step) && FromScratch(w) && OnlyAdds(w, step)
    requires OwnedBy(EnvAfter(w.env, step).tun.keys, n, k) && d in FlowsBefore(w, step)
    ensures var live := Live(w.env, n, d);
            LocalState(EnvAfter(w.env, step), d, k, FlowsBefore(w, step)[d], live, live, live != {})
  {
    var env', live, t := EnvAfter(w.env, step), Live(w.env, n, d), FlowsBefore(w, step)[d];
    if OwnedBy(w.env.tun.keys, n, k) && d in w.env.connected {
      StateIsCompiled(w.env, ViewOf(w), n, d, t);
      forall p | p in live ensures PortAt(env'.nw.dpids, PortId(d, p)) == PortAt(w.env.nw.dpids, PortId(d, p)) {}
      SameHolders(w.env, env', d, k, t, live, live, live != {});
    } else {
      NoRowsYet(w, step, n, d, k);
      EmptyRows(env', d, k, t);
    }
  }

  lemma SameHolders(env: Env, env': Env, d: Dpid, k: Key, t: Table, handled: set<PortNo>, flood: set<PortNo>, drop: bool)
    requires forall p | p in handled :: PortAt(env'.nw.dpids, PortId(d, p)) == PortAt(env.nw.dpids, PortId(d, p))
    requires LocalState(env, d, k, t, handled, flood, drop)
    ensures LocalState(env', d, k, t, handled, flood, drop)
  {
    forall m: Mac ensures Holders(env', d, handled, m) == Holders(env, d, handled, m) {
      forall p | p in handled
        ensures p in PortsOf(env.nw, d) <==> p in PortsOf(env'.nw, d)
        ensures p in PortsOf(env.nw, d) ==> PortsOf(env'.nw, d)[p] == PortsOf(env.nw, d)[p]
      {
        assert PortAt(env'.nw.dpids, PortId(d, p)) == PortAt(env.nw.dpids, PortId(d, p));
      }
    }
  }

  /** Rows under a key on a connected switch: some tenant owned it before. */
  lemma RowsHadOwner(w: World, step: Step, d: Dpid, k: Key)
    requires FromScratch(w) && Allowed(w, step) && d in FlowsBefore(w, step)
    requires KeyRows(FlowsBefore(w, step)[d], k) != map[]
    ensures exists n :: OwnedBy(w.env.tun.keys, n, k) && OwnedBy(EnvAfter(w.env, step).tun.keys, n, k)
  {
    hide KeyRows, Compiled;
    var t := FlowsBefore(w, step)[d];
    assert step.SwitchEnter? && step.d == d ==> t == map[] && KeyRows(t, k) == map[] by { NoRows(k); }
    assert d in w.flows && LocalFromScratch(w.env, d, w.flows[d]);
    var n :| OwnedBy(w.env.tun.keys, n, k);
    KeysKept(w, step, n, k);
  }

  lemma NoRows(k: Key)
    ensures KeyRows(map[], k) == map[]
  {
  }

  lemma KeysKept(w: World, step: Step, n: NetworkId, k: Key)
    requires OwnedBy(w.env.tun.keys, n, k)
    ensures OwnedBy(EnvAfter(w.env, step).tun.keys, n, k)
  {
    hide Apply;
  }

  /** A key registered in this step, or a switch that joins, has no rows. */
  lemma NoRowsYet(w: World, step: Step, n: NetworkId, d: Dpid, k: Key)
    requires WorldOk(w) && Allowed(w, step) && FromScratch(w)
    requires OwnedBy(EnvAfter(w.env, step).tun.keys, n, k) && d in FlowsBefore(w, step)
    requires !OwnedBy(w.env.tun.keys, n, k) || d !in w.env.connected
    ensures Live(w.env, n, d) == {} && KeyRows(FlowsBefore(w, step)[d], k) == map[]
  {
    hide KeyRows, Compiled, Active, EventsOf, LocalFromScratch, HandleAll;
    NoRows(k);
    if d in w.env.connected && KeyRows(FlowsBefore(w, step)[d], k) != map[] {
      RowsHadOwner(w, step, d, k);
      AllowedKeepsEnv(w, step);
    }
    assert n in w.env.tun.keys ==> OwnedBy(EnvAfter(w.env, step).tun.keys, n, w.env.tun.keys[n]) by {
      if n in w.env.tun.keys { KeysKept(w, step, n, w.env.tun.keys[n]); }
    }
  }

  lemma EmptyRows(env: Env, d: Dpid, k: Key, t: Table)
    requires KeyRows(t, k) == map[]
    ensures LocalState(env, d, k, t, {}, {}, false)
  {
    forall fk: FlowKey | !Elsewhere(fk, k) ensures fk !in t { assert fk !in KeyRows(t, k); }
    forall m: Mac ensures Lookup(t, LocalMac(k, m)) == OutputIfAny(Holders(env, d, {}, m)) {
      assert !Elsewhere(LocalMac(k, m), k) && Holders(env, d, {}, m) == {};
    }
    assert !Elsewhere(LocalBroadcast(k), k) && !Elsewhere(LocalDrop(k), k);
  }

  /** One tenant's rows on one switch after an adding step. */
  lemma RowsAfter(w: World, step: Step, n: NetworkId, d: Dpid, k: Key)
    requires WorldOk(w) && Allowed(w, step) && FromScratch(w) && OnlyAdds(w, step)
    requires OwnedBy(EnvAfter(w.env, step).tun.keys, n, k) && d in After(w, step).flows
    ensures var live, live' := Live(w.env, n, d), Live(After(w, step).env, n, d);
            LocalState(After(w, step).env, d, k, After(w, step).flows[d], live', live', live != {} || |live'| == 1)
  {
    hide KeyRows, Active, EventsOf, EnvAfter, Allowed, FromScratch, HandleAll, LocalState, EventPorts;
    var w', evs, flows := After(w, step), EventsOf(w.env, step), FlowsBefore(w, step);
    var live, live', ps := Live(w.env, n, d), Live(w'.env, n, d), EventPorts(evs, n, d);
    StepKeepsFlows(w, step);
    HandleAllKeys(w'.env, flows, evs);
    RareMeansUnique(w', n, d);
    RowsBefore(w, step, n, d, k);
    assert live <= live' && live' == Active(w'.env, n, d) by { assert forall p | p in live :: p in live'; }
    BatchLocal(w'.env, w'.ever, flows, evs, n, d, k, live, live, live != {});
    EventPortsLive(w'.env, w'.ever, evs, n, d);
    assert live + ps == live';
    if ps == {} { assert live' == live; }
    if live == {} && |live'| == 1 { assert ps != {}; }
  }

  /** One tenant on one switch after an adding step: freshly compiled, unless
      the step crowded it. */
  lemma TenantAfter(w: World, step: Step, n: NetworkId, d: Dpid, k: Key)
    requires WorldOk(w) && Allowed(w, step) && FromScratch(w) && OnlyAdds(w, step)
    requires OwnedBy(EnvAfter(w.env, step).tun.keys, n, k) && d in After(w, step).flows
    ensures KeyRows(After(w, step).flows[d], k) == Compiled(After(w, step).env, n, d) <==> !CrowdsAt(w, step, n, d)
  {
    var w' := After(w, step);
    StepKeepsFlows(w, step);
    RowsAfter(w, step, n, d, k);
    StateIsCompiled(w'.env, ViewOf(w'), n, d, w'.flows[d]);
    if |Live(w'.env, n, d)| == 0 { assert Live(w'.env, n, d) == {}; }
    if Live(w.env, n, d) != {} {
      var p :| p in Live(w.env, n, d);
      assert p in Live(w'.env, n, d);
    }
  }

  lemma EventPortsLive(env: Env, ever: set<PortId>, evs: seq<GreEvent>, n: NetworkId, d: Dpid)
    requires d in env.connected && n.Tenant? && n in env.tun.keys
    requires forall ev | ev in evs :: Fits(env, ever, ev)
    ensures EventPorts(evs, n, d) <= Live(env, n, d)
  {
    forall p | p in EventPorts(evs, n, d) ensures p in Live(env, n, d) {
      var ev :| ev in evs && ev.VmPort? && ev.add && ev.n == n && ev.at.dpid == d && ev.at.port == p;
      assert Fits(env, ever, ev) && ev.at == PortId(d, p);
    }
  }

  /** An adding step leaves LOCAL_OUT freshly compiled exactly when it crowds no
      tenant. */
  lemma AddingStep(w: World, step: Step)
    requires WorldOk(w) && Allowed(w, step) && FromScratch(w) && OnlyAdds(w, step)
    ensures FromScratch(After(w, step)) <==> !Crowds(w, step)
  {
    var w', evs, flows := After(w, step), EventsOf(w.env, step), FlowsBefore(w, step);
    StepKeepsFlows(w, step);
    HandleAllKeys(w'.env, flows, evs);
    forall n, d ensures CrowdsAt(w, step, n, d) ==> !FromScratch(w') {
      if CrowdsAt(w, step, n, d) { TenantAfter(w, step, n, d, w'.env.tun.keys[n]); }
    }
    if !Crowds(w, step) {
      forall d | d in w'.flows ensures LocalFromScratch(w'.env, d, w'.flows[d]) {
        forall n | n in w'.env.tun.keys && n.Tenant?
          ensures KeyRows(w'.flows[d], w'.env.tun.keys[n]) == Compiled(w'.env, n, d)
        {
          assert !CrowdsAt(w, step, n, d);
          TenantAfter(w, step, n, d, w'.env.tun.keys[n]);
        }
        forall k | KeyRows(w'.flows[d], k) != map[] ensures exists n :: OwnedBy(w'.env.tun.keys, n, k) {
          NobodysRows(w, step, d, k);
        }
      }
    }
  }

  lemma NobodysRows(w: World, step: Step, d: Dpid, k: Key)
    requires WorldOk(w) && Allowed(w, step) && FromScratch(w) && d in After(w, step).flows
    requires KeyRows(After(w, step).flows[d], k) != map[]
    ensures exists n :: OwnedBy(After(w, step).env.tun.keys, n, k)
  {
    hide KeyRows, Compiled, EventsOf, EnvAfter, Allowed;
    var w', evs, flows := After(w, step), EventsOf(w.env, step), FlowsBefore(w, step);
    if forall n :: !OwnedBy(w'.env.tun.keys, n, k) {
      StepKeepsFlows(w, step);
      HandleAllKeys(w'.env, flows, evs);
      UnownedUntouched(w'.env, w'.ever, flows, evs, d, k);
      assert HandleAll(w'.env, flows, evs) == w'.flows;
      RowsHadOwner(w, step, d, k);
    }
  }
}
