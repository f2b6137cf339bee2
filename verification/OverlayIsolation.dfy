/** Tenant isolation and split horizon of the overlay, over every run. */
module OverlayIsolation {
  import opened Wrappers
  import opened TenantStore
  import opened TunnelStore
  import opened Overlay
  import opened OverlaySystem

  // ------------------------------------------------------- what the rows say

  /** The facts the rows are judged by: the ports, the keys, and every port that
      has been a tunnel port and no VM port since. */
  datatype View = View(dpids: DpidIndex, keys: map<NetworkId, Key>, ever: set<PortId>)

  function ViewOf(w: World): View { View(w.env.nw.dpids, w.env.tun.keys, w.ever) }

  /** Port `p` of switch `d` is a VM port of the tenant that owns key `k`. */
  ghost predicate HoldsKey(v: View, d: Dpid, p: PortNo, k: Key) {
    match PortAt(v.dpids, PortId(d, p))
    case Some(Port(n, Some(_))) => n.Tenant? && n in v.keys && v.keys[n] == k
    case _ => false
  }

  function MacOf(v: View, d: Dpid, p: PortNo): Option<Mac> {
    match PortAt(v.dpids, PortId(d, p))
    case Some(port) => port.mac
    case None => None
  }

  ghost predicate RowOk(v: View, d: Dpid, fk: FlowKey, a: Actions) {
    if fk.table == SRC_TABLE then SrcRowOk(v, d, fk, a)
    else if fk.table == TUNNEL_OUT_TABLE then
      fk.rule.tunId.Some? && a == OutputThenLocal(a.outputs) && forall q | q in a.outputs :: PortId(d, q) in v.ever
    else LocalRowOk(v, d, fk, a)
  }

  /** A VM port may only send its own MAC, under its own tenant's key; only a
      tunnel port may bring a key along. */
  ghost predicate SrcRowOk(v: View, d: Dpid, fk: FlowKey, a: Actions) {
    fk.rule.inPort.Some? &&
    var p := fk.rule.inPort.value;
    || a == DROP
    || (a.setTunnel.Some? && a == EnterTunnel(a.setTunnel.value) && fk == SrcVm(p, MacOf(v, d, p).GetOr(0))
        && HoldsKey(v, d, p, a.setTunnel.value))
    || (a == OutputThenLocal({}) && fk.rule.tunId.Some? && PortId(d, p) in v.ever)
  }

  /** LOCAL_OUT outputs to VM ports that hold the key, and nowhere else. */
  ghost predicate LocalRowOk(v: View, d: Dpid, fk: FlowKey, a: Actions) {
    && fk.rule.tunId.Some?
    && a == Output(a.outputs)
    && (|| fk == LocalMac(fk.rule.tunId.value, fk.rule.dlDst.GetOr(0))
        || fk == LocalBroadcast(fk.rule.tunId.value)
        || (fk == LocalDrop(fk.rule.tunId.value) && a == DROP))
    && forall q | q in a.outputs ::
         && HoldsKey(v, d, q, fk.rule.tunId.value)
         && (fk.priority == LOCAL_OUT_PRI_MAC ==> fk.rule.dlDst == MacOf(v, d, q))
  }

  ghost predicate TableOk(v: View, d: Dpid, t: Table) {
    forall fk | fk in t :: RowOk(v, d, fk, t[fk])
  }

  ghost predicate FlowsOk(v: View, flows: Flows) {
    forall d | d in flows :: TableOk(v, d, flows[d])
  }

  ghost predicate WorldOk(w: World) {
    EnvOk(w) && FlowsOk(ViewOf(w), w.flows)
  }

  // --------------------------------------------------------- handlers keep it

  /** The event describes the environment it is handled in. */
  ghost predicate Fits(env: Env, ever: set<PortId>, ev: GreEvent) {
    match ev
    case VmPort(n, k, at, m, add) =>
      && n.Tenant? && n in env.tun.keys && env.tun.keys[n] == k
      && (add ==> PortAt(env.nw.dpids, at) == Some(Port(n, Some(m))) && at in env.up)
    case TunnelPort(at, remote, _) => at in ever
  }

  function EnvView(env: Env, ever: set<PortId>): View { View(env.nw.dpids, env.tun.keys, ever) }

  /** Everything RowOk says of the rows the handlers write. */
  lemma NewRows(env: Env, ever: set<PortId>, d: Dpid, n: NetworkId, k: Key)
    requires n.Tenant? && n in env.tun.keys && env.tun.keys[n] == k
    ensures var v := EnvView(env, ever);
            && (forall m, ps {:trigger RowOk(v, d, LocalMac(k, m), Output(ps))} ::
                  ps <= WithMac(env, n, d, m) ==> RowOk(v, d, LocalMac(k, m), Output(ps)))
            && (forall ps {:trigger RowOk(v, d, LocalBroadcast(k), Output(ps))} ::
                  ps <= Active(env, n, d) ==> RowOk(v, d, LocalBroadcast(k), Output(ps)))
            && RowOk(v, d, LocalDrop(k), DROP)
            && RowOk(v, d, TunnelPass(k), OutputThenLocal({}))
  {
  }

  lemma WriteOk(v: View, d: Dpid, t: Table, fk: FlowKey, a: Actions)
    requires TableOk(v, d, t) && RowOk(v, d, fk, a)
    ensures TableOk(v, d, t[fk := a])
  {
  }

  lemma MergeOk(v: View, d: Dpid, t: Table, t': Table)
    requires TableOk(v, d, t) && TableOk(v, d, t')
    ensures TableOk(v, d, t + t')
  {
  }

  lemma PassAllOk(v: View, d: Dpid, k: Key, ports: set<PortNo>)
    requires forall p | p in ports :: PortId(d, p) in v.ever
    ensures TableOk(v, d, PassAll(k, ports))
  {
  }

  /** Tunnel ports the handlers look up were registered as such. */
  lemma TunnelPortsAreEver(env: Env, ever: set<PortId>, d: Dpid)
    requires env.tun.remotes.Keys <= ever
    ensures forall r, p :: p in PortsTo(env.tun, d, r) ==> PortId(d, p) in ever
    ensures forall rs, p :: p in TunnelPorts(env, d, rs) ==> PortId(d, p) in ever
    ensures forall n, at, m, p :: p in MacTunnels(env, d, n, at, m) ==> PortId(d, p) in ever
    ensures forall n, rs, m, p :: p in WaysTo(env, n, d, rs, m) ==> PortId(d, p) in ever
  {
  }

  lemma AddHereOk(env: Env, ever: set<PortId>, t: Table, n: NetworkId, k: Key, at: PortId, m: Mac)
    requires Fits(env, ever, VmPort(n, k, at, m, true)) && env.tun.remotes.Keys <= ever
    requires TableOk(EnvView(env, ever), at.dpid, t)
    ensures TableOk(EnvView(env, ever), at.dpid, AddHere(env, t, n, k, at, m))
  {
    var v, d, active := EnvView(env, ever), at.dpid, Active(env, n, at.dpid);
    NewRows(env, ever, d, n, k);
    var t1 := t[LocalMac(k, m) := Output(WithMac(env, n, d, m))];
    WriteOk(v, d, t, LocalMac(k, m), Output(WithMac(env, n, d, m)));
    WriteOk(v, d, t1, LocalBroadcast(k), Output(active));
    WriteOk(v, d, t1[LocalBroadcast(k) := Output(active)], LocalDrop(k), DROP);
    AddUpstreamOk(env, ever, AddLocal(env, t, n, k, d, m), n, k, at, m);
  }

  lemma AddUpstreamOk(env: Env, ever: set<PortId>, t: Table, n: NetworkId, k: Key, at: PortId, m: Mac)
    requires Fits(env, ever, VmPort(n, k, at, m, true)) && env.tun.remotes.Keys <= ever
    requires TableOk(EnvView(env, ever), at.dpid, t)
    ensures TableOk(EnvView(env, ever), at.dpid, AddUpstream(env, t, n, k, at, m))
  {
    var v, d, rs := EnvView(env, ever), at.dpid, GetDpids(env.nw, n) - {at.dpid};
    var first, ports := |Active(env, n, d)| == 1, TunnelPorts(env, d, rs);
    NewRows(env, ever, d, n, k);
    TunnelPortsAreEver(env, ever, d);
    PassAllOk(v, d, k, ports);
    MergeOk(v, d, t, PassAll(k, ports));
    var t1 := if first then t + PassAll(k, ports) else t;
    RemoteMacsOk(env, ever, n, k, d, rs);
    MergeOk(v, d, t1, RemoteMacs(env, n, k, d, rs));
    var t2 := t1 + RemoteMacs(env, n, k, d, rs);
    WriteOk(v, d, t2, TunnelPass(k), OutputThenLocal({}));
    WriteOk(v, d, t2[TunnelPass(k) := OutputThenLocal({})], TunnelBroadcast(k), OutputThenLocal(ports));
    var t3 := if first then t2[TunnelPass(k) := OutputThenLocal({})][TunnelBroadcast(k) := OutputThenLocal(ports)] else t2;
    WriteOk(v, d, t3, SrcVm(at.port, m), EnterTunnel(k));
    WriteOk(v, d, t3[SrcVm(at.port, m) := EnterTunnel(k)], SrcDrop(at.port), DROP);
  }

  lemma RemoteMacsOk(env: Env, ever: set<PortId>, n: NetworkId, k: Key, d: Dpid, rs: set<Dpid>)
    requires env.tun.remotes.Keys <= ever
    ensures TableOk(EnvView(env, ever), d, RemoteMacs(env, n, k, d, rs))
  {
    TunnelPortsAreEver(env, ever, d);
  }

  lemma AddThereOk(env: Env, ever: set<PortId>, t: Table, x: Dpid, n: NetworkId, k: Key, at: PortId, m: Mac)
    requires env.tun.remotes.Keys <= ever && TableOk(EnvView(env, ever), x, t)
    ensures TableOk(EnvView(env, ever), x, AddThere(env, t, x, n, k, at, m))
  {
    var v, rs, ways := EnvView(env, ever), GetDpids(env.nw, n) - {at.dpid}, UpTunnels(env, x, at.dpid);
    TunnelPortsAreEver(env, ever, x);
    WriteOk(v, x, t, TunnelMac(k, m), OutputThenLocal(MacTunnels(env, x, n, at, m) + ways));
    var t1 := t[TunnelMac(k, m) := OutputThenLocal(MacTunnels(env, x, n, at, m) + ways)];
    PassAllOk(v, x, k, ways);
    MergeOk(v, x, t1, PassAll(k, ways));
    WriteOk(v, x, t1 + PassAll(k, ways), TunnelBroadcast(k), OutputThenLocal(TunnelPorts(env, x, rs) + ways));
  }

  /** The only port whose entry may differ between the two views is `at`. */
  ghost predicate OnlyAtDiffers(v: View, v': View, at: PortId) {
    && v.keys == v'.keys && v.ever == v'.ever
    && (PortAt(v'.dpids, at) == None || PortAt(v'.dpids, at) == PortAt(v.dpids, at))
    && forall x :: x != at ==> PortAt(v'.dpids, x) == PortAt(v.dpids, x)
  }

  /** A row that does not mention the departed port is as good as before. */
  lemma OtherRowOk(v: View, v': View, at: PortId, d: Dpid, fk: FlowKey, a: Actions)
    requires OnlyAtDiffers(v, v', at) && RowOk(v, d, fk, a)
    requires d == at.dpid ==> (fk.table == SRC_TABLE ==> fk.rule.inPort != Some(at.port))
                              && (fk.table == LOCAL_OUT_TABLE ==> at.port !in a.outputs)
    ensures RowOk(v', d, fk, a)
  {
    if fk.table == SRC_TABLE {
      assert d == at.dpid ==> PortId(d, fk.rule.inPort.value) != at;
    } else if fk.table != TUNNEL_OUT_TABLE {
      assert d == at.dpid ==> forall q | q in a.outputs :: PortId(d, q) != at;
    }
  }

  lemma DelHereOk(env: Env, ever: set<PortId>, v: View, t: Table, n: NetworkId, k: Key, at: PortId, m: Mac)
    requires Fits(env, ever, VmPort(n, k, at, m, false))
    requires OnlyAtDiffers(v, EnvView(env, ever), at) && PortAt(v.dpids, at) == Some(Port(n, Some(m)))
    requires TableOk(v, at.dpid, t)
    ensures TableOk(EnvView(env, ever), at.dpid, DelHere(env, t, n, k, at, m))
  {
    var v', d := EnvView(env, ever), at.dpid;
    var t' := DelHere(env, t, n, k, at, m);
    var rest := Active(env, n, d) - {at.port};
    NewRows(env, ever, d, n, k);
    forall fk | fk in t' ensures RowOk(v', d, fk, t'[fk]) {
      if rest != {} && fk == LocalBroadcast(k) {
      } else if rest != {} && fk == LocalMac(k, m) && WithMac(env, n, d, m) - {at.port} != {} {
      } else {
        assert fk in t && t'[fk] == t[fk] && RowOk(v, d, fk, t[fk]);
        if fk.table == LOCAL_OUT_TABLE && at.port in t[fk].outputs { DepartedPortUnmentioned(v, t, n, k, at, m, fk); }
        OtherRowOk(v, v', at, d, fk, t[fk]);
      }
    }
  }

  /** LOCAL_OUT mentions a port only under its own key, and by MAC only under
      its own MAC. */
  lemma DepartedPortUnmentioned(v: View, t: Table, n: NetworkId, k: Key, at: PortId, m: Mac, fk: FlowKey)
    requires fk in t && RowOk(v, at.dpid, fk, t[fk]) && fk.table != SRC_TABLE && fk.table != TUNNEL_OUT_TABLE
    requires PortAt(v.dpids, at) == Some(Port(n, Some(m))) && n in v.keys && v.keys[n] == k
    requires at.port in t[fk].outputs
    ensures fk == LocalMac(k, m) || fk == LocalBroadcast(k)
  {
    assert HoldsKey(v, at.dpid, at.port, fk.rule.tunId.value);
  }

  lemma DelThereOk(env: Env, ever: set<PortId>, v: View, t: Table, x: Dpid, n: NetworkId, k: Key, at: PortId, m: Mac)
    requires OnlyAtDiffers(v, EnvView(env, ever), at) && x != at.dpid
    requires env.tun.remotes.Keys <= ever && TableOk(v, x, t)
    ensures TableOk(EnvView(env, ever), x, DelThere(env, t, x, n, k, at, m))
  {
    hide OnlyAtDiffers, Active;
    var v', t1 := EnvView(env, ever), DelTunnel(env, t, x, n, k, at.dpid);
    forall fk | fk in t ensures RowOk(v', x, fk, t[fk]) { OtherRowOk(v, v', at, x, fk, t[fk]); }
    DelTunnelOk(env, ever, t, x, n, k, at.dpid);
    DelWayOk(env, ever, t, x, n, k, at, m);
    DelWayOk(env, ever, t1, x, n, k, at, m);
  }

  lemma DelTunnelOk(env: Env, ever: set<PortId>, t: Table, x: Dpid, n: NetworkId, k: Key, d: Dpid)
    requires env.tun.remotes.Keys <= ever && TableOk(EnvView(env, ever), x, t)
    ensures TableOk(EnvView(env, ever), x, DelTunnel(env, t, x, n, k, d))
  {
    TunnelPortsAreEver(env, ever, x);
  }

  lemma DelWayOk(env: Env, ever: set<PortId>, t: Table, x: Dpid, n: NetworkId, k: Key, at: PortId, m: Mac)
    requires env.tun.remotes.Keys <= ever && TableOk(EnvView(env, ever), x, t)
    ensures TableOk(EnvView(env, ever), x, DelWay(env, t, x, n, k, at, m))
  {
    TunnelPortsAreEver(env, ever, x);
  }

  lemma TunnelAddOk(env: Env, ever: set<PortId>, t: Table, at: PortId, remote: Dpid)
    requires at in ever && env.tun.remotes.Keys <= ever && TableOk(EnvView(env, ever), at.dpid, t)
    ensures TableOk(EnvView(env, ever), at.dpid, TunnelAddHere(env, t, at, remote))
  {
    var v, d, nets := EnvView(env, ever), at.dpid, CommonNetworks(env, at.dpid, remote);
    TunnelRowsOk(env, ever, at, nets, remote);
    hide TableOk, TunnelPasses, TunnelMacs, TunnelFloods, CommonNetworks;
    var t1 := t[SrcDrop(at.port) := DROP];
    WriteOk(v, d, t, SrcDrop(at.port), DROP);
    MergeOk(v, d, t1, TunnelPasses(env, at.port, nets));
    MergeOk(v, d, t1 + TunnelPasses(env, at.port, nets), TunnelMacs(env, at.port, nets, remote));
    MergeOk(v, d, t1 + TunnelPasses(env, at.port, nets) + TunnelMacs(env, at.port, nets, remote),
            TunnelFloods(env, d, at.port, nets));
  }

  lemma TunnelRowsOk(env: Env, ever: set<PortId>, at: PortId, nets: set<NetworkId>, remote: Dpid)
    requires at in ever && env.tun.remotes.Keys <= ever && nets <= env.tun.keys.Keys
    ensures var v, d := EnvView(env, ever), at.dpid;
            && TableOk(v, d, TunnelPasses(env, at.port, nets))
            && TableOk(v, d, TunnelMacs(env, at.port, nets, remote))
            && TableOk(v, d, TunnelFloods(env, d, at.port, nets))
  {
    TunnelPortsAreEver(env, ever, at.dpid);
    assert at == PortId(at.dpid, at.port);
  }

  /** Each handler turns good tables for the view before into good tables for
      the view after. */
  lemma HandleOk(env: Env, ever: set<PortId>, v: View, flows: Flows, ev: GreEvent)
    requires Fits(env, ever, ev) && env.tun.remotes.Keys <= ever && FlowsOk(v, flows)
    requires ev.VmPort? && !ev.add ==>
               OnlyAtDiffers(v, EnvView(env, ever), ev.at) && PortAt(v.dpids, ev.at) == Some(Port(ev.n, Some(ev.m)))
    requires (ev.VmPort? && !ev.add) || v == EnvView(env, ever)
    ensures FlowsOk(EnvView(env, ever), Handle(env, flows, ev))
  {
    var v', flows' := EnvView(env, ever), Handle(env, flows, ev);
    forall d | d in flows' ensures TableOk(v', d, flows'[d]) {
      match ev
      case VmPort(n, k, at, m, true) =>
        if d == at.dpid { AddHereOk(env, ever, flows[d], n, k, at, m); }
        else { AddThereOk(env, ever, flows[d], d, n, k, at, m); }
      case VmPort(n, k, at, m, false) =>
        if d == at.dpid { DelHereOk(env, ever, v, flows[d], n, k, at, m); }
        else {
          DelThereOk(env, ever, v, flows[d], d, n, k, at, m);
          forall fk | fk in flows[d] ensures RowOk(v', d, fk, flows[d][fk]) { OtherRowOk(v, v', at, d, fk, flows[d][fk]); }
        }
      case TunnelPort(at, remote, true) =>
        if d == at.dpid { TunnelAddOk(env, ever, flows[d], at, remote); }
      case TunnelPort(at, _, false) =>
    }
  }

  // ---------------------------------------------------------- steps keep it

  predicate IsVmDel(ev: GreEvent) { ev.VmPort? && !ev.add }

  lemma {:induction false} AddsOk(env: Env, ever: set<PortId>, flows: Flows, evs: seq<GreEvent>)
    requires env.tun.remotes.Keys <= ever && FlowsOk(EnvView(env, ever), flows)
    requires forall ev | ev in evs :: Fits(env, ever, ev) && !IsVmDel(ev)
    ensures FlowsOk(EnvView(env, ever), HandleAll(env, flows, evs))
    decreases |evs|
  {
    if evs != [] {
      HandleOk(env, ever, EnvView(env, ever), flows, evs[0]);
      AddsOk(env, ever, Handle(env, flows, evs[0]), evs[1..]);
    }
  }

  /** Keys and tunnel ports only accumulate, and no tenant port with a MAC goes. */
  ghost predicate Grows(v: View, v': View) {
    && (forall n | n in v.keys :: n in v'.keys && v'.keys[n] == v.keys[n])
    && v.ever <= v'.ever
    && forall at | PortAt(v.dpids, at).Some? && PortAt(v.dpids, at).value.network.Tenant? && PortAt(v.dpids, at).value.mac.Some?
         :: PortAt(v'.dpids, at) == PortAt(v.dpids, at)
  }

  lemma GrowthKeepsFlows(v: View, v': View, flows: Flows)
    requires Grows(v, v') && FlowsOk(v, flows)
    ensures FlowsOk(v', flows)
  {
    forall d, fk | d in flows && fk in flows[d] ensures RowOk(v', d, fk, flows[d][fk]) {
      assert RowOk(v, d, fk, flows[d][fk]);
      assert forall p, k :: HoldsKey(v, d, p, k) ==> HoldsKey(v', d, p, k) && MacOf(v', d, p) == MacOf(v, d, p);
    }
  }

  /** A port that holds no key is mentioned nowhere. */
  lemma KeylessDepartureKeepsFlows(v: View, v': View, at: PortId, flows: Flows)
    requires OnlyAtDiffers(v, v', at) && FlowsOk(v, flows)
    requires at.dpid in flows ==> forall k :: !HoldsKey(v, at.dpid, at.port, k)
    ensures FlowsOk(v', flows)
  {
    forall d, fk | d in flows && fk in flows[d] ensures RowOk(v', d, fk, flows[d][fk]) {
      var a := flows[d][fk];
      assert RowOk(v, d, fk, a);
      if fk.table == SRC_TABLE && d == at.dpid && fk.rule.inPort == Some(at.port) {
        assert a.setTunnel.Some? ==> !HoldsKey(v, d, at.port, a.setTunnel.value);
      } else {
        OtherRowOk(v, v', at, d, fk, a);
      }
    }
  }

  lemma StepKeepsFlows(w: World, step: Step)
    requires WorldOk(w) && Allowed(w, step)
    ensures WorldOk(After(w, step))
    ensures forall ev | ev in EventsOf(w.env, step) :: Fits(After(w, step).env, After(w, step).ever, ev)
  {
    AllowedKeepsEnv(w, step);
    match step {
      case StoreCall(call) => CallKeepsFlows(w, call);
      case PortDown(at) => PortDownKeepsFlows(w, at);
      case SetKey(_, _, _, _) => KeyStepKeepsFlows(w, step);
      case SwitchEnter(_, _, _) => EntryKeepsFlows(w, step);
      case _ => PortStepKeepsFlows(w, step);
    }
    hide *;
    KeptIsOk(w, step);
  }

  /** What a step does to the meaning of the rows. */
  ghost predicate Kept(w: World, step: Step) {
    var w' := After(w, step);
    && FlowsOk(ViewOf(w'), w'.flows)
    && forall ev | ev in EventsOf(w.env, step) :: Fits(w'.env, w'.ever, ev)
  }

  lemma KeptIsOk(w: World, step: Step)
    requires EnvOk(After(w, step)) && Kept(w, step)
    ensures WorldOk(After(w, step))
    ensures forall ev | ev in EventsOf(w.env, step) :: Fits(After(w, step).env, After(w, step).ever, ev)
  {
    hide EnvOk, FlowsOk, After, EventsOf, Fits;
  }

  lemma KeyStepKeepsFlows(w: World, step: Step)
    requires WorldOk(w) && Allowed(w, step) && step.SetKey? && EnvOk(After(w, step))
    ensures Kept(w, step)
  {
    hide HandleAll, EventsOf;
    var w' := After(w, step);
    KeyStepFits(w, step);
    GrowthKeepsFlows(ViewOf(w), ViewOf(w'), w.flows);
    AddsOk(w'.env, w'.ever, w.flows, EventsOf(w.env, step));
  }

  lemma EntryKeepsFlows(w: World, step: Step)
    requires WorldOk(w) && Allowed(w, step) && step.SwitchEnter? && EnvOk(After(w, step))
    ensures Kept(w, step)
  {
    hide HandleAll, PortEvents;
    var w' := After(w, step);
    PortEventsFit(w'.env, w'.ever, step.order);
    AddsOk(w'.env, w'.ever, w.flows[step.d := map[]], EventsOf(w.env, step));
  }

  lemma PortStepKeepsFlows(w: World, step: Step)
    requires WorldOk(w) && Allowed(w, step) && (step.SetTunnel? || step.DropTunnel? || step.PortUp?) && EnvOk(After(w, step))
    ensures Kept(w, step)
  {
    hide HandleAll;
    var w' := After(w, step);
    GrowthKeepsFlows(ViewOf(w), ViewOf(w'), w.flows);
    PortStepFits(w, step);
    AddsOk(w'.env, w'.ever, w.flows, EventsOf(w.env, step));
  }

  lemma PortStepFits(w: World, step: Step)
    requires WorldOk(w) && Allowed(w, step) && (step.SetTunnel? || step.DropTunnel? || step.PortUp?) && EnvOk(After(w, step))
    ensures forall ev | ev in EventsOf(w.env, step) :: Fits(After(w, step).env, After(w, step).ever, ev) && !IsVmDel(ev)
  {
    hide HandleAll, FlowsOk;
  }

  lemma PortEventFits(env: Env, ever: set<PortId>, at: PortId)
    requires env.tun.remotes.Keys <= ever
    ensures forall ev | ev in PortEvent(env, at, true) :: Fits(env, ever, ev) && !IsVmDel(ev)
  {
  }

  lemma {:induction false} PortEventsFit(env: Env, ever: set<PortId>, ports: seq<PortId>)
    requires env.tun.remotes.Keys <= ever
    ensures forall ev | ev in PortEvents(env, ports) :: Fits(env, ever, ev) && !IsVmDel(ev)
    decreases |ports|
  {
    if ports != [] {
      PortEventFits(env, ever, ports[0]);
      PortEventsFit(env, ever, ports[1..]);
    }
  }

  lemma {:induction false} NetworkPortEventsFit(env: Env, ever: set<PortId>, ports: seq<PortId>, n: NetworkId)
    requires env.tun.remotes.Keys <= ever && forall at | at in ports :: NetworkOf(env.nw.dpids, at) == n
    ensures forall ev | ev in NetworkPortEvents(env, ports, n) :: Fits(env, ever, ev) && !IsVmDel(ev)
    decreases |ports|
  {
    if ports != [] {
      assert forall ev | ev in NetworkPortEvent(env, ports[0], n, true) :: Fits(env, ever, ev) && !IsVmDel(ev) by {
        assert NetworkOf(env.nw.dpids, ports[0]) == n;
      }
      NetworkPortEventsFit(env, ever, ports[1..], n);
    }
  }

  lemma KeyStepFits(w: World, step: Step)
    requires WorldOk(w) && Allowed(w, step) && step.SetKey?
    ensures forall ev | ev in EventsOf(w.env, step) :: Fits(After(w, step).env, w.ever, ev) && !IsVmDel(ev)
  {
    forall at | at in step.order ensures NetworkOf(w.env.nw.dpids, at) == step.n {
      assert at in multiset(step.order);
      assert MemberAgrees(w.env.nw, step.n, at);
    }
    NetworkPortEventsFit(EnvAfter(w.env, step), w.ever, step.order, step.n);
  }

  lemma PortDownKeepsFlows(w: World, at: PortId)
    requires WorldOk(w)
    ensures Kept(w, PortDown(at))
  {
    var env', evs := EnvAfter(w.env, PortDown(at)), EventsOf(w.env, PortDown(at));
    if evs != [] {
      assert evs == [evs[0]] && evs[1..] == [];
      HandleOk(env', w.ever, ViewOf(w), w.flows, evs[0]);
      assert HandleAll(env', w.flows, evs) == Handle(env', w.flows, evs[0]);
    }
  }

  lemma CallKeepsFlows(w: World, call: Call)
    requires WorldOk(w) && Allowed(w, StoreCall(call)) && EnvOk(After(w, StoreCall(call)))
    ensures Kept(w, StoreCall(call))
  {
    var w', evs := After(w, StoreCall(call)), EventsOf(w.env, StoreCall(call));
    if call.op.RemovePort? {
      RemovalKeepsFlows(w, call);
    } else {
      forall at ensures PortAt(w.env.nw.dpids, at).Some? && PortAt(w.env.nw.dpids, at).value.mac.Some? ==>
                        PortAt(w'.env.nw.dpids, at) == PortAt(w.env.nw.dpids, at) {
        HowPortsChange(w.env.nw, call.op, call.order, at);
      }
      var v := ViewOf(w).(ever := w'.ever);
      GivenPortUnused(w, call);
      GrowthKeepsFlows(v, ViewOf(w'), w.flows);
      CallEventsFit(w, call, w'.ever);
      AddsOk(w'.env, w'.ever, w.flows, evs);
    }
  }

  /** A port may be struck off the tunnel ports exactly if no row uses it so. */
  lemma StrikeExactly(v: View, flows: Flows, at: PortId)
    requires FlowsOk(v, flows) && !NetworkOf(v.dpids, at).Tenant?
    ensures FlowsOk(v.(ever := v.ever - {at}), flows) <==> Unused(flows, at)
  {
    var v' := v.(ever := v.ever - {at});
    forall d, fk | d in flows && fk in flows[d] ensures RowOk(v', d, fk, flows[d][fk]) <==> !(d == at.dpid && UsesTunnel(fk, flows[d][fk], at.port)) {
      StrikeRow(v, at, d, fk, flows[d][fk]);
    }
    if FlowsOk(v', flows) && at.dpid in flows {
      forall fk | fk in flows[at.dpid] ensures !UsesTunnel(fk, flows[at.dpid][fk], at.port) {
        assert RowOk(v', at.dpid, fk, flows[at.dpid][fk]);
      }
    }
  }

  lemma SameHolder(v: View, v': View, d: Dpid, p: PortNo, k: Key)
    requires v'.dpids == v.dpids && v'.keys == v.keys
    ensures HoldsKey(v', d, p, k) <==> HoldsKey(v, d, p, k)
  {
  }

  lemma StrikeRow(v: View, at: PortId, d: Dpid, fk: FlowKey, a: Actions)
    requires RowOk(v, d, fk, a) && !NetworkOf(v.dpids, at).Tenant?
    ensures RowOk(v.(ever := v.ever - {at}), d, fk, a) <==> !(d == at.dpid && UsesTunnel(fk, a, at.port))
  {
    var v' := v.(ever := v.ever - {at});
    forall p, k ensures HoldsKey(v', d, p, k) <==> HoldsKey(v, d, p, k) { SameHolder(v, v', d, p, k); }
    if fk.table == TUNNEL_OUT_TABLE {
      if d == at.dpid && at.port in a.outputs { assert PortId(d, at.port) !in v'.ever; }
    } else if fk.table == SRC_TABLE {
      if d == at.dpid && fk.rule.inPort == Some(at.port) { assert PortId(d, at.port) == at; }
    }
  }

  lemma GivenPortUnused(w: World, call: Call)
    requires WorldOk(w) && Allowed(w, StoreCall(call))
    ensures FlowsOk(ViewOf(w).(ever := After(w, StoreCall(call)).ever), w.flows)
  {
    if GivesToVm(w, call) && call.op.at in w.ever {
      StrikeExactly(ViewOf(w), w.flows, call.op.at);
    } else {
      assert After(w, StoreCall(call)).ever == w.ever;
      assert ViewOf(w).(ever := w.ever) == ViewOf(w);
    }
  }

  lemma {:induction false} StoreEventsComeFrom(env: Env, evs: seq<Event>, ev: GreEvent)
    requires ev in StoreEvents(env, evs)
    ensures exists se :: se in evs && ev in StoreEvent(env, se)
    decreases |evs|
  {
    if ev in StoreEvent(env, evs[0]) {
      assert evs[0] in evs;
    } else {
      StoreEventsComeFrom(env, evs[1..], ev);
      var se :| se in evs[1..] && ev in StoreEvent(env, se);
      assert se in evs;
    }
  }

  /** Of the calls that remove no port, only the MAC calls reach VM ports. */
  lemma CallEventsFit(w: World, call: Call, ever: set<PortId>)
    requires WorldOk(w) && Allowed(w, StoreCall(call)) && !call.op.RemovePort? && w.env.tun.remotes.Keys <= ever
    ensures var env' := EnvAfter(w.env, StoreCall(call));
            forall ev | ev in EventsOf(w.env, StoreCall(call)) :: Fits(env', ever, ev) && !IsVmDel(ev)
  {
    var env', sent := EnvAfter(w.env, StoreCall(call)), Apply(w.env.nw, call.op, call.order).events;
    forall ev | ev in EventsOf(w.env, StoreCall(call)) ensures Fits(env', ever, ev) && !IsVmDel(ev) {
      StoreEventsComeFrom(env', sent, ev);
      var se :| se in sent && ev in StoreEvent(env', se);
      SentEventFits(w, call, se, ever);
    }
  }

  lemma SentEventFits(w: World, call: Call, se: Event, ever: set<PortId>)
    requires WorldOk(w) && Allowed(w, StoreCall(call)) && !call.op.RemovePort? && w.env.tun.remotes.Keys <= ever
    requires se in Apply(w.env.nw, call.op, call.order).events
    ensures var env' := EnvAfter(w.env, StoreCall(call));
            forall ev | ev in StoreEvent(env', se) :: Fits(env', ever, ev) && !IsVmDel(ev)
  {
    hide Agree, FlowsOk, Apply;
    if call.op.RemoveNetwork? { OnlyEmptyNetworksGo(w, call, se); }
    if !se.NetworkDel? { WhatEventsSay(w.env.nw, call.op, call.order, se); }
  }

  lemma OnlyEmptyNetworksGo(w: World, call: Call, se: Event)
    requires Allowed(w, StoreCall(call)) && call.op.RemoveNetwork?
    requires se in Apply(w.env.nw, call.op, call.order).events
    ensures se.NetworkDel?
  {
    if call.op.n in w.env.nw.networks { assert |multiset(call.order)| == 0; }
  }

  lemma RemovalKeepsFlows(w: World, call: Call)
    requires WorldOk(w) && Allowed(w, StoreCall(call)) && call.op.RemovePort?
    ensures Kept(w, StoreCall(call))
  {
    var env', at := EnvAfter(w.env, StoreCall(call)), call.op.at;
    var v, v' := ViewOf(w), EnvView(env', w.ever);
    var macEvs, netEvs := RemovalShape(w, call);
    if macEvs == [] {
      KeylessDepartureKeepsFlows(v, v', at, w.flows);
      AddsOk(env', w.ever, w.flows, netEvs);
      assert macEvs + netEvs == netEvs;
    } else {
      var evs := macEvs + netEvs;
      assert evs[0] == macEvs[0] && evs[1..] == netEvs;
      HandleOk(env', w.ever, v, w.flows, evs[0]);
      AddsOk(env', w.ever, Handle(env', w.flows, evs[0]), netEvs);
    }
  }

  /** Removing a port yields one VM deletion if the port held a key on a
      connected switch, and nothing else that reaches VM rows. */
  lemma RemovalShape(w: World, call: Call) returns (macEvs: seq<GreEvent>, netEvs: seq<GreEvent>)
    requires WorldOk(w) && Allowed(w, StoreCall(call)) && call.op.RemovePort?
    ensures var env', at := EnvAfter(w.env, StoreCall(call)), call.op.at;
            var v, v' := ViewOf(w), EnvView(env', w.ever);
            && EventsOf(w.env, StoreCall(call)) == macEvs + netEvs
            && OnlyAtDiffers(v, v', at)
            && (forall ev | ev in netEvs :: Fits(env', w.ever, ev) && ev.TunnelPort?)
            && |macEvs| <= 1
            && (macEvs == [] ==> at.dpid in w.flows ==> forall k :: !HoldsKey(v, at.dpid, at.port, k))
            && (macEvs != [] ==> var ev := macEvs[0];
                  Fits(env', w.ever, ev) && IsVmDel(ev) && ev.at == at && PortAt(v.dpids, at) == Some(Port(ev.n, Some(ev.m))))
  {
    hide FlowsOk, Agree, OnlyAtDiffers, Safe, HoldsKey, VmEvent, NetworkPortEvent;
    var s, env' := w.env.nw, EnvAfter(w.env, StoreCall(call));
    var at, n, port := call.op.at, call.op.n, PortAt(s.dpids, call.op.at);
    RemovalDiffers(w, call);
    if at.dpid !in s.dpids {
      macEvs, netEvs := [], [];
      KeylessPort(w, at);
    } else {
      var gone := MacGone(port, at);
      var left := if InNetwork(s.networks, n, at) then [NetworkPort(n, at, false)] else [];
      RemovalEvents(env', port, at, left);
      macEvs := if gone == [] then [] else StoreEvent(env', gone[0]);
      netEvs := if left == [] then [] else StoreEvent(env', left[0]);
      if gone == [] { KeylessPort(w, at); } else { WithdrawnEvent(w, env', at, port.value.network, port.value.mac.value); }
      GoneNetworkEvent(env', w.ever, at, n);
    }
  }

  lemma KeylessPort(w: World, at: PortId)
    requires PortAt(w.env.nw.dpids, at) == None || PortAt(w.env.nw.dpids, at).value.mac == None
    ensures forall k :: !HoldsKey(ViewOf(w), at.dpid, at.port, k)
  {
    assert at == PortId(at.dpid, at.port);
  }

  /** A port with a MAC is withdrawn exactly if it held a key. */
  lemma WithdrawnEvent(w: World, env': Env, at: PortId, n: NetworkId, m: Mac)
    requires EnvOk(w) && PortAt(w.env.nw.dpids, at) == Some(Port(n, Some(m)))
    requires env'.connected == w.env.connected && env'.tun == w.env.tun
    ensures var evs := VmEvent(env', at, n, Some(m), false);
            && |evs| <= 1
            && (evs == [] ==> at.dpid in w.flows ==> forall k :: !HoldsKey(ViewOf(w), at.dpid, at.port, k))
            && (evs != [] ==> var ev := evs[0];
                  Fits(env', w.ever, ev) && IsVmDel(ev) && ev.at == at && ev.n == n && ev.m == m)
  {
    hide Agree;
    assert at == PortId(at.dpid, at.port) && NetworkOf(w.env.nw.dpids, at) == n;
  }

  lemma GoneNetworkEvent(env: Env, ever: set<PortId>, at: PortId, n: NetworkId)
    requires PortAt(env.nw.dpids, at) == None && env.tun.remotes.Keys <= ever
    ensures forall ev | ev in NetworkPortEvent(env, at, n, false) :: Fits(env, ever, ev) && ev.TunnelPort?
  {
  }

  lemma RemovalDiffers(w: World, call: Call)
    requires WorldOk(w) && Allowed(w, StoreCall(call)) && call.op.RemovePort?
    ensures OnlyAtDiffers(ViewOf(w), EnvView(EnvAfter(w.env, StoreCall(call)), w.ever), call.op.at)
    ensures PortAt(EnvAfter(w.env, StoreCall(call)).nw.dpids, call.op.at) == None
  {
    hide FlowsOk, Agree, PortAt, PopPort;
    OnlyThatPort(w.env.nw.dpids);
    AbsentSwitch(w.env.nw.dpids, call.op.at);
  }

  lemma AbsentSwitch(dpids: DpidIndex, at: PortId)
    ensures at.dpid !in dpids ==> PortAt(dpids, at) == None
  {
  }

  lemma RemovalEvents(env: Env, port: Option<Port>, at: PortId, left: seq<Event>)
    requires |left| <= 1
    ensures var gone := MacGone(port, at);
            StoreEvents(env, gone + left) ==
              (if gone == [] then [] else StoreEvent(env, gone[0])) + (if left == [] then [] else StoreEvent(env, left[0]))
  {
    var gone := MacGone(port, at);
    if gone != [] { assert (gone + left)[1..] == left; }
    if left != [] { assert left[1..] == []; }
    if gone == [] { assert gone + left == left; }
  }

  // ------------------------------------------------- packets through tables

  /** What a packet carries that the rules look at; `tun` is 0 outside tunnels. */
  datatype Frame = Frame(src: Mac, dst: Mac, tun: Key)

  predicate Matches(rule: Rule, inPort: PortNo, f: Frame) {
    && (rule.inPort.Some? ==> rule.inPort.value == inPort)
    && (rule.tunId.Some? ==> rule.tunId.value == f.tun)
    && (rule.dlSrc.Some? ==> rule.dlSrc.value == f.src)
    && (rule.dlDst.Some? ==> rule.dlDst.value == f.dst)
  }

  /** `fk` is an entry the packet may hit: it matches, and nothing that matches
      has a higher priority. */
  ghost predicate Hits(t: Table, table: nat, inPort: PortNo, f: Frame, fk: FlowKey) {
    && fk in t && fk.table == table && Matches(fk.rule, inPort, f)
    && forall other | other in t && other.table == table && Matches(other.rule, inPort, f) ::
         other.priority <= fk.priority
  }

  function Tagged(f: Frame, a: Actions): Frame {
    if a.setTunnel.Some? then f.(tun := a.setTunnel.value) else f
  }

  /** Starting at `table`, the packet is output on port `q` as frame `g`, after
      at most `n` resubmits. */
  ghost predicate Emits(t: Table, table: nat, inPort: PortNo, f: Frame, q: PortNo, g: Frame, n: nat)
    decreases n, 1
  {
    exists fk :: Hits(t, table, inPort, f, fk) && Via(t, t[fk], inPort, f, q, g, n)
  }

  ghost predicate Via(t: Table, a: Actions, inPort: PortNo, f: Frame, q: PortNo, g: Frame, n: nat)
    decreases n, 0
  {
    || (q in a.outputs && g == Tagged(f, a))
    || (n > 0 && a.resubmit.Some? && Emits(t, a.resubmit.value, inPort, Tagged(f, a), q, g, n - 1))
  }

  /** The packet entering at port `at` leaves on port `out`, here or, after at
      most `hops` tunnels, on another switch.  A frame put on a tunnel port may
      come in on any tunnel port of any switch. */
  ghost predicate Reaches(w: World, at: PortId, f: Frame, out: PortId, hops: nat)
    decreases hops
  {
    at.dpid in w.flows && exists q, g, n ::
      Emits(w.flows[at.dpid], SRC_TABLE, at.port, f, q, g, n) &&
      (|| out == PortId(at.dpid, q)
       || (hops > 0 && PortId(at.dpid, q) in w.ever
           && exists entry :: entry in w.ever && Reaches(w, entry, g, out, hops - 1)))
  }

  predicate IsVmPortOf(s: Store, at: PortId, n: NetworkId) {
    n.Tenant? && NetworkOf(s.dpids, at) == n
  }

  /** From LOCAL_OUT on, packets with key `k` only reach ports that hold it. */
  lemma LocalEmits(v: View, d: Dpid, t: Table, inPort: PortNo, f: Frame, q: PortNo, g: Frame, n: nat)
    requires TableOk(v, d, t) && Emits(t, LOCAL_OUT_TABLE, inPort, f, q, g, n)
    ensures HoldsKey(v, d, q, f.tun)
  {
    var fk :| Hits(t, LOCAL_OUT_TABLE, inPort, f, fk) && Via(t, t[fk], inPort, f, q, g, n);
    assert RowOk(v, d, fk, t[fk]);
  }

  /** From TUNNEL_OUT on: the same, or a tunnel port with the key still on. */
  lemma TunnelEmits(v: View, d: Dpid, t: Table, inPort: PortNo, f: Frame, q: PortNo, g: Frame, n: nat)
    requires TableOk(v, d, t) && Emits(t, TUNNEL_OUT_TABLE, inPort, f, q, g, n)
    ensures HoldsKey(v, d, q, f.tun) || (PortId(d, q) in v.ever && g == f)
  {
    var fk :| Hits(t, TUNNEL_OUT_TABLE, inPort, f, fk) && Via(t, t[fk], inPort, f, q, g, n);
    assert RowOk(v, d, fk, t[fk]);
    if !(q in t[fk].outputs && g == Tagged(f, t[fk])) {
      LocalEmits(v, d, t, inPort, f, q, g, n - 1);
    }
  }

  /** Split horizon: what came in on a tunnel port leaves only on VM ports that
      hold the key it came with, never on a tunnel port. */
  lemma SplitHorizon(w: World, entry: PortId, f: Frame, q: PortNo, g: Frame, n: nat)
    requires WorldOk(w) && entry in w.ever && entry.dpid in w.flows
    requires Emits(w.flows[entry.dpid], SRC_TABLE, entry.port, f, q, g, n)
    ensures PortId(entry.dpid, q) !in w.ever
    ensures HoldsKey(ViewOf(w), entry.dpid, q, f.tun)
  {
    var t, d := w.flows[entry.dpid], entry.dpid;
    var fk :| Hits(t, SRC_TABLE, entry.port, f, fk) && Via(t, t[fk], entry.port, f, q, g, n);
    assert RowOk(ViewOf(w), d, fk, t[fk]);
    assert !NetworkOf(w.env.nw.dpids, entry).Tenant?;
    LocalEmits(ViewOf(w), d, t, entry.port, f, q, g, n - 1);
    assert NetworkOf(w.env.nw.dpids, PortId(d, q)).Tenant?;
  }

  /** A VM's packet leaves its own switch on a VM port of its tenant, or on a
      tunnel port under its tenant's key. */
  lemma VmEmits(w: World, at: PortId, f: Frame, q: PortNo, g: Frame, n: nat)
    requires WorldOk(w) && at.dpid in w.flows && NetworkOf(w.env.nw.dpids, at).Tenant?
    requires Emits(w.flows[at.dpid], SRC_TABLE, at.port, f, q, g, n)
    ensures MacOf(ViewOf(w), at.dpid, at.port) == Some(f.src)
    ensures exists k :: HoldsKey(ViewOf(w), at.dpid, at.port, k)
              && (HoldsKey(ViewOf(w), at.dpid, q, k) || (PortId(at.dpid, q) in w.ever && g.tun == k))
  {
    var v, t, d := ViewOf(w), w.flows[at.dpid], at.dpid;
    var fk :| Hits(t, SRC_TABLE, at.port, f, fk) && Via(t, t[fk], at.port, f, q, g, n);
    assert RowOk(v, d, fk, t[fk]);
    assert at !in w.ever;
    var k := t[fk].setTunnel.value;
    assert HoldsKey(v, d, at.port, k);
    TunnelEmits(v, d, t, at.port, Tagged(f, t[fk]), q, g, n - 1);
  }

  /** Tenant isolation: a packet entering on a VM port leaves the overlay, on
      whatever switch, only on VM ports of that port's network; and only if its
      source MAC is the port's own. */
  lemma Isolation(w: World, at: PortId, f: Frame, out: PortId, hops: nat, n: NetworkId)
    requires WorldOk(w) && IsVmPortOf(w.env.nw, at, n)
    requires Reaches(w, at, f, out, hops) && out !in w.ever
    ensures IsVmPortOf(w.env.nw, out, n)
    ensures PortAt(w.env.nw.dpids, at) == Some(Port(n, Some(f.src)))
  {
    var v := ViewOf(w);
    var q, g, i :| Emits(w.flows[at.dpid], SRC_TABLE, at.port, f, q, g, i) &&
      (|| out == PortId(at.dpid, q)
       || (hops > 0 && PortId(at.dpid, q) in w.ever
           && exists entry :: entry in w.ever && Reaches(w, entry, g, out, hops - 1)));
    VmEmits(w, at, f, q, g, i);
    var k :| HoldsKey(v, at.dpid, at.port, k)
             && (HoldsKey(v, at.dpid, q, k) || (PortId(at.dpid, q) in w.ever && g.tun == k));
    if out != PortId(at.dpid, q) {
      var entry :| entry in w.ever && Reaches(w, entry, g, out, hops - 1);
      assert PortId(at.dpid, q) in w.ever;
      assert HoldsKey(v, at.dpid, q, k) ==> NetworkOf(w.env.nw.dpids, PortId(at.dpid, q)).Tenant?;
      assert g.tun == k;
      TunnelArrival(w, entry, g, out, hops - 1);
    }
    SameKeySameNetwork(w, at, out, k);
  }

  /** A tunnelled packet goes no further than the switch it arrives on. */
  lemma TunnelArrival(w: World, entry: PortId, f: Frame, out: PortId, hops: nat)
    requires WorldOk(w) && entry in w.ever && Reaches(w, entry, f, out, hops)
    ensures out.dpid == entry.dpid && HoldsKey(ViewOf(w), out.dpid, out.port, f.tun)
  {
    var q, g, i :| Emits(w.flows[entry.dpid], SRC_TABLE, entry.port, f, q, g, i) &&
      (|| out == PortId(entry.dpid, q)
       || (hops > 0 && PortId(entry.dpid, q) in w.ever
           && exists entry' :: entry' in w.ever && Reaches(w, entry', g, out, hops - 1)));
    SplitHorizon(w, entry, f, q, g, i);
  }

  /** Injective keys: holders of one key are in one network. */
  lemma SameKeySameNetwork(w: World, a: PortId, b: PortId, k: Key)
    requires WorldOk(w) && HoldsKey(ViewOf(w), a.dpid, a.port, k) && HoldsKey(ViewOf(w), b.dpid, b.port, k)
    ensures NetworkOf(w.env.nw.dpids, a) == NetworkOf(w.env.nw.dpids, b)
  {
    assert a == PortId(a.dpid, a.port) && b == PortId(b.dpid, b.port);
  }

  // ------------------------------------------------------------------- runs

  function RunAll(w: World, steps: seq<Step>): World
    decreases |steps|
  {
    if steps == [] then w else RunAll(After(w, steps[0]), steps[1..])
  }

  predicate AllAllowed(w: World, steps: seq<Step>)
    decreases |steps|
  {
    steps == [] || (Allowed(w, steps[0]) && AllAllowed(After(w, steps[0]), steps[1..]))
  }

  lemma {:induction false} RunKeepsWorld(w: World, steps: seq<Step>)
    requires WorldOk(w) && AllAllowed(w, steps)
    ensures WorldOk(RunAll(w, steps))
    decreases |steps|
  {
    if steps != [] {
      StepKeepsFlows(w, steps[0]);
      RunKeepsWorld(After(w, steps[0]), steps[1..]);
    }
  }

  lemma StartOk()
    ensures WorldOk(START)
  {
    assert forall n, at :: MemberAgrees(EMPTY, n, at);
  }

  /** The property over whole runs, from the empty system. */
  lemma IsolationOverRuns(steps: seq<Step>, at: PortId, f: Frame, out: PortId, hops: nat, n: NetworkId)
    requires AllAllowed(START, steps)
    requires var w := RunAll(START, steps);
             IsVmPortOf(w.env.nw, at, n) && Reaches(w, at, f, out, hops) && out !in w.ever
    ensures IsVmPortOf(RunAll(START, steps).env.nw, out, n)
    ensures PortAt(RunAll(START, steps).env.nw.dpids, at) == Some(Port(n, Some(f.src)))
  {
    StartOk();
    RunKeepsWorld(START, steps);
    Isolation(RunAll(START, steps), at, f, out, hops, n);
  }

  // --------------------------------------------- why tunnel ports stay tunnels

  /** Rows for another in-port can go without the packet noticing. */
  lemma {:induction false} EmitsWithoutOtherPort(t: Table, gone: FlowKey, table: nat, inPort: PortNo, f: Frame, q: PortNo, g: Frame, n: nat)
    requires gone.rule.inPort.Some? && gone.rule.inPort.value != inPort
    requires Emits(t, table, inPort, f, q, g, n)
    ensures Emits(t - {gone}, table, inPort, f, q, g, n)
    decreases n
  {
    var fk :| Hits(t, table, inPort, f, fk) && Via(t, t[fk], inPort, f, q, g, n);
    assert Hits(t - {gone}, table, inPort, f, fk);
    if !(q in t[fk].outputs && g == Tagged(f, t[fk])) {
      EmitsWithoutOtherPort(t, gone, t[fk].resubmit.value, inPort, Tagged(f, t[fk]), q, g, n - 1);
    }
  }

  /** Closing tunnel port `q` and giving its number to a VM. */
  function Reuse(q: PortId, n: NetworkId): seq<Step> {
    [StoreCall(Call(Op.RemovePort(VportGre, q), [])), DropTunnel(q), StoreCall(Call(Op.CreatePort(n, q), []))]
  }

  /** A tunnel port in use, and a tenant to give its number to. */
  predicate CanReuse(w: World, q: PortId, n: NetworkId) {
    && q in w.env.tun.remotes && q.dpid in w.env.connected
    && PortAt(w.env.nw.dpids, q) == Some(Port(VportGre, None))
    && n.Tenant? && n in w.env.nw.networks
  }

  /** Closing a tunnel port takes only its SRC drop rule away. */
  lemma ClosedPort(w: World, q: PortId)
    requires WorldOk(w) && q in w.env.tun.remotes && q.dpid in w.env.connected
    requires PortAt(w.env.nw.dpids, q) == Some(Port(VportGre, None))
    ensures var step := StoreCall(Call(Op.RemovePort(VportGre, q), []));
            && Allowed(w, step)
            && After(w, step) == World(EnvAfter(w.env, step), TunnelPortDel(w.flows, q), w.ever)
            && EnvAfter(w.env, step).tun == w.env.tun
            && EnvAfter(w.env, step).nw.dpids == PopPort(w.env.nw.dpids, q)
            && EnvAfter(w.env, step).nw.networks == RemoveMember(w.env.nw.networks, VportGre, q)
  {
    hide FlowsOk, TunnelPortDel;
    var step := StoreCall(Call(Op.RemovePort(VportGre, q), []));
    var env1, sent := EnvAfter(w.env, step), NetworkPort(VportGre, q, false);
    assert MemberAgrees(w.env.nw, VportGre, q);
    assert Apply(w.env.nw, step.call.op, []).events == [sent];
    assert StoreEvents(env1, [sent]) == StoreEvent(env1, sent) + [];
    var ev := TunnelPort(q, w.env.tun.remotes[q], false);
    assert EventsOf(w.env, step) == [ev];
    assert HandleAll(env1, w.flows, [ev]) == Handle(env1, w.flows, ev) by { assert [ev][1..] == []; }
  }

  lemma DroppedTunnel(w: World, q: PortId)
    requires q in w.env.tun.remotes && PortAt(w.env.nw.dpids, q) == None
    ensures After(w, DropTunnel(q)) == w.(env := w.env.(tun := w.env.tun.(remotes := w.env.tun.remotes - {q})))
  {
    assert EventsOf(w.env, DropTunnel(q)) == [];
  }

  lemma GivenNumber(w: World, q: PortId, n: NetworkId)
    requires PortAt(w.env.nw.dpids, q) == None && n.Tenant? && n in w.env.nw.networks && !InNetwork(w.env.nw.networks, n, q)
    ensures var step := StoreCall(Call(Op.CreatePort(n, q), []));
            && After(w, step) == World(EnvAfter(w.env, step), w.flows, w.ever - {q})
            && EnvAfter(w.env, step).tun == w.env.tun
            && EnvAfter(w.env, step).nw.dpids == SetPort(w.env.nw.dpids, q, Port(n, None))
            && (Allowed(w, step) <==> FreeForVm(w, q) && q.port <= OFPP_MAX)
  {
    var step := StoreCall(Call(Op.CreatePort(n, q), []));
    var env', sent := EnvAfter(w.env, step), Apply(w.env.nw, step.call.op, []).events;
    assert sent == [NetworkPort(n, q, true)];
    assert StoreEvents(env', sent) == StoreEvent(env', sent[0]) + [];
    assert EventsOf(w.env, step) == [];
  }

  /** The whole reuse: the rows of the switch stay, less one drop rule. */
  lemma ReuseLeavesFlows(w: World, q: PortId, n: NetworkId)
    requires WorldOk(w) && CanReuse(w, q, n)
    ensures var w' := RunAll(w, Reuse(q, n));
            && w'.flows == TunnelPortDel(w.flows, q) && w'.ever == w.ever - {q} && IsVmPortOf(w'.env.nw, q, n)
            && w'.env.tun.keys == w.env.tun.keys
            && w'.env.nw.dpids == SetPort(PopPort(w.env.nw.dpids, q), q, Port(n, None))
            && (AllAllowed(w, Reuse(q, n)) <==> Unused(w'.flows, q) && q.port <= OFPP_MAX)
  {
    var steps := Reuse(q, n);
    var w1 := After(w, steps[0]);
    var w2 := After(w1, steps[1]);
    assert MemberAgrees(w.env.nw, n, q);
    ClosedPort(w, q);
    GonePort(w.env.nw.dpids, q);
    DroppedTunnel(w1, q);
    GivenNumber(w2, q, n);
    ThreeSteps(w, steps[0], steps[1], steps[2]);
    hide FlowsOk, TunnelPortDel, After, EnvAfter, Unused;
  }

  lemma GonePort(dpids: DpidIndex, q: PortId)
    requires q.dpid in dpids
    ensures PortAt(PopPort(dpids, q), q) == None
  {
  }

  lemma ThreeSteps(w: World, a: Step, b: Step, c: Step)
    ensures RunAll(w, [a, b, c]) == After(After(After(w, a), b), c)
    ensures AllAllowed(w, [a, b, c]) <==>
            Allowed(w, a) && Allowed(After(w, a), b) && Allowed(After(After(w, a), b), c)
  {
    hide After, Allowed;
    var w1, w2 := After(w, a), After(After(w, a), b);
    FirstStep(w, a, [b, c]);
    FirstStep(w1, b, [c]);
    FirstStep(w2, c, []);
    assert [a] + [b, c] == [a, b, c] && [b] + [c] == [b, c] && [c] + [] == [c];
  }

  lemma FirstStep(w: World, step: Step, rest: seq<Step>)
    ensures RunAll(w, [step] + rest) == RunAll(After(w, step), rest)
    ensures AllAllowed(w, [step] + rest) <==> Allowed(w, step) && AllAllowed(After(w, step), rest)
  {
    hide After, Allowed;
    assert ([step] + rest)[1..] == rest;
  }

  /** Rows are judged by what is on a port, not by how the store holds it. */
  lemma SameFactsSameRows(v: View, v': View, flows: Flows)
    requires v'.keys == v.keys && v'.ever == v.ever
    requires forall d, p, k :: HoldsKey(v', d, p, k) <==> HoldsKey(v, d, p, k)
    requires forall d, p :: MacOf(v', d, p) == MacOf(v, d, p)
    ensures FlowsOk(v', flows) <==> FlowsOk(v, flows)
  {
    hide HoldsKey, MacOf;
    forall d, fk | d in flows && fk in flows[d] ensures RowOk(v', d, fk, flows[d][fk]) <==> RowOk(v, d, fk, flows[d][fk]) {
      var a := flows[d][fk];
      if fk.table == SRC_TABLE { assert SrcRowOk(v', d, fk, a) <==> SrcRowOk(v, d, fk, a); }
    }
    if FlowsOk(v', flows) {
      forall d, fk | d in flows && fk in flows[d] ensures RowOk(v, d, fk, flows[d][fk]) { assert RowOk(v', d, fk, flows[d][fk]); }
    }
  }

  lemma DropRowUnused(w: World, q: PortId)
    requires WorldOk(w)
    ensures Unused(TunnelPortDel(w.flows, q), q) <==> Unused(w.flows, q)
    ensures FlowsOk(ViewOf(w), TunnelPortDel(w.flows, q))
  {
    if q.dpid in w.flows {
      var t, t' := w.flows[q.dpid], TunnelPortDel(w.flows, q)[q.dpid];
      if SrcDrop(q.port) in t { assert RowOk(ViewOf(w), q.dpid, SrcDrop(q.port), t[SrcDrop(q.port)]); }
      assert forall fk | fk in t :: fk in t' || fk == SrcDrop(q.port);
      if Unused(TunnelPortDel(w.flows, q), q) {
        forall fk | fk in t ensures !UsesTunnel(fk, t[fk], q.port) { assert fk in t' ==> !UsesTunnel(fk, t'[fk], q.port); }
      }
    }
    forall d, fk | d in TunnelPortDel(w.flows, q) && fk in TunnelPortDel(w.flows, q)[d]
      ensures RowOk(ViewOf(w), d, fk, TunnelPortDel(w.flows, q)[d][fk]) {
      assert fk in w.flows[d] && RowOk(ViewOf(w), d, fk, w.flows[d][fk]);
    }
  }

  /** A tunnel port may be closed and its number given to a VM exactly if no row
      of its switch outputs to it in TUNNEL_OUT or passes its packets on: then,
      and only then, every row still means what it says with the port a VM port,
      and the run is an allowed one. */
  lemma ReuseExactly(w: World, q: PortId, n: NetworkId)
    requires WorldOk(w) && CanReuse(w, q, n)
    ensures var w' := RunAll(w, Reuse(q, n));
            && q !in w'.ever && IsVmPortOf(w'.env.nw, q, n)
            && (FlowsOk(ViewOf(w'), w'.flows) <==> Unused(w.flows, q))
    ensures q.port <= OFPP_MAX ==> (AllAllowed(w, Reuse(q, n)) <==> Unused(w.flows, q))
  {
    hide RunAll, Reuse, WorldOk, Unused, FlowsOk, TunnelPortDel, AllAllowed, CanReuse, PortAt;
    var w', v := RunAll(w, Reuse(q, n)), ViewOf(w);
    ReuseLeavesFlows(w, q, n);
    DropRowUnused(w, q);
    NoTenant(w, q, n);
    StrikeExactly(v, w'.flows, q);
    var struck := v.(ever := v.ever - {q});
    forall d, p, k ensures HoldsKey(ViewOf(w'), d, p, k) <==> HoldsKey(struck, d, p, k) {
      RenumberedPort(struck, ViewOf(w'), q, n, d, p, k);
    }
    forall d, p ensures MacOf(ViewOf(w'), d, p) == MacOf(struck, d, p) { RenumberedPort(struck, ViewOf(w'), q, n, d, p, 0); }
    SameFactsSameRows(struck, ViewOf(w'), w'.flows);
  }

  lemma NoTenant(w: World, q: PortId, n: NetworkId)
    requires CanReuse(w, q, n)
    ensures !NetworkOf(w.env.nw.dpids, q).Tenant? && q.dpid in w.env.nw.dpids
    ensures PortAt(w.env.nw.dpids, q) == Some(Port(VportGre, None))
  {
  }

  /** Neither the tunnel port nor the new VM port, without a MAC yet, holds a key. */
  lemma RenumberedPort(v: View, v': View, q: PortId, n: NetworkId, d: Dpid, p: PortNo, k: Key)
    requires q.dpid in v.dpids && PortAt(v.dpids, q) == Some(Port(VportGre, None)) && v'.keys == v.keys
    requires v'.dpids == SetPort(PopPort(v.dpids, q), q, Port(n, None))
    ensures HoldsKey(v', d, p, k) <==> HoldsKey(v, d, p, k)
    ensures MacOf(v', d, p) == MacOf(v, d, p)
  {
    hide PortAt, SetPort, PopPort;
    OnlyThatPort(v.dpids);
    OnlyThatPort(PopPort(v.dpids, q));
  }

  /** What happens where it is used: a packet of one tenant that used to leave on
      the tunnel now leaves on another tenant's VM port. */
  lemma ReusedTunnelPortLeaks(w: World, at: PortId, f: Frame, q: PortNo, g: Frame, i: nat, n: NetworkId, n': NetworkId)
    requires WorldOk(w) && IsVmPortOf(w.env.nw, at, n) && at.dpid in w.flows
    requires Emits(w.flows[at.dpid], SRC_TABLE, at.port, f, q, g, i)
    requires CanReuse(w, PortId(at.dpid, q), n') && n' != n
    ensures var out, w' := PortId(at.dpid, q), RunAll(w, Reuse(PortId(at.dpid, q), n'));
            && IsVmPortOf(w'.env.nw, at, n) && IsVmPortOf(w'.env.nw, out, n')
            && Reaches(w', at, f, out, 0) && out !in w'.ever
  {
    var out := PortId(at.dpid, q);
    assert at != out;
    ReuseLeavesFlows(w, out, n');
    OnlyThatPort(w.env.nw.dpids);
    OnlyThatPort(PopPort(w.env.nw.dpids, out));
    EmitsWithoutOtherPort(w.flows[at.dpid], SrcDrop(q), SRC_TABLE, at.port, f, q, g, i);
  }
}
