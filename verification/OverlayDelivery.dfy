/** Delivery on one switch: the rows that carry a VM's packets as far as LOCAL_OUT
    are there for every live port, up to the same step that leaves LOCAL_OUT
    incomplete. */
module OverlayDelivery {
  import opened Wrappers
  import opened TenantStore
  import opened TunnelStore
  import opened Overlay
  import opened OverlaySystem
  import opened OverlayIsolation
  import opened OverlayLocal
  import opened OverlayCompiled

  /** No row has a higher priority than the VMs' own. */
  ghost predicate Low(t: Table) {
    forall fk | fk in t :: fk.priority <= DEFAULT_PRIORITY
  }

  predicate Holds(env: Env, d: Dpid, p: PortNo, n: NetworkId, m: Mac) {
    PortAt(env.nw.dpids, PortId(d, p)) == Some(Port(n, Some(m)))
  }

  /** A live port's packets enter the tunnel key, and there is a way from
      TUNNEL_OUT to LOCAL_OUT exactly while some port is live. */
  ghost predicate Carried(env: Env, n: NetworkId, d: Dpid, k: Key, t: Table) {
    && (TunnelPass(k) in t <==> Live(env, n, d) != {})
    && forall p, m | p in Live(env, n, d) && Holds(env, d, p, n, m) :: Lookup(t, SrcVm(p, m)) == Some(EnterTunnel(k))
  }

  ghost predicate Carries(env: Env, d: Dpid, t: Table) {
    && Low(t)
    && (forall n, k | OwnedBy(env.tun.keys, n, k) :: Carried(env, n, d, k, t))
    && (forall k :: TunnelPass(k) in t ==> exists n :: OwnedBy(env.tun.keys, n, k))
  }

  ghost predicate AllCarried(w: World) {
    forall d | d in w.flows :: Carries(w.env, d, w.flows[d])
  }

  // ------------------------------------------------------ what an event does

  predicate On(ev: GreEvent, d: Dpid, k: Key) { ev.VmPort? && ev.at.dpid == d && ev.k == k }

  /** Whether TUNNEL_OUT has its pass row after an event. */
  predicate PassAfter(env: Env, ev: GreEvent, d: Dpid, k: Key, was: bool) {
    if !On(ev, d, k) then was
    else if ev.add then was || |Active(env, ev.n, d)| == 1
    else was && Active(env, ev.n, d) - {ev.at.port} != {}
  }

  /** A port's own row in SRC after an event. */
  function SourceAfter(ev: GreEvent, at: PortId, m: Mac, was: Option<Actions>): Option<Actions> {
    if !ev.VmPort? || ev.at != at then was
    else if !ev.add then None
    else if ev.m == m then Some(EnterTunnel(ev.k)) else was
  }

  ghost predicate UpstreamAfter(env: Env, ev: GreEvent, d: Dpid, t: Table, t': Table) {
    && (Low(t) ==> Low(t'))
    && (forall k :: TunnelPass(k) in t' <==> PassAfter(env, ev, d, k, TunnelPass(k) in t))
    && (forall p, m :: Lookup(t', SrcVm(p, m)) == SourceAfter(ev, PortId(d, p), m, Lookup(t, SrcVm(p, m))))
  }

  /** Rows that are neither pass rows nor a VM's own. */
  predicate Aside(fk: FlowKey) {
    && fk.priority <= DEFAULT_PRIORITY
    && (fk.table == SRC_TABLE ==> fk.rule.dlSrc == None)
    && (fk.table == TUNNEL_OUT_TABLE ==> fk.rule.dlDst.Some?)
  }

  /** Writing and deleting other rows changes nothing here. */
  ghost predicate SameUpstream(t: Table, t': Table) {
    && (forall fk | fk in t' && fk !in t :: Aside(fk))
    && (forall fk | !Aside(fk) :: Lookup(t', fk) == Lookup(t, fk))
  }

  lemma SameIsAfter(env: Env, ev: GreEvent, d: Dpid, t: Table, t': Table)
    requires SameUpstream(t, t') && !(ev.VmPort? && ev.at.dpid == d)
    ensures UpstreamAfter(env, ev, d, t, t')
  {
    forall k ensures TunnelPass(k) in t' <==> TunnelPass(k) in t { assert !Aside(TunnelPass(k)); }
    forall p, m ensures Lookup(t', SrcVm(p, m)) == Lookup(t, SrcVm(p, m)) { assert !Aside(SrcVm(p, m)); }
  }

  lemma ThereUpstream(env: Env, t: Table, x: Dpid, n: NetworkId, k: Key, at: PortId, m: Mac)
    ensures SameUpstream(t, AddThere(env, t, x, n, k, at, m))
    ensures SameUpstream(t, DelThere(env, t, x, n, k, at, m))
  {
    AddThereUpstream(env, t, x, n, k, at, m);
    hide AddThere, DelTunnel, DelWay, SameUpstream, Active;
    DelTunnelUpstream(env, t, x, n, k, at.dpid);
    var t1 := DelTunnel(env, t, x, n, k, at.dpid);
    DelWayUpstream(env, t, x, n, k, at, m);
    DelWayUpstream(env, t1, x, n, k, at, m);
    ThenSame(t, t1, DelWay(env, t1, x, n, k, at, m));
  }

  lemma AddThereUpstream(env: Env, t: Table, x: Dpid, n: NetworkId, k: Key, at: PortId, m: Mac)
    ensures SameUpstream(t, AddThere(env, t, x, n, k, at, m))
  {
    var rs, ways := GetDpids(env.nw, n) - {at.dpid}, UpTunnels(env, x, at.dpid);
    NothingUpstream(t);
    RemoteRowsAside(env, n, k, x, rs);
    hide SameUpstream, UpTunnels, TunnelPorts, MacTunnels, PassAll;
    WriteAside(t, t, TunnelMac(k, m), OutputThenLocal(MacTunnels(env, x, n, at, m) + ways));
    var t1 := t[TunnelMac(k, m) := OutputThenLocal(MacTunnels(env, x, n, at, m) + ways)];
    MergeAside(t, t1, PassAll(k, ways));
    WriteAside(t, t1 + PassAll(k, ways), TunnelBroadcast(k), OutputThenLocal(TunnelPorts(env, x, rs) + ways));
  }

  lemma ThenSame(a: Table, b: Table, c: Table)
    requires SameUpstream(a, b) && SameUpstream(b, c)
    ensures SameUpstream(a, c)
  {
    hide Aside;
  }

  lemma DelTunnelUpstream(env: Env, t: Table, x: Dpid, n: NetworkId, k: Key, d: Dpid)
    ensures SameUpstream(t, DelTunnel(env, t, x, n, k, d))
  {
  }

  lemma DelWayUpstream(env: Env, t: Table, x: Dpid, n: NetworkId, k: Key, at: PortId, m: Mac)
    ensures SameUpstream(t, DelWay(env, t, x, n, k, at, m))
  {
  }

  lemma MergeAside(t: Table, t1: Table, rows: Table)
    requires SameUpstream(t, t1) && forall fk | fk in rows :: Aside(fk)
    ensures SameUpstream(t, t1 + rows)
  {
    hide Aside;
  }

  lemma WriteAside(t: Table, t1: Table, fk: FlowKey, a: Actions)
    requires SameUpstream(t, t1) && Aside(fk)
    ensures SameUpstream(t, t1[fk := a])
  {
    hide Aside;
  }

  lemma TunnelRowsAside(env: Env, d: Dpid, p: PortNo, nets: set<NetworkId>, remote: Dpid)
    requires nets <= env.tun.keys.Keys
    ensures forall fk | fk in TunnelPasses(env, p, nets) :: Aside(fk)
    ensures forall fk | fk in TunnelMacs(env, p, nets, remote) :: Aside(fk)
    ensures forall fk | fk in TunnelFloods(env, d, p, nets) :: Aside(fk)
  {
  }

  lemma TunnelUpstream(env: Env, t: Table, at: PortId, remote: Dpid)
    ensures SameUpstream(t, TunnelAddHere(env, t, at, remote))
    ensures SameUpstream(t, DeleteStrict(t, SrcDrop(at.port)))
  {
    var d, nets := at.dpid, CommonNetworks(env, at.dpid, remote);
    TunnelRowsAside(env, d, at.port, nets, remote);
    hide SameUpstream, TunnelPasses, TunnelMacs, TunnelFloods, CommonNetworks;
    NothingUpstream(t);
    WriteAside(t, t, SrcDrop(at.port), DROP);
    var t1 := t[SrcDrop(at.port) := DROP];
    MergeAside(t, t1, TunnelPasses(env, at.port, nets));
    MergeAside(t, t1 + TunnelPasses(env, at.port, nets), TunnelMacs(env, at.port, nets, remote));
    MergeAside(t, t1 + TunnelPasses(env, at.port, nets) + TunnelMacs(env, at.port, nets, remote), TunnelFloods(env, d, at.port, nets));
    DropUpstream(t, at.port);
  }

  lemma DropUpstream(t: Table, p: PortNo)
    ensures SameUpstream(t, DeleteStrict(t, SrcDrop(p)))
  {
  }

  lemma LocalUpstream(env: Env, t: Table, n: NetworkId, k: Key, d: Dpid, m: Mac)
    ensures SameUpstream(t, AddLocal(env, t, n, k, d, m))
  {
  }

  lemma RemoteRowsAside(env: Env, n: NetworkId, k: Key, d: Dpid, rs: set<Dpid>)
    ensures forall fk | fk in RemoteMacs(env, n, k, d, rs) :: Aside(fk)
    ensures forall ports, fk | fk in PassAll(k, ports) :: Aside(fk)
  {
  }

  lemma AddHereUpstream(env: Env, t: Table, n: NetworkId, k: Key, at: PortId, m: Mac)
    ensures UpstreamAfter(env, VmPort(n, k, at, m, true), at.dpid, t, AddHere(env, t, n, k, at, m))
  {
    var d, rs, ev := at.dpid, GetDpids(env.nw, n) - {at.dpid}, VmPort(n, k, at, m, true);
    var first := |Active(env, n, d)| == 1;
    var t1 := AddLocal(env, t, n, k, d, m);
    var t2 := (if first then t1 + PassAll(k, TunnelPorts(env, d, rs)) else t1) + RemoteMacs(env, n, k, d, rs);
    RemoteRowsAside(env, n, k, d, rs);
    LocalUpstream(env, t, n, k, d, m);
    MergeAside(t, t1, PassAll(k, TunnelPorts(env, d, rs)));
    MergeAside(t, if first then t1 + PassAll(k, TunnelPorts(env, d, rs)) else t1, RemoteMacs(env, n, k, d, rs));
    hide AddLocal, PassAll, RemoteMacs, TunnelPorts, UpstreamAfter, Active;
    AddedUpstream(env, ev, t, t2, AddHere(env, t, n, k, at, m));
  }

  lemma AddedUpstream(env: Env, ev: GreEvent, t: Table, t2: Table, t': Table)
    requires ev.VmPort? && ev.add
    requires forall fk | fk in t2 && fk !in t :: Aside(fk)
    requires forall fk | !Aside(fk) :: Lookup(t2, fk) == Lookup(t, fk)
    requires forall fk | fk in t' && fk !in t2 :: fk.priority <= DEFAULT_PRIORITY
    requires forall fk | !Aside(fk) :: Lookup(t', fk) ==
               if fk == SrcVm(ev.at.port, ev.m) then Some(EnterTunnel(ev.k))
               else if fk == TunnelPass(ev.k) && |Active(env, ev.n, ev.at.dpid)| == 1 then Some(OutputThenLocal({}))
               else Lookup(t2, fk)
    ensures UpstreamAfter(env, ev, ev.at.dpid, t, t')
  {
    var d := ev.at.dpid;
    forall k ensures TunnelPass(k) in t' <==> PassAfter(env, ev, d, k, TunnelPass(k) in t) {
      assert !Aside(TunnelPass(k)) && (TunnelPass(k) == TunnelPass(ev.k) <==> k == ev.k);
    }
    forall p, m ensures Lookup(t', SrcVm(p, m)) == SourceAfter(ev, PortId(d, p), m, Lookup(t, SrcVm(p, m))) {
      assert !Aside(SrcVm(p, m));
    }
  }

  lemma DelHereUpstream(env: Env, t: Table, n: NetworkId, k: Key, at: PortId, m: Mac)
    ensures UpstreamAfter(env, VmPort(n, k, at, m, false), at.dpid, t, DelHere(env, t, n, k, at, m))
  {
    var t' := DelHere(env, t, n, k, at, m);
    var d, ev := at.dpid, VmPort(n, k, at, m, false);
    forall x ensures TunnelPass(x) in t' <==> PassAfter(env, ev, d, x, TunnelPass(x) in t) {}
    forall p, y ensures Lookup(t', SrcVm(p, y)) == SourceAfter(ev, PortId(d, p), y, Lookup(t, SrcVm(p, y))) {}
  }

  lemma EventUpstream(env: Env, flows: Flows, ev: GreEvent, d: Dpid)
    requires d in flows
    ensures UpstreamAfter(env, ev, d, flows[d], Handle(env, flows, ev)[d])
  {
    hide AddHere, AddThere, DelHere, DelThere, TunnelAddHere, SameUpstream, UpstreamAfter;
    var t, t' := flows[d], Handle(env, flows, ev)[d];
    NothingUpstream(t);
    match ev {
      case VmPort(n, k, at, m, add) =>
        if at.dpid == d {
          AddHereUpstream(env, t, n, k, at, m);
          DelHereUpstream(env, t, n, k, at, m);
        } else {
          ThereUpstream(env, t, d, n, k, at, m);
          SameIsAfter(env, ev, d, t, t');
        }
      case TunnelPort(at, remote, _) =>
        TunnelUpstream(env, t, at, remote);
        SameIsAfter(env, ev, d, t, t');
    }
  }

  lemma NothingUpstream(t: Table)
    ensures SameUpstream(t, t)
  {
  }

  // ------------------------------------------------------- a batch of events

  lemma {:induction false} LowStays(env: Env, flows: Flows, evs: seq<GreEvent>, d: Dpid)
    requires d in flows && Low(flows[d])
    ensures d in HandleAll(env, flows, evs) && Low(HandleAll(env, flows, evs)[d])
    decreases |evs|
  {
    hide Low;
    if evs != [] {
      EventUpstream(env, flows, evs[0], d);
      LowStays(env, Handle(env, flows, evs[0]), evs[1..], d);
    }
  }

  /** Additions bring the pass row exactly if there is one among them and the
      tenant has a single active port. */
  lemma {:induction false} BatchPass(env: Env, ever: set<PortId>, flows: Flows, evs: seq<GreEvent>, n: NetworkId, d: Dpid, k: Key)
    requires OwnedBy(env.tun.keys, n, k) && d in flows && Injective(env.tun.keys)
    requires forall ev | ev in evs :: Fits(env, ever, ev) && !IsVmDel(ev)
    ensures d in HandleAll(env, flows, evs)
    ensures TunnelPass(k) in HandleAll(env, flows, evs)[d]
            <==> TunnelPass(k) in flows[d] || (EventPorts(evs, n, d) != {} && |Active(env, n, d)| == 1)
    decreases |evs|
  {
    hide EventPorts, Active, Handle;
    if evs == [] {
      NoEventPorts(n, d);
    } else {
      EventUpstream(env, flows, evs[0], d);
      SplitEventPorts(evs, n, d);
      OneEventPorts(evs[0], n, d);
      assert Fits(env, ever, evs[0]);
      HandledKeys(env, flows, evs[0]);
      BatchPass(env, ever, Handle(env, flows, evs[0]), evs[1..], n, d, k);
      assert TunnelPass(k) in Handle(env, flows, evs[0])[d] <==> PassAfter(env, evs[0], d, k, TunnelPass(k) in flows[d]);
    }
  }

  lemma NoEventPorts(n: NetworkId, d: Dpid)
    ensures EventPorts([], n, d) == {}
  {
  }

  lemma OneEventPorts(ev: GreEvent, n: NetworkId, d: Dpid)
    ensures EventPorts([ev], n, d) == if ev.VmPort? && ev.add && ev.n == n && ev.at.dpid == d then {ev.at.port} else {}
  {
    assert ev in [ev];
  }

  lemma HandledKeys(env: Env, flows: Flows, ev: GreEvent)
    ensures Handle(env, flows, ev).Keys == flows.Keys
  {
  }

  /** No event writes a pass row under a key nobody owns. */
  lemma {:induction false} BatchUnowned(env: Env, ever: set<PortId>, flows: Flows, evs: seq<GreEvent>, d: Dpid, k: Key)
    requires d in flows && (forall n :: !OwnedBy(env.tun.keys, n, k)) && forall ev | ev in evs :: Fits(env, ever, ev)
    ensures d in HandleAll(env, flows, evs)
    ensures TunnelPass(k) in HandleAll(env, flows, evs)[d] <==> TunnelPass(k) in flows[d]
    decreases |evs|
  {
    hide Handle;
    if evs != [] {
      EventUpstream(env, flows, evs[0], d);
      HandledKeys(env, flows, evs[0]);
      assert Fits(env, ever, evs[0]) && (evs[0].VmPort? ==> OwnedBy(env.tun.keys, evs[0].n, evs[0].k));
      BatchUnowned(env, ever, Handle(env, flows, evs[0]), evs[1..], d, k);
    }
  }

  /** Every port that is added gets its own row, and keeps it. */
  lemma {:induction false} BatchSource(env: Env, ever: set<PortId>, flows: Flows, evs: seq<GreEvent>, n: NetworkId, d: Dpid, k: Key, p: PortNo, m: Mac)
    requires OwnedBy(env.tun.keys, n, k) && d in flows && PortAt(env.nw.dpids, PortId(d, p)) == Some(Port(n, Some(m)))
    requires forall ev | ev in evs :: Fits(env, ever, ev) && !IsVmDel(ev)
    ensures d in HandleAll(env, flows, evs)
    ensures Lookup(HandleAll(env, flows, evs)[d], SrcVm(p, m)) ==
            if p in EventPorts(evs, n, d) then Some(EnterTunnel(k)) else Lookup(flows[d], SrcVm(p, m))
    decreases |evs|
  {
    hide EventPorts, Handle, Lookup;
    if evs == [] {
      NoEventPorts(n, d);
    } else {
      EventUpstream(env, flows, evs[0], d);
      SplitEventPorts(evs, n, d);
      OneEventPorts(evs[0], n, d);
      assert Fits(env, ever, evs[0]);
      HandledKeys(env, flows, evs[0]);
      BatchSource(env, ever, Handle(env, flows, evs[0]), evs[1..], n, d, k, p, m);
      assert Lookup(Handle(env, flows, evs[0])[d], SrcVm(p, m)) == SourceAfter(evs[0], PortId(d, p), m, Lookup(flows[d], SrcVm(p, m)));
    }
  }

  /** Tunnel events change neither. */
  lemma {:induction false} TunnelBatch(env: Env, flows: Flows, evs: seq<GreEvent>, d: Dpid)
    requires d in flows && forall ev | ev in evs :: ev.TunnelPort?
    ensures d in HandleAll(env, flows, evs)
    ensures forall k :: TunnelPass(k) in HandleAll(env, flows, evs)[d] <==> TunnelPass(k) in flows[d]
    ensures forall p, m :: Lookup(HandleAll(env, flows, evs)[d], SrcVm(p, m)) == Lookup(flows[d], SrcVm(p, m))
    decreases |evs|
  {
    hide Handle, Lookup;
    if evs != [] {
      EventUpstream(env, flows, evs[0], d);
      HandledKeys(env, flows, evs[0]);
      assert evs[0] in evs;
      TunnelBatch(env, Handle(env, flows, evs[0]), evs[1..], d);
    }
  }

  // ------------------------------------------------------------- whole steps

  /** Before an adding step, seen with the keys of after it. */
  lemma CarriedBefore(w: World, step: Step, n: NetworkId, d: Dpid, k: Key)
    requires WorldOk(w) && Allowed(w, step) && AllCarried(w)
    requires OwnedBy(EnvAfter(w.env, step).tun.keys, n, k) && d in FlowsBefore(w, step)
    ensures var t, live := FlowsBefore(w, step)[d], Live(w.env, n, d);
            && (TunnelPass(k) in t <==> live != {})
            && (forall p, m | p in live && Holds(w.env, d, p, n, m) :: Lookup(t, SrcVm(p, m)) == Some(EnterTunnel(k)))
  {
    hide Agree, FlowsOk, EventsOf, HandleAll, Active;
    var t, keys := FlowsBefore(w, step)[d], w.env.tun.keys;
    if step.SwitchEnter? && step.d == d {
      assert t == map[] && d !in w.env.connected;
    } else {
      assert d in w.flows && Carries(w.env, d, t);
      if OwnedBy(keys, n, k) {
        assert Carried(w.env, n, d, k, t);
      } else {
        AllowedKeepsEnv(w, step);
        if n in keys { KeysKept(w, step, n, keys[n]); }
        if TunnelPass(k) in t {
          var n' :| OwnedBy(keys, n', k);
          KeysKept(w, step, n', k);
        }
      }
    }
  }

  /** One tenant on one switch after an adding step. */
  lemma CarriedAfter(w: World, step: Step, n: NetworkId, d: Dpid, k: Key)
    requires WorldOk(w) && Allowed(w, step) && AllCarried(w) && OnlyAdds(w, step)
    requires OwnedBy(EnvAfter(w.env, step).tun.keys, n, k) && d in After(w, step).flows
    ensures Carried(After(w, step).env, n, d, k, After(w, step).flows[d]) <==> !CrowdsAt(w, step, n, d)
  {
    hide Active, EventsOf, EnvAfter, Allowed, AllCarried, HandleAll, EventPorts, Lookup;
    var w', evs, flows := After(w, step), EventsOf(w.env, step), FlowsBefore(w, step);
    var live, live', ps := Live(w.env, n, d), Live(w'.env, n, d), EventPorts(evs, n, d);
    StepKeepsFlows(w, step);
    HandleAllKeys(w'.env, flows, evs);
    CarriedBefore(w, step, n, d, k);
    BatchPass(w'.env, w'.ever, flows, evs, n, d, k);
    EventPortsLive(w'.env, w'.ever, evs, n, d);
    LiveIsActive(w'.env, n, d);
    assert live <= live' by { assert forall p | p in live :: p in live'; }
    assert live' == live + ps;
    OneOrCrowd(live, live', ps);
    forall p, m | p in live' && Holds(w'.env, d, p, n, m) ensures Lookup(w'.flows[d], SrcVm(p, m)) == Some(EnterTunnel(k)) {
      assert p in live ==> Holds(w.env, d, p, n, m);
      BatchSource(w'.env, w'.ever, flows, evs, n, d, k, p, m);
    }
  }

  lemma OneOrCrowd(live: set<PortNo>, live': set<PortNo>, ps: set<PortNo>)
    requires live' == live + ps
    ensures (live != {} || (ps != {} && |live'| == 1) <==> live' != {}) <==> !(live == {} && |live'| >= 2)
  {
    if live == {} { assert live' == ps; }
  }

  lemma AddingCarries(w: World, step: Step)
    requires WorldOk(w) && Allowed(w, step) && AllCarried(w) && OnlyAdds(w, step)
    ensures AllCarried(After(w, step)) <==> !Crowds(w, step)
  {
    hide Carried, EventsOf, HandleAll, Allowed, Low, CrowdsAt, EnvAfter;
    var w', evs, flows := After(w, step), EventsOf(w.env, step), FlowsBefore(w, step);
    StepKeepsFlows(w, step);
    HandleAllKeys(w'.env, flows, evs);
    if Crowds(w, step) {
      var n, d :| CrowdsAt(w, step, n, d);
      CrowdsWhere(w, step, n, d);
      CarriedAfter(w, step, n, d, w'.env.tun.keys[n]);
      assert OwnedBy(w'.env.tun.keys, n, w'.env.tun.keys[n]);
    } else {
      forall d | d in w'.flows ensures Carries(w'.env, d, w'.flows[d]) {
        assert Low(flows[d]) by { NoRowsLow(); }
        LowStays(w'.env, flows, evs, d);
        forall n, k | OwnedBy(w'.env.tun.keys, n, k) ensures Carried(w'.env, n, d, k, w'.flows[d]) {
          CarriedAfter(w, step, n, d, k);
        }
        forall k | TunnelPass(k) in w'.flows[d] ensures exists n :: OwnedBy(w'.env.tun.keys, n, k) {
          PassOwned(w, step, d, k);
        }
      }
    }
  }

  lemma NoRowsLow()
    ensures Low(map[])
  {
  }

  lemma CrowdsWhere(w: World, step: Step, n: NetworkId, d: Dpid)
    requires EnvOk(After(w, step)) && CrowdsAt(w, step, n, d)
    ensures OwnedBy(After(w, step).env.tun.keys, n, After(w, step).env.tun.keys[n]) && d in After(w, step).flows
  {
    hide HandleAll, Agree;
  }

  lemma PassOwned(w: World, step: Step, d: Dpid, k: Key)
    requires WorldOk(w) && Allowed(w, step) && AllCarried(w) && d in After(w, step).flows
    requires TunnelPass(k) in After(w, step).flows[d]
    ensures exists n :: OwnedBy(After(w, step).env.tun.keys, n, k)
  {
    hide EventsOf, HandleAll, Allowed, Low, Carried, EnvAfter;
    var w', evs, flows := After(w, step), EventsOf(w.env, step), FlowsBefore(w, step);
    if forall n :: !OwnedBy(w'.env.tun.keys, n, k) {
      StepKeepsFlows(w, step);
      HandleAllKeys(w'.env, flows, evs);
      BatchUnowned(w'.env, w'.ever, flows, evs, d, k);
      assert d in w.flows && Carries(w.env, d, w.flows[d]);
      var n :| OwnedBy(w.env.tun.keys, n, k);
      KeysKept(w, step, n, k);
    }
  }

  /** What a withdrawing step does to the rows: only its first event counts. */
  lemma WithdrawnUpstream(w: World, step: Step, ev: GreEvent, d: Dpid)
    requires WorldOk(w) && Withdraws(w, step, ev) && d in After(w, step).flows
    ensures d in w.flows
    ensures forall k :: TunnelPass(k) in After(w, step).flows[d]
                        <==> PassAfter(After(w, step).env, ev, d, k, TunnelPass(k) in w.flows[d])
    ensures forall p, m :: Lookup(After(w, step).flows[d], SrcVm(p, m))
                           == SourceAfter(ev, PortId(d, p), m, Lookup(w.flows[d], SrcVm(p, m)))
  {
    hide EnvOk, FlowsOk, HandleAll, EventsOf, EnvAfter, Handle, Lookup, PassAfter, SourceAfter, Active, Live;
    var w', evs := After(w, step), EventsOf(w.env, step);
    HandleAllKeys(w'.env, w.flows, evs);
    HandledKeys(w'.env, w.flows, ev);
    EventUpstream(w'.env, w.flows, ev, d);
    TunnelBatch(w'.env, Handle(w'.env, w.flows, ev), evs[1..], d);
    HandleFirst(w'.env, w.flows, evs);
  }

  /** The withdrawn port was live for its own tenant only. */
  lemma WithdrawnLive(w: World, step: Step, ev: GreEvent, n: NetworkId, d: Dpid, k: Key)
    requires WorldOk(w) && Withdraws(w, step, ev) && OwnedBy(w.env.tun.keys, n, k) && d in w.env.connected
    ensures var was, now := Live(w.env, n, d), Live(EnvAfter(w.env, step), n, d);
            && now == Active(EnvAfter(w.env, step), n, d)
            && (!On(ev, d, k) ==> now == was)
            && (On(ev, d, k) ==> ev.n == n && ev.at.port !in now && now <= was)
  {
    hide FlowsOk, EventsOf, Agree;
    assert ev.n == n <==> ev.k == k;
    LiveIsActive(EnvAfter(w.env, step), n, d);
    if d == ev.at.dpid && ev.n != n {
      LivePort(w.env, n, d, ev.at.port);
      assert PortId(d, ev.at.port) == ev.at;
    }
  }

  /** One tenant on one switch after a step that withdraws a port. */
  lemma CarriedWithout(w: World, step: Step, ev: GreEvent, n: NetworkId, d: Dpid, k: Key)
    requires WorldOk(w) && Allowed(w, step) && AllCarried(w) && Withdraws(w, step, ev)
    requires OwnedBy(w.env.tun.keys, n, k) && d in After(w, step).flows
    ensures Carried(After(w, step).env, n, d, k, After(w, step).flows[d])
  {
    hide Agree, FlowsOk, HandleAll, EventsOf, EnvAfter, Allowed, Lookup, Live, Active, TableOk;
    var w' := After(w, step);
    WithdrawnUpstream(w, step, ev, d);
    WithdrawnLive(w, step, ev, n, d, k);
    assert Carries(w.env, d, w.flows[d]) && Carried(w.env, n, d, k, w.flows[d]);
    var live, live' := Live(w.env, n, d), Live(w'.env, n, d);
    assert TunnelPass(k) in w'.flows[d] <==> PassAfter(w'.env, ev, d, k, live != {});
    if On(ev, d, k) {
      assert live' - {ev.at.port} == live';
      assert live' != {} ==> live != {};
    }
    forall p, m | p in live' && Holds(w'.env, d, p, n, m) ensures Lookup(w'.flows[d], SrcVm(p, m)) == Some(EnterTunnel(k)) {
      LiveElsewhere(w, step, ev, n, d, p);
      assert p in live && Holds(w.env, d, p, n, m);
    }
  }

  lemma LiveElsewhere(w: World, step: Step, ev: GreEvent, n: NetworkId, d: Dpid, p: PortNo)
    requires Withdraws(w, step, ev) && p in Live(EnvAfter(w.env, step), n, d)
    ensures p in Live(w.env, n, d) && PortId(d, p) != ev.at
  {
    hide Live, EventsOf, EnvAfter;
  }

  lemma WithdrawingCarries(w: World, step: Step)
    requires WorldOk(w) && Allowed(w, step) && AllCarried(w) && HasVmDel(EventsOf(w.env, step))
    ensures AllCarried(After(w, step)) && !Crowds(w, step)
  {
    hide Agree, FlowsOk, Carried, EventsOf, HandleAll, Allowed, Low, EnvAfter, Live;
    var w', evs := After(w, step), EventsOf(w.env, step);
    var ev := WithdrawalShape(w, step);
    HandleAllKeys(w'.env, w.flows, evs);
    forall n, d ensures !CrowdsAt(w, step, n, d) {
      assert Live(EnvAfter(w.env, step), n, d) <= Live(w.env, n, d);
      if Live(w.env, n, d) == {} { assert Live(EnvAfter(w.env, step), n, d) == {}; }
    }
    forall d | d in w'.flows ensures Carries(w'.env, d, w'.flows[d]) {
      LowStays(w'.env, w.flows, evs, d);
      forall n, k | OwnedBy(w'.env.tun.keys, n, k) ensures Carried(w'.env, n, d, k, w'.flows[d]) {
        CarriedWithout(w, step, ev, n, d, k);
      }
      forall k | TunnelPass(k) in w'.flows[d] ensures exists n :: OwnedBy(w'.env.tun.keys, n, k) {
        PassOwned(w, step, d, k);
      }
    }
  }

  /** After any allowed step every live port's packets are carried to LOCAL_OUT,
      exactly unless the step made two ports of a tenant live at once where none
      was: then the way from TUNNEL_OUT is missing. */
  lemma CarriedExactly(w: World, step: Step)
    requires WorldOk(w) && Allowed(w, step) && AllCarried(w)
    ensures AllCarried(After(w, step)) <==> !Crowds(w, step)
  {
    hide WorldOk, Allowed, AllCarried, After, Crowds;
    if HasVmDel(EventsOf(w.env, step)) {
      WithdrawingCarries(w, step);
    } else {
      StepOnlyAdds(w, step);
      AddingCarries(w, step);
    }
  }

  lemma {:induction false} CarriedOverRuns(w: World, steps: seq<Step>)
    requires WorldOk(w) && AllCarried(w) && AllAllowed(w, steps) && NeverCrowds(w, steps)
    ensures AllCarried(RunAll(w, steps))
    decreases |steps|
  {
    hide WorldOk, Allowed, AllCarried, After, Crowds;
    if steps != [] {
      StepKeepsFlows(w, steps[0]);
      CarriedExactly(w, steps[0]);
      CarriedOverRuns(After(w, steps[0]), steps[1..]);
    }
  }

  // --------------------------------------------------------- packets arrive

  /** Among finitely many entries one has the highest priority. */
  lemma SomeHit(t: Table, table: nat, inPort: PortNo, f: Frame, keys: set<FlowKey>)
    requires keys != {} && forall fk :: fk in keys <==> fk in t && fk.table == table && Matches(fk.rule, inPort, f)
    ensures exists fk :: Hits(t, table, inPort, f, fk)
  {
    var fk := Highest(keys);
    assert Hits(t, table, inPort, f, fk);
  }

  lemma {:induction false} Highest(keys: set<FlowKey>) returns (best: FlowKey)
    requires keys != {}
    ensures best in keys && forall fk | fk in keys :: fk.priority <= best.priority
    decreases |keys|
  {
    best :| best in keys;
    if keys - {best} != {} {
      var other := Highest(keys - {best});
      if other.priority > best.priority { best := other; }
    }
  }

  /** Once in TUNNEL_OUT with the key's pass row there, a packet goes on to
      LOCAL_OUT, whatever row it hits. */
  lemma PassedOn(v: View, d: Dpid, t: Table, inPort: PortNo, f: Frame, q: PortNo)
    requires TableOk(v, d, t) && TunnelPass(f.tun) in t && Emits(t, LOCAL_OUT_TABLE, inPort, f, q, f, 0)
    ensures Emits(t, TUNNEL_OUT_TABLE, inPort, f, q, f, 1)
  {
    var keys := set fk | fk in t && fk.table == TUNNEL_OUT_TABLE && Matches(fk.rule, inPort, f);
    assert TunnelPass(f.tun) in keys;
    SomeHit(t, TUNNEL_OUT_TABLE, inPort, f, keys);
    var fk :| Hits(t, TUNNEL_OUT_TABLE, inPort, f, fk);
    assert RowOk(v, d, fk, t[fk]);
    assert Via(t, t[fk], inPort, f, q, f, 1);
  }

  /** In a state with both tables complete, a live port's packet to the MAC of
      another live port of its tenant on the switch comes out there. */
  lemma DeliveredLocally(w: World, n: NetworkId, d: Dpid, p: PortNo, m: Mac, q: PortNo, m': Mac)
    requires WorldOk(w) && FromScratch(w) && AllCarried(w)
    requires p in Live(w.env, n, d) && Holds(w.env, d, p, n, m)
    requires q in Live(w.env, n, d) && Holds(w.env, d, q, n, m') && p != q
    ensures d in w.flows && Reaches(w, PortId(d, p), Frame(m, m', 0), PortId(d, q), 0)
  {
    hide Agree, KeyRows;
    var t, k, v := w.flows[d], w.env.tun.keys[n], ViewOf(w);
    assert OwnedBy(w.env.tun.keys, n, k);
    assert LocalFromScratch(w.env, d, t) && Carries(w.env, d, t) && Carried(w.env, n, d, k, t);
    assert TableOk(v, d, t);
    LocalHit(w.env, v, n, d, q, m', t, p, Frame(m, m', k));
    PassedOn(v, d, t, p, Frame(m, m', k), q);
    SourceHit(t, p, Frame(m, m', 0), k, q);
  }

  lemma LocalHit(env: Env, v: View, n: NetworkId, d: Dpid, q: PortNo, m': Mac, t: Table, p: PortNo, f: Frame)
    requires LocalFromScratch(env, d, t) && Low(t)
    requires q in Live(env, n, d) && Holds(env, d, q, n, m') && f.dst == m' && f.tun == env.tun.keys[n]
    ensures Emits(t, LOCAL_OUT_TABLE, p, f, q, f, 0)
  {
    var k := env.tun.keys[n];
    var fk := LocalMac(k, m');
    PortsOfAt(env, PortId(d, q));
    assert LocalMac(k, PortsOf(env.nw, d)[q].mac.value) == fk;
    assert fk in Unicast(env, n, d, k) && q in WithMac(env, n, d, m');
    assert fk != LocalBroadcast(k) && fk != LocalDrop(k);
    assert fk in KeyRows(t, k) && KeyRows(t, k)[fk] == Output(WithMac(env, n, d, m'));
    assert Hits(t, LOCAL_OUT_TABLE, p, f, fk);
    assert Via(t, t[fk], p, f, q, f, 0);
  }

  lemma SourceHit(t: Table, p: PortNo, f: Frame, k: Key, q: PortNo)
    requires Low(t) && Lookup(t, SrcVm(p, f.src)) == Some(EnterTunnel(k))
    requires Emits(t, TUNNEL_OUT_TABLE, p, f.(tun := k), q, f.(tun := k), 1)
    ensures Emits(t, SRC_TABLE, p, f, q, f.(tun := k), 2)
  {
    hide Emits;
    var fk := SrcVm(p, f.src);
    assert Hits(t, SRC_TABLE, p, f, fk);
    assert Via(t, t[fk], p, f, q, f.(tun := k), 2);
    TakesHit(t, SRC_TABLE, p, f, q, f.(tun := k), 2, fk);
  }

  lemma TakesHit(t: Table, table: nat, inPort: PortNo, f: Frame, q: PortNo, g: Frame, n: nat, fk: FlowKey)
    requires Hits(t, table, inPort, f, fk) && Via(t, t[fk], inPort, f, q, g, n)
    ensures Emits(t, table, inPort, f, q, g, n)
  {
  }

  /** From the empty system, over every run that never crowds a switch: the VMs
      of a tenant on one switch reach each other. */
  lemma DeliveredOverRuns(steps: seq<Step>, n: NetworkId, d: Dpid, p: PortNo, m: Mac, q: PortNo, m': Mac)
    requires AllAllowed(START, steps) && NeverCrowds(START, steps)
    requires var env := RunAll(START, steps).env;
             && p in Live(env, n, d) && Holds(env, d, p, n, m)
             && q in Live(env, n, d) && Holds(env, d, q, n, m') && p != q
    ensures Reaches(RunAll(START, steps), PortId(d, p), Frame(m, m', 0), PortId(d, q), 0)
  {
    hide AllAllowed, NeverCrowds, RunAll, Live, Holds, Reaches;
    StartOk();
    RunKeepsWorld(START, steps);
    CompiledOverRuns(steps);
    CarriedOverRuns(START, steps);
    DeliveredLocally(RunAll(START, steps), n, d, p, m, q, m');
  }

  /** What a tenant's port sends goes through TUNNEL_OUT, or nowhere. */
  lemma ThroughTunnelOut(w: World, d: Dpid, p: PortNo, f: Frame, k: Key, q: PortNo, g: Frame, i: nat)
    requires WorldOk(w) && d in w.flows && HoldsKey(ViewOf(w), d, p, k)
    requires Emits(w.flows[d], SRC_TABLE, p, f, q, g, i)
    ensures i > 0 && Emits(w.flows[d], TUNNEL_OUT_TABLE, p, f.(tun := k), q, g, i - 1)
  {
    var t, v := w.flows[d], ViewOf(w);
    var fk :| Hits(t, SRC_TABLE, p, f, fk) && Via(t, t[fk], p, f, q, g, i);
    assert RowOk(v, d, fk, t[fk]);
    assert NetworkOf(w.env.nw.dpids, PortId(d, p)).Tenant? && PortId(d, p) !in v.ever;
    assert t[fk] == EnterTunnel(k);
  }

  lemma NoRowNoEmission(v: View, d: Dpid, t: Table, p: PortNo, f: Frame, q: PortNo, g: Frame, i: nat)
    requires TableOk(v, d, t)
    requires forall fk | fk in t && fk.table == TUNNEL_OUT_TABLE && fk.rule.tunId == Some(f.tun) ::
               fk.rule.dlDst.Some? && fk.rule.dlDst != Some(f.dst)
    ensures !Emits(t, TUNNEL_OUT_TABLE, p, f, q, g, i)
  {
    forall fk ensures !Hits(t, TUNNEL_OUT_TABLE, p, f, fk) {
      if fk in t { assert RowOk(v, d, fk, t[fk]); }
    }
  }

  /** Without the pass row, and with no row for the MAC, TUNNEL_OUT drops the
      packet: nothing comes out anywhere. */
  lemma NotDelivered(w: World, d: Dpid, p: PortNo, f: Frame, k: Key, q: PortNo, g: Frame, i: nat)
    requires WorldOk(w) && d in w.flows && HoldsKey(ViewOf(w), d, p, k)
    requires forall fk | fk in w.flows[d] && fk.table == TUNNEL_OUT_TABLE && fk.rule.tunId == Some(k) ::
               fk.rule.dlDst.Some? && fk.rule.dlDst != Some(f.dst)
    ensures !Emits(w.flows[d], SRC_TABLE, p, f, q, g, i)
  {
    if Emits(w.flows[d], SRC_TABLE, p, f, q, g, i) {
      ThroughTunnelOut(w, d, p, f, k, q, g, i);
      NoRowNoEmission(ViewOf(w), d, w.flows[d], p, f.(tun := k), q, g, i - 1);
    }
  }

  /** Registering the key of a network after two of its ports came up on one
      switch: that switch never gets its pass row either. */
  lemma LateKeySilences(w: World, n: NetworkId, k: Key, order: seq<PortId>, d: Dpid, p: PortNo, q: PortNo)
    requires WorldOk(w) && AllCarried(w) && Allowed(w, SetKey(n, k, false, order))
    requires n.Tenant? && RegisterKey(w.env.tun, n, k).Ok? && d in w.env.connected
    requires p != q && {p, q} <= Active(w.env, n, d)
    ensures var w' := After(w, SetKey(n, k, false, order));
            !AllCarried(w') && d in w'.flows && TunnelPass(k) !in w'.flows[d]
  {
    hide Agree, FlowsOk, HandleAll, Allowed, Active, EventsOf, AllCarried, EventPorts;
    var step := SetKey(n, k, false, order);
    var w' := After(w, step);
    var live' := Live(w'.env, n, d);
    assert live' == Active(w.env, n, d) && Live(w.env, n, d) == {} by { SameActive(w.env, w'.env, n, d); }
    assert |live'| >= 2 by { SubsetSmaller({p, q}, live'); }
    assert CrowdsAt(w, step, n, d);
    CarriedExactly(w, step);
    StepKeepsFlows(w, step);
    KeyStepFits(w, step);
    HandleAllKeys(w'.env, w.flows, EventsOf(w.env, step));
    CarriedBefore(w, step, n, d, k);
    BatchPass(w'.env, w'.ever, w.flows, EventsOf(w.env, step), n, d, k);
  }
}
