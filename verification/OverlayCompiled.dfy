/** Incremental equals from scratch: over whole runs, LOCAL_OUT of every switch is
    the table compiled afresh from the live ports, up to the one step that gets it
    wrong. */
module OverlayCompiled {
  import opened Wrappers
  import opened TenantStore
  import opened TunnelStore
  import opened Overlay
  import opened OverlaySystem
  import opened OverlayIsolation
  import opened OverlayLocal

  // ------------------------------------------------- new ports are announced

  /** A port live in `env` is announced when its own event is looked at. */
  lemma LivePortAnnounced(env: Env, n: NetworkId, d: Dpid, p: PortNo)
    requires p in Live(env, n, d) && p <= OFPP_MAX
    ensures EventPorts(PortEvent(env, PortId(d, p), true), n, d) == {p}
    ensures EventPorts(NetworkPortEvent(env, PortId(d, p), n, true), n, d) == {p}
    ensures forall m :: PortsOf(env.nw, d)[p].mac == Some(m) ==>
              EventPorts(VmEvent(env, PortId(d, p), n, Some(m), true), n, d) == {p}
  {
    var m := PortsOf(env.nw, d)[p].mac.value;
    var ev := VmPort(n, env.tun.keys[n], PortId(d, p), m, true);
    assert PortAt(env.nw.dpids, PortId(d, p)) == Some(Port(n, Some(m)));
    assert VmEvent(env, PortId(d, p), n, Some(m), true) == [ev];
    assert ev in [ev];
  }

  lemma {:induction false} ListedPortAnnounced(env: Env, ports: seq<PortId>, n: NetworkId, d: Dpid, p: PortNo)
    requires p in Live(env, n, d) && p <= OFPP_MAX && PortId(d, p) in ports
    ensures p in EventPorts(PortEvents(env, ports), n, d)
    ensures p in EventPorts(NetworkPortEvents(env, ports, n), n, d)
    decreases |ports|
  {
    hide Live, VmEvent, TunnelEvent, NetworkPortEvent, PortEvent;
    if ports[0] == PortId(d, p) {
      LivePortAnnounced(env, n, d, p);
    } else {
      ListedPortAnnounced(env, ports[1..], n, d, p);
    }
    MoreEvents(PortEvent(env, ports[0], true), PortEvents(env, ports[1..]), n, d);
    MoreEvents(NetworkPortEvent(env, ports[0], n, true), NetworkPortEvents(env, ports[1..], n), n, d);
  }

  lemma MoreEvents(a: seq<GreEvent>, b: seq<GreEvent>, n: NetworkId, d: Dpid)
    ensures EventPorts(a + b, n, d) == EventPorts(a, n, d) + EventPorts(b, n, d)
  {
  }

  // ------------------------------------------------------ the adding steps

  predicate HasVmDel(evs: seq<GreEvent>) {
    exists ev :: ev in evs && IsVmDel(ev)
  }

  /** Every allowed step that withdraws no VM port only adds. */
  lemma StepOnlyAdds(w: World, step: Step)
    requires WorldOk(w) && Allowed(w, step) && !HasVmDel(EventsOf(w.env, step))
    ensures OnlyAdds(w, step)
  {
    var env', evs := EnvAfter(w.env, step), EventsOf(w.env, step);
    forall n, d, p | p in Live(w.env, n, d)
      ensures p in Live(env', n, d) && PortAt(env'.nw.dpids, PortId(d, p)) == PortAt(w.env.nw.dpids, PortId(d, p))
    {
      LiveStays(w, step, n, d, p);
    }
    forall n, d ensures Live(env', n, d) <= Live(w.env, n, d) + EventPorts(evs, n, d) {
      forall p | p in Live(env', n, d) && p !in Live(w.env, n, d) ensures p in EventPorts(evs, n, d) {
        NewLiveAnnounced(w, step, n, d, p);
      }
    }
  }

  lemma LivePort(env: Env, n: NetworkId, d: Dpid, p: PortNo)
    ensures p in Live(env, n, d) <==>
            && n.Tenant? && n in env.tun.keys && d in env.connected && PortId(d, p) in env.up
            && (exists m :: PortAt(env.nw.dpids, PortId(d, p)) == Some(Port(n, Some(m))))
  {
    if p in Live(env, n, d) {
      assert PortAt(env.nw.dpids, PortId(d, p)) == Some(Port(n, Some(PortsOf(env.nw, d)[p].mac.value)));
    }
  }

  lemma LiveStays(w: World, step: Step, n: NetworkId, d: Dpid, p: PortNo)
    requires WorldOk(w) && Allowed(w, step) && !HasVmDel(EventsOf(w.env, step)) && p in Live(w.env, n, d)
    ensures p in Live(EnvAfter(w.env, step), n, d)
    ensures PortAt(EnvAfter(w.env, step).nw.dpids, PortId(d, p)) == PortAt(w.env.nw.dpids, PortId(d, p))
  {
    hide Live, Active, FlowsOk;
    LivePort(w.env, n, d, p);
    LivePort(EnvAfter(w.env, step), n, d, p);
    match step
    case StoreCall(call) =>
      HowPortsChange(w.env.nw, call.op, call.order, PortId(d, p));
      if PortAt(EnvAfter(w.env, step).nw.dpids, PortId(d, p)) != PortAt(w.env.nw.dpids, PortId(d, p)) {
        LiveRemovalWithdraws(w, call, n, d, p);
        assert false;
      }
    case PortDown(at) => if at == PortId(d, p) { LiveDownWithdraws(w, n, d, p); assert false; }
    case _ =>
  }

  lemma LiveRemovalWithdraws(w: World, call: Call, n: NetworkId, d: Dpid, p: PortNo)
    requires WorldOk(w) && Allowed(w, StoreCall(call)) && p in Live(w.env, n, d)
    requires call.op == Op.RemovePort(n, PortId(d, p))
    ensures HasVmDel(EventsOf(w.env, StoreCall(call)))
  {
    hide Active, Agree, FlowsOk, Safe, Apply;
    var macEvs, netEvs := RemovalShape(w, call);
    LivePort(w.env, n, d, p);
    assert HoldsKey(ViewOf(w), d, p, w.env.tun.keys[n]);
    assert macEvs[0] in macEvs + netEvs;
  }

  lemma LiveDownWithdraws(w: World, n: NetworkId, d: Dpid, p: PortNo)
    requires WorldOk(w) && p in Live(w.env, n, d)
    ensures HasVmDel(EventsOf(w.env, PortDown(PortId(d, p))))
  {
    hide Agree, FlowsOk;
    LivePort(w.env, n, d, p);
    var m :| PortAt(w.env.nw.dpids, PortId(d, p)) == Some(Port(n, Some(m)));
    assert NetworkOf(w.env.nw.dpids, PortId(d, p)).Tenant?;
    var ev := VmPort(n, w.env.tun.keys[n], PortId(d, p), m, false);
    assert EventsOf(w.env, PortDown(PortId(d, p))) == [ev];
    assert ev in [ev];
  }

  lemma NewLiveAnnounced(w: World, step: Step, n: NetworkId, d: Dpid, p: PortNo)
    requires WorldOk(w) && Allowed(w, step)
    requires p in Live(EnvAfter(w.env, step), n, d) && p !in Live(w.env, n, d)
    ensures p in EventPorts(EventsOf(w.env, step), n, d)
  {
    hide Live, Active, FlowsOk, EventPorts, PortEvent, Apply;
    var env', at := EnvAfter(w.env, step), PortId(d, p);
    AllowedKeepsEnv(w, step);
    LivePort(w.env, n, d, p);
    LivePort(env', n, d, p);
    assert NetworkOf(env'.nw.dpids, at).Tenant? && p <= OFPP_MAX;
    match step
    case StoreCall(call) => NewMacAnnounced(w, call, n, d, p);
    case SetKey(n', _, _, order) =>
      assert n' == n && MemberAgrees(w.env.nw, n, at);
      assert at in multiset(order);
      ListedPortAnnounced(env', order, n, d, p);
    case PortUp(at') => LivePortAnnounced(env', n, d, p);
    case SwitchEnter(d', ports, order) =>
      assert at in multiset(order);
      ListedPortAnnounced(env', order, n, d, p);
    case _ =>
  }

  /** Only a MAC that is set makes a port live by a store call. */
  lemma NewMacAnnounced(w: World, call: Call, n: NetworkId, d: Dpid, p: PortNo)
    requires WorldOk(w) && Allowed(w, StoreCall(call)) && p <= OFPP_MAX
    requires p in Live(EnvAfter(w.env, StoreCall(call)), n, d) && p !in Live(w.env, n, d)
    ensures p in EventPorts(EventsOf(w.env, StoreCall(call)), n, d)
  {
    hide Live, Active, FlowsOk, Agree, EventPorts, VmEvent, AddMac, RemoveMac;
    var s, at, env' := w.env.nw, PortId(d, p), EnvAfter(w.env, StoreCall(call));
    LivePort(w.env, n, d, p);
    LivePort(env', n, d, p);
    var m :| PortAt(env'.nw.dpids, at) == Some(Port(n, Some(m)));
    HowPortsChange(s, call.op, call.order, at);
    assert call.op == CreateMac(n, at, m) || call.op == UpdateMac(n, at, m);
    var sent := Apply(s, call.op, call.order).events;
    assert sent == [MacAddress(n, at, m, true)] by { MacCallAnnounces(s, call.op, call.order, n, at, m); }
    assert sent[1..] == [];
    var evs := VmEvent(env', at, n, Some(m), true);
    assert evs + [] == evs && StoreEvents(env', sent) == evs;
    PortsOfAt(env', at);
    LivePortAnnounced(env', n, d, p);
  }

  lemma MacCallAnnounces(s: Store, op: Op, order: seq<PortId>, n: NetworkId, at: PortId, m: Mac)
    requires op == CreateMac(n, at, m) || op == UpdateMac(n, at, m)
    requires PortAt(Apply(s, op, order).store.dpids, at) == Some(Port(n, Some(m))) != PortAt(s.dpids, at)
    ensures Apply(s, op, order).events == [MacAddress(n, at, m, true)]
  {
  }

  // ---------------------------------------------------- the withdrawing steps

  /** What a step that withdraws a VM port does: one withdrawal of a port of
      tenant `n`, then events of tunnel ports only. */
  ghost predicate Withdraws(w: World, step: Step, ev: GreEvent) {
    && (step.PortDown? || step.StoreCall?)
    && ev.VmPort? && !ev.add && EventsOf(w.env, step) != [] && EventsOf(w.env, step)[0] == ev
    && OwnedBy(w.env.tun.keys, ev.n, ev.k)
    && PortAt(w.env.nw.dpids, ev.at) == Some(Port(ev.n, Some(ev.m)))
    && (forall other | other in EventsOf(w.env, step)[1..] :: other.TunnelPort?)
    && (forall n, d :: Live(EnvAfter(w.env, step), n, d) == Live(w.env, n, d) - (if d == ev.at.dpid then {ev.at.port} else {}))
    && (forall x | x != ev.at :: PortAt(EnvAfter(w.env, step).nw.dpids, x) == PortAt(w.env.nw.dpids, x))
    && (PortAt(EnvAfter(w.env, step).nw.dpids, ev.at) == None || ev.at !in EnvAfter(w.env, step).up)
    && EnvAfter(w.env, step).tun == w.env.tun
    && EnvAfter(w.env, step).connected == w.env.connected
  }

  lemma WithdrawalShape(w: World, step: Step) returns (ev: GreEvent)
    requires WorldOk(w) && Allowed(w, step) && HasVmDel(EventsOf(w.env, step))
    ensures Withdraws(w, step, ev)
  {
    hide FlowsOk;
    var del :| del in EventsOf(w.env, step) && IsVmDel(del);
    match step
    case StoreCall(call) => ev := RemovalWithdraws(w, call);
    case PortDown(at) => ev := DownWithdraws(w, at);
    case SetKey(_, _, _, _) => KeyStepFits(w, step); assert false;
    case SwitchEnter(_, _, order) => PortEventsFit(EnvAfter(w.env, step), w.ever, order); assert false;
    case _ => OtherStepsWithdrawNothing(w, step); assert false;
  }

  lemma OtherStepsWithdrawNothing(w: World, step: Step)
    requires WorldOk(w) && Allowed(w, step) && (step.SetTunnel? || step.DropTunnel? || step.PortUp?)
    ensures !HasVmDel(EventsOf(w.env, step))
  {
    hide FlowsOk;
  }

  lemma RemovalWithdraws(w: World, call: Call) returns (ev: GreEvent)
    requires WorldOk(w) && Allowed(w, StoreCall(call)) && HasVmDel(EventsOf(w.env, StoreCall(call)))
    ensures Withdraws(w, StoreCall(call), ev)
  {
    hide FlowsOk, Apply, EventsOf, Agree;
    var evs := EventsOf(w.env, StoreCall(call));
    if !call.op.RemovePort? {
      CallEventsFit(w, call, w.ever);
      assert false;
    }
    var macEvs, netEvs := RemovalShape(w, call);
    var del :| del in evs && IsVmDel(del);
    assert macEvs != [];
    ev := macEvs[0];
    assert macEvs == [ev] && evs[1..] == netEvs;
    RemovedIsGone(w.env.nw, call);
    LiveWithout(w.env, EnvAfter(w.env, StoreCall(call)), ev.at);
  }

  lemma RemovedIsGone(s: Store, call: Call)
    requires call.op.RemovePort?
    ensures PortAt(Apply(s, call.op, call.order).store.dpids, call.op.at) == None
  {
  }

  lemma DownWithdraws(w: World, at: PortId) returns (ev: GreEvent)
    requires WorldOk(w) && HasVmDel(EventsOf(w.env, PortDown(at)))
    ensures Withdraws(w, PortDown(at), ev)
  {
    hide FlowsOk, Agree, Live;
    var evs := EventsOf(w.env, PortDown(at));
    ev :| ev in evs && IsVmDel(ev);
    assert evs == [ev];
    LiveWithout(w.env, EnvAfter(w.env, PortDown(at)), at);
  }

  lemma LiveWithout(env: Env, env': Env, at: PortId)
    requires env'.tun == env.tun && env'.connected == env.connected
    requires forall x | x != at :: PortAt(env'.nw.dpids, x) == PortAt(env.nw.dpids, x) && (x in env'.up <==> x in env.up)
    requires PortAt(env'.nw.dpids, at) == None || at !in env'.up
    ensures forall n, d :: Live(env', n, d) == Live(env, n, d) - (if d == at.dpid then {at.port} else {})
  {
    hide Live;
    forall n, d ensures Live(env', n, d) == Live(env, n, d) - (if d == at.dpid then {at.port} else {}) {
      forall p ensures p in Live(env', n, d) <==> p in Live(env, n, d) && PortId(d, p) != at {
        LivePort(env, n, d, p);
        LivePort(env', n, d, p);
      }
    }
  }

  /** Seen from after the step, the withdrawn port's tenant has its old rows. */
  lemma RowsButOne(w: World, step: Step, ev: GreEvent)
    requires WorldOk(w) && FromScratch(w) && Withdraws(w, step, ev) && ev.at.dpid in w.flows
    ensures var env' := EnvAfter(w.env, step);
            LocalStateBut(env', ev.at.dpid, ev.k, w.flows[ev.at.dpid], Live(env', ev.n, ev.at.dpid), ev.at.port, ev.m)
  {
    hide Agree, Compiled, KeyRows, Live, Active;
    var env', d, k, p := EnvAfter(w.env, step), ev.at.dpid, ev.k, ev.at.port;
    var t, live, live' := w.flows[d], Live(w.env, ev.n, d), Live(env', ev.n, d);
    assert LocalFromScratch(w.env, d, t);
    StateIsCompiled(w.env, ViewOf(w), ev.n, d, t);
    assert LocalState(w.env, d, k, t, live, live, live != {});
    forall m: Mac ensures Holders(env', d, live', m) == Holders(w.env, d, live, m) - {p} {
      HoldersWithout(w.env, env', d, live, ev.at, m);
    }
    forall m: Mac | m != ev.m ensures Lookup(t, LocalMac(k, m)) == OutputIfAny(Holders(env', d, live', m)) {
      assert Lookup(t, LocalMac(k, m)) == OutputIfAny(Holders(w.env, d, live, m));
      assert p !in Holders(w.env, d, live, m) by { assert PortId(d, p) == ev.at; PortsOfAt(w.env, ev.at); }
      assert Holders(w.env, d, live, m) - {p} == Holders(w.env, d, live, m);
    }
    assert Holders(w.env, d, live, ev.m) <= {p} by { SoleHolder(w, ev.n, ev.at, ev.m); }
    assert Holders(w.env, d, live, ev.m) == {} || Holders(w.env, d, live, ev.m) == {p};
    assert Lookup(t, LocalMac(k, ev.m)) == OutputIfAny(Holders(w.env, d, live, ev.m));
  }

  lemma PortsOfAt(env: Env, at: PortId)
    ensures at.port in PortsOf(env.nw, at.dpid) <==> PortAt(env.nw.dpids, at).Some?
    ensures at.port in PortsOf(env.nw, at.dpid) ==> PortAt(env.nw.dpids, at) == Some(PortsOf(env.nw, at.dpid)[at.port])
  {
  }

  lemma HoldersWithout(env: Env, env': Env, d: Dpid, handled: set<PortNo>, at: PortId, m: Mac)
    requires forall x | x != at :: PortAt(env'.nw.dpids, x) == PortAt(env.nw.dpids, x)
    requires at.dpid == d
    ensures Holders(env', d, handled - {at.port}, m) == Holders(env, d, handled, m) - {at.port}
  {
    forall p | p != at.port
      ensures p in PortsOf(env.nw, d) <==> p in PortsOf(env'.nw, d)
      ensures p in PortsOf(env.nw, d) ==> PortsOf(env'.nw, d)[p] == PortsOf(env.nw, d)[p]
    {
      PortsOfAt(env, PortId(d, p));
      PortsOfAt(env', PortId(d, p));
    }
  }

  /** On its own switch a port is the only one of its tenant with its MAC. */
  lemma SoleHolder(w: World, n: NetworkId, at: PortId, m: Mac)
    requires EnvOk(w) && PortAt(w.env.nw.dpids, at) == Some(Port(n, Some(m)))
    ensures Holders(w.env, at.dpid, Live(w.env, n, at.dpid), m) <= {at.port}
  {
    forall p | p in Holders(w.env, at.dpid, Live(w.env, n, at.dpid), m) ensures p == at.port {
      var x := PortId(at.dpid, p);
      PortsOfAt(w.env, x);
      assert MacAgrees(w.env.nw, n, m, at) && MacAgrees(w.env.nw, n, m, x);
      assert RareMac(w.env.nw.macs, n, at, m);
    }
  }

  /** Tunnel events leave every tenant's LOCAL_OUT rows alone. */
  lemma {:induction false} TunnelEventsLocal(env: Env, flows: Flows, evs: seq<GreEvent>, d: Dpid, k: Key)
    requires d in flows && forall ev | ev in evs :: ev.TunnelPort?
    ensures d in HandleAll(env, flows, evs) && KeyRows(HandleAll(env, flows, evs)[d], k) == KeyRows(flows[d], k)
    decreases |evs|
  {
    hide KeyRows;
    if evs != [] {
      assert evs[0] in evs;
      OtherEventLocal(env, flows, evs[0], d, k);
      TunnelEventsLocal(env, Handle(env, flows, evs[0]), evs[1..], d, k);
    }
  }

  lemma WithdrawnHere(w: World, step: Step, ev: GreEvent)
    requires WorldOk(w) && Allowed(w, step) && FromScratch(w) && Withdraws(w, step, ev)
    requires ev.at.dpid in After(w, step).flows
    ensures var w', d := After(w, step), ev.at.dpid; KeyRows(w'.flows[d], ev.k) == Compiled(w'.env, ev.n, d)
  {
    hide Agree, Compiled, KeyRows, Live, HandleAll, FromScratch, EventsOf, EnvAfter, Allowed, LocalState, LocalStateBut, DelHere, Handle;
    var w', d, evs := After(w, step), ev.at.dpid, EventsOf(w.env, step);
    StepKeepsFlows(w, step);
    HandleAllKeys(w'.env, w.flows, evs);
    RowsButOne(w, step, ev);
    var flows1 := WithdrawOne(w'.env, w.flows, evs, ev);
    TunnelEventsLocal(w'.env, flows1, evs[1..], d, ev.k);
    var rest := Live(w'.env, ev.n, d);
    assert rest == Active(w'.env, ev.n, d) by { LiveIsActive(w'.env, ev.n, d); }
    assert WithMac(w'.env, ev.n, d, ev.m) - {ev.at.port} == {} by { NoOtherHolder(w, step, ev); }
    DelHereLocal(w'.env, w.flows[d], ev.n, ev.k, ev.at, ev.m);
    LocalStateFrame(w'.env, d, ev.k, flows1[d], w'.flows[d], rest, rest, rest != {});
    StateIsCompiled(w'.env, ViewOf(w'), ev.n, d, w'.flows[d]);
  }

  lemma LiveIsActive(env: Env, n: NetworkId, d: Dpid)
    requires n.Tenant? && n in env.tun.keys && d in env.connected
    ensures Live(env, n, d) == Active(env, n, d)
  {
  }

  /** The first event, handled; the rest follow. */
  lemma WithdrawOne(env: Env, flows: Flows, evs: seq<GreEvent>, ev: GreEvent) returns (flows1: Flows)
    requires evs != [] && evs[0] == ev && ev.VmPort? && !ev.add && ev.at.dpid in flows
    ensures flows1 == Handle(env, flows, ev) && HandleAll(env, flows, evs) == HandleAll(env, flows1, evs[1..])
    ensures ev.at.dpid in flows1
    ensures flows1[ev.at.dpid] == DelHere(env, flows[ev.at.dpid], ev.n, ev.k, ev.at, ev.m)
  {
    hide DelHere, DelThere;
    flows1 := Handle(env, flows, ev);
  }

  lemma NoOtherHolder(w: World, step: Step, ev: GreEvent)
    requires EnvOk(w) && EnvOk(After(w, step)) && Withdraws(w, step, ev) && ev.at.dpid in w.flows
    ensures WithMac(After(w, step).env, ev.n, ev.at.dpid, ev.m) - {ev.at.port} == {}
  {
    hide Agree, HandleAll, EventsOf, EnvAfter, RareMac;
    var env', d := EnvAfter(w.env, step), ev.at.dpid;
    SoleHolder(w, ev.n, ev.at, ev.m);
    forall p | p in WithMac(env', ev.n, d, ev.m) && p != ev.at.port ensures false {
      PortsOfAt(env', PortId(d, p));
      PortsOfAt(w.env, PortId(d, p));
      LivePort(env', ev.n, d, p);
    }
  }

  /** Other tenants, and this tenant on other switches, keep their rows. */
  lemma WithdrawnElsewhere(w: World, step: Step, ev: GreEvent, n: NetworkId, d: Dpid)
    requires WorldOk(w) && Allowed(w, step) && FromScratch(w) && Withdraws(w, step, ev)
    requires d in After(w, step).flows && n in w.env.tun.keys && n.Tenant? && (n != ev.n || d != ev.at.dpid)
    ensures var w' := After(w, step); KeyRows(w'.flows[d], w.env.tun.keys[n]) == Compiled(w'.env, n, d)
  {
    hide Agree, FlowsOk, Compiled, KeyRows, HandleAll, EventsOf, EnvAfter, Allowed, Active;
    var w', evs, k := After(w, step), EventsOf(w.env, step), w.env.tun.keys[n];
    var flows1 := Handle(w'.env, w.flows, ev);
    HandleAllKeys(w'.env, w.flows, evs);
    OtherEventLocal(w'.env, w.flows, ev, d, k);
    TunnelEventsLocal(w'.env, flows1, evs[1..], d, k);
    assert HandleAll(w'.env, w.flows, evs) == HandleAll(w'.env, flows1, evs[1..]) by { HandleFirst(w'.env, w.flows, evs); }
    assert LocalFromScratch(w.env, d, w.flows[d]);
    SameCompiled(w, step, ev, n, d);
  }

  lemma HandleFirst(env: Env, flows: Flows, evs: seq<GreEvent>)
    requires evs != []
    ensures HandleAll(env, flows, evs) == HandleAll(env, Handle(env, flows, evs[0]), evs[1..])
  {
  }

  lemma SameCompiled(w: World, step: Step, ev: GreEvent, n: NetworkId, d: Dpid)
    requires Withdraws(w, step, ev) && n in w.env.tun.keys && n.Tenant? && (n != ev.n || d != ev.at.dpid)
    requires d in w.env.connected
    ensures Compiled(EnvAfter(w.env, step), n, d) == Compiled(w.env, n, d)
  {
    hide EventsOf, EnvAfter;
    var env' := EnvAfter(w.env, step);
    LiveIsActive(w.env, n, d);
    LiveIsActive(env', n, d);
    PortsOfAt(w.env, ev.at);
    assert d == ev.at.dpid ==> ev.at.port !in Active(w.env, n, d);
    assert Active(env', n, d) == Active(w.env, n, d);
    forall p | p in Active(w.env, n, d) ensures PortsOf(env'.nw, d)[p] == PortsOf(w.env.nw, d)[p] {
      PortsOfAt(w.env, PortId(d, p));
      PortsOfAt(env', PortId(d, p));
    }
    forall m: Mac ensures WithMac(env', n, d, m) == WithMac(w.env, n, d, m) {}
    assert Unicast(env', n, d, env'.tun.keys[n]) == Unicast(w.env, n, d, env'.tun.keys[n]);
  }

  /** A withdrawing step leaves LOCAL_OUT freshly compiled. */
  lemma WithdrawingStep(w: World, step: Step)
    requires WorldOk(w) && Allowed(w, step) && FromScratch(w) && HasVmDel(EventsOf(w.env, step))
    ensures FromScratch(After(w, step)) && !Crowds(w, step)
  {
    hide Agree, FlowsOk, Compiled, KeyRows, HandleAll, EventsOf, EnvAfter, Allowed, Live, FromScratch;
    var w' := After(w, step);
    var ev := WithdrawalShape(w, step);
    assert !Crowds(w, step) by {
      forall n, d ensures !CrowdsAt(w, step, n, d) {
        assert Live(EnvAfter(w.env, step), n, d) <= Live(w.env, n, d);
        if Live(w.env, n, d) == {} { assert Live(EnvAfter(w.env, step), n, d) == {}; }
      }
    }
    forall d | d in w'.flows ensures LocalFromScratch(w'.env, d, w'.flows[d]) {
      forall n | n in w'.env.tun.keys && n.Tenant?
        ensures KeyRows(w'.flows[d], w'.env.tun.keys[n]) == Compiled(w'.env, n, d)
      {
        if n == ev.n && d == ev.at.dpid { WithdrawnHere(w, step, ev); }
        else { WithdrawnElsewhere(w, step, ev, n, d); }
      }
      forall k | KeyRows(w'.flows[d], k) != map[] ensures exists n :: OwnedBy(w'.env.tun.keys, n, k) {
        NobodysRows(w, step, d, k);
      }
    }
    EachFromScratch(w');
  }

  lemma EachFromScratch(w: World)
    requires forall d | d in w.flows :: LocalFromScratch(w.env, d, w.flows[d])
    ensures FromScratch(w)
  {
  }

  // ------------------------------------------------------------ main results

  /** After any allowed step LOCAL_OUT is what the live ports call for, exactly
      unless the step made two ports of a tenant live at once where none was:
      then no event finds a single active port and the drop rule is missing. */
  lemma FromScratchExactly(w: World, step: Step)
    requires WorldOk(w) && Allowed(w, step) && FromScratch(w)
    ensures FromScratch(After(w, step)) <==> !Crowds(w, step)
  {
    hide WorldOk, Allowed, FromScratch, After, Crowds;
    if HasVmDel(EventsOf(w.env, step)) {
      WithdrawingStep(w, step);
    } else {
      StepOnlyAdds(w, step);
      AddingStep(w, step);
    }
  }

  ghost predicate NeverCrowds(w: World, steps: seq<Step>)
    decreases |steps|
  {
    steps == [] || (!Crowds(w, steps[0]) && NeverCrowds(After(w, steps[0]), steps[1..]))
  }

  lemma {:induction false} FromScratchOverRuns(w: World, steps: seq<Step>)
    requires WorldOk(w) && FromScratch(w) && AllAllowed(w, steps) && NeverCrowds(w, steps)
    ensures WorldOk(RunAll(w, steps)) && FromScratch(RunAll(w, steps))
    decreases |steps|
  {
    hide WorldOk, Allowed, FromScratch, After, Crowds;
    if steps != [] {
      StepKeepsFlows(w, steps[0]);
      FromScratchExactly(w, steps[0]);
      FromScratchOverRuns(After(w, steps[0]), steps[1..]);
    }
  }

  /** From the empty system, over every run that never crowds a switch. */
  lemma CompiledOverRuns(steps: seq<Step>)
    requires AllAllowed(START, steps) && NeverCrowds(START, steps)
    ensures FromScratch(RunAll(START, steps))
  {
    StartOk();
    FromScratchOverRuns(START, steps);
  }

  /** Registering the key of a network after two of its ports came up on one
      switch crowds them, so that switch never gets its drop rule. */
  lemma LateKeyCrowds(w: World, n: NetworkId, k: Key, order: seq<PortId>, d: Dpid, p: PortNo, q: PortNo)
    requires WorldOk(w) && FromScratch(w) && Allowed(w, SetKey(n, k, false, order))
    requires n.Tenant? && RegisterKey(w.env.tun, n, k).Ok? && d in w.env.connected
    requires p != q && {p, q} <= Active(w.env, n, d)
    ensures var w' := After(w, SetKey(n, k, false, order));
            && !FromScratch(w')
            && d in w'.flows && Lookup(w'.flows[d], LocalDrop(k)) == None
  {
    hide Agree, FlowsOk, FromScratch, HandleAll, Allowed, Active, EventsOf;
    var step := SetKey(n, k, false, order);
    var w' := After(w, step);
    var live' := Live(w'.env, n, d);
    assert live' == Active(w.env, n, d) && Live(w.env, n, d) == {} by { SameActive(w.env, w'.env, n, d); }
    assert |live'| >= 2 by { SubsetSmaller({p, q}, live'); }
    assert CrowdsAt(w, step, n, d);
    FromScratchExactly(w, step);
    KeyStepFits(w, step);
    StepOnlyAdds(w, step);
    HandleAllKeys(w'.env, w.flows, EventsOf(w.env, step));
    RowsAfter(w, step, n, d, k);
    assert LocalState(w'.env, d, k, w'.flows[d], live', live', false);
  }

  lemma SameActive(env: Env, env': Env, n: NetworkId, d: Dpid)
    requires env'.nw == env.nw && env'.up == env.up
    ensures Active(env', n, d) == Active(env, n, d)
  {
  }
}
