/** No packet of a VM falls through a flow table: whatever a live port sends, each
    table it gets to has a row for it, so nothing is left to the controller. */
module OverlayGuards {
  import opened Wrappers
  import opened TenantStore
  import opened TunnelStore
  import opened Overlay
  import opened OverlaySystem
  import opened OverlayIsolation
  import opened OverlayLocal
  import opened OverlayCompiled
  import opened OverlayDelivery
  import opened OverlayCrossing

  /** A port's own drop row after an event: it comes with the port and goes with
      it, and a tunnel port loses it, too, once some tenant has no port left on the
      switch at the far end. */
  function GuardAfter(env: Env, ev: GreEvent, x: Dpid, q: PortNo, was: Option<Actions>): Option<Actions> {
    if ev.at == PortId(x, q) then (if ev.add then Some(DROP) else None)
    else if ev.VmPort? && !ev.add && ev.at.dpid != x && x in GetDpids(env.nw, ev.n)
            && Active(env, ev.n, ev.at.dpid) - {ev.at.port} == {} && q in UpTunnels(env, x, ev.at.dpid) then None
    else was
  }

  function GuardAll(env: Env, evs: seq<GreEvent>, x: Dpid, q: PortNo, was: Option<Actions>): Option<Actions>
    decreases |evs|
  {
    if evs == [] then was else GuardAll(env, evs[1..], x, q, GuardAfter(env, evs[0], x, q, was))
  }

  lemma AddHereGuard(env: Env, t: Table, n: NetworkId, k: Key, at: PortId, m: Mac, q: PortNo)
    ensures Lookup(AddHere(env, t, n, k, at, m), SrcDrop(q)) == if q == at.port then Some(DROP) else Lookup(t, SrcDrop(q))
  {
    hide Active, TunnelPorts, UpTunnels, WithMac, WaysTo;
  }

  lemma AddThereGuard(env: Env, t: Table, x: Dpid, n: NetworkId, k: Key, at: PortId, m: Mac, q: PortNo)
    ensures Lookup(AddThere(env, t, x, n, k, at, m), SrcDrop(q)) == Lookup(t, SrcDrop(q))
  {
    hide Active, TunnelPorts, UpTunnels, MacTunnels;
  }

  lemma DelHereGuard(env: Env, t: Table, n: NetworkId, k: Key, at: PortId, m: Mac, q: PortNo)
    ensures Lookup(DelHere(env, t, n, k, at, m), SrcDrop(q)) == if q == at.port then None else Lookup(t, SrcDrop(q))
  {
    hide Active, WithMac;
  }

  lemma DelThereGuard(env: Env, t: Table, x: Dpid, n: NetworkId, k: Key, at: PortId, m: Mac, q: PortNo)
    ensures Lookup(DelThere(env, t, x, n, k, at, m), SrcDrop(q)) ==
            if Active(env, n, at.dpid) - {at.port} == {} && q in UpTunnels(env, x, at.dpid) then None else Lookup(t, SrcDrop(q))
  {
    hide Active, TunnelPorts, UpTunnels, MacTunnels;
  }

  lemma NoGuardRows(env: Env, d: Dpid, p: PortNo, nets: set<NetworkId>, remote: Dpid, q: PortNo)
    requires nets <= env.tun.keys.Keys
    ensures SrcDrop(q) !in TunnelPasses(env, p, nets) && SrcDrop(q) !in TunnelMacs(env, p, nets, remote)
    ensures SrcDrop(q) !in TunnelFloods(env, d, p, nets)
  {
    hide FloodPorts;
  }

  lemma TunnelGuard(env: Env, t: Table, at: PortId, remote: Dpid, q: PortNo)
    ensures Lookup(TunnelAddHere(env, t, at, remote), SrcDrop(q)) == if q == at.port then Some(DROP) else Lookup(t, SrcDrop(q))
    ensures Lookup(DeleteStrict(t, SrcDrop(at.port)), SrcDrop(q)) == if q == at.port then None else Lookup(t, SrcDrop(q))
  {
    hide TunnelPasses, TunnelMacs, TunnelFloods;
    NoGuardRows(env, at.dpid, at.port, CommonNetworks(env, at.dpid, remote), remote, q);
  }

  lemma EventGuard(env: Env, flows: Flows, ev: GreEvent, x: Dpid, q: PortNo)
    requires x in flows
    ensures Lookup(Handle(env, flows, ev)[x], SrcDrop(q)) == GuardAfter(env, ev, x, q, Lookup(flows[x], SrcDrop(q)))
  {
    hide AddHere, AddThere, DelHere, DelThere, TunnelAddHere, DeleteStrict, Active, UpTunnels, GetDpids, Lookup;
    var t := flows[x];
    match ev
    case VmPort(n, k, at, m, true) => AddHereGuard(env, t, n, k, at, m, q); AddThereGuard(env, t, x, n, k, at, m, q);
    case VmPort(n, k, at, m, false) => DelHereGuard(env, t, n, k, at, m, q); DelThereGuard(env, t, x, n, k, at, m, q);
    case TunnelPort(at, remote, _) => TunnelGuard(env, t, at, remote, q);
  }

  lemma {:induction false} BatchGuard(env: Env, flows: Flows, evs: seq<GreEvent>, x: Dpid, q: PortNo)
    requires x in flows
    ensures x in HandleAll(env, flows, evs)
    ensures Lookup(HandleAll(env, flows, evs)[x], SrcDrop(q)) == GuardAll(env, evs, x, q, Lookup(flows[x], SrcDrop(q)))
    decreases |evs|
  {
    hide Handle, GuardAfter, Lookup;
    if evs != [] {
      HandledKeys(env, flows, evs[0]);
      EventGuard(env, flows, evs[0], x, q);
      BatchGuard(env, Handle(env, flows, evs[0]), evs[1..], x, q);
    }
  }

  /** A VM port that is up, in an environment in good order. */
  predicate VmUp(env: Env, ever: set<PortId>, x: Dpid, p: PortNo) {
    && env.tun.remotes.Keys <= ever && PortId(x, p) !in ever
    && PortAt(env.nw.dpids, PortId(x, p)).Some? && PortId(x, p) in env.up
  }

  lemma OneGuard(env: Env, ever: set<PortId>, ev: GreEvent, x: Dpid, p: PortNo)
    requires Apt(env, ever, ev) && VmUp(env, ever, x, p)
    ensures GuardAfter(env, ev, x, p, Some(DROP)) == Some(DROP)
  {
    hide Active, GetDpids;
  }

  /** An event adds the port itself. */
  predicate Announces(ev: GreEvent, x: Dpid, p: PortNo) {
    ev.VmPort? && ev.add && ev.at == PortId(x, p)
  }

  /** Events about other ports leave a VM port's drop row alone. */
  lemma {:induction false} GuardStays(env: Env, ever: set<PortId>, evs: seq<GreEvent>, x: Dpid, p: PortNo, was: Option<Actions>)
    requires VmUp(env, ever, x, p) && forall ev | ev in evs :: Apt(env, ever, ev)
    requires was == Some(DROP) || exists ev :: ev in evs && Announces(ev, x, p)
    ensures GuardAll(env, evs, x, p, was) == Some(DROP)
    decreases |evs|
  {
    hide Apt, VmUp;
    if evs != [] {
      assert Apt(env, ever, evs[0]);
      var now := GuardAfter(env, evs[0], x, p, was);
      if was == Some(DROP) {
        OneGuard(env, ever, evs[0], x, p);
      } else if !Announces(evs[0], x, p) {
        var ev :| ev in evs && Announces(ev, x, p);
        assert ev in evs[1..];
      }
      GuardStays(env, ever, evs[1..], x, p, now);
    }
  }

  ghost predicate GuardedAt(w: World, d: Dpid, p: PortNo)
    requires d in w.flows
  {
    Lookup(w.flows[d], SrcDrop(p)) == Some(DROP)
  }

  /** Every live port has a drop row for what it must not send. */
  ghost predicate AllGuarded(w: World) {
    forall n, d, p | d in w.flows && p in Live(w.env, n, d) :: GuardedAt(w, d, p)
  }

  lemma StepGuarded(w: World, step: Step)
    requires WorldOk(w) && Allowed(w, step) && AllGuarded(w)
    ensures AllGuarded(After(w, step))
  {
    hide WorldOk, Allowed, After, GuardedAt, Live;
    var w' := After(w, step);
    forall n, d, p | d in w'.flows && p in Live(w'.env, n, d) ensures GuardedAt(w', d, p) {
      GuardedNow(w, step, n, d, p);
    }
  }

  lemma ConnectedStays(w: World, step: Step, d: Dpid)
    requires EnvOk(w) && Allowed(w, step) && d in w.env.connected
    ensures d in w.flows && d in FlowsBefore(w, step) && FlowsBefore(w, step)[d] == w.flows[d]
  {
    hide Agree;
  }

  lemma GuardedNow(w: World, step: Step, n: NetworkId, d: Dpid, p: PortNo)
    requires WorldOk(w) && Allowed(w, step) && AllGuarded(w)
    requires d in After(w, step).flows && p in Live(After(w, step).env, n, d)
    ensures GuardedAt(After(w, step), d, p)
  {
    hide FlowsOk, Agree, Allowed, EventsOf, HandleAll, EnvAfter, Live;
    var w', evs, flows := After(w, step), EventsOf(w.env, step), FlowsBefore(w, step);
    StepKeepsFlows(w, step);
    StepApt(w, step);
    HandleAllKeys(w'.env, flows, evs);
    LivePort(w'.env, n, d, p);
    assert NetworkOf(w'.env.nw.dpids, PortId(d, p)).Tenant?;
    if p in Live(w.env, n, d) {
      LivePort(w.env, n, d, p);
      ConnectedStays(w, step, d);
      assert GuardedAt(w, d, p);
    } else {
      NewLiveAnnounced(w, step, n, d, p);
      var ev :| ev in evs && ev.VmPort? && ev.add && ev.n == n && ev.at.dpid == d && ev.at.port == p;
      assert Announces(ev, d, p);
    }
    BatchGuard(w'.env, flows, evs, d, p);
    GuardStays(w'.env, w'.ever, evs, d, p, Lookup(flows[d], SrcDrop(p)));
  }

  lemma {:induction false} RunGuarded(w: World, steps: seq<Step>)
    requires WorldOk(w) && AllGuarded(w) && AllAllowed(w, steps)
    ensures AllGuarded(RunAll(w, steps))
    decreases |steps|
  {
    hide WorldOk, AllGuarded, Allowed, After;
    if steps != [] {
      StepKeepsFlows(w, steps[0]);
      StepGuarded(w, steps[0]);
      RunGuarded(After(w, steps[0]), steps[1..]);
    }
  }

  // ------------------------------------------------------------- no misses

  /** Some row of the table is hit. */
  ghost predicate Caught(t: Table, table: nat, inPort: PortNo, f: Frame) {
    exists fk :: Hits(t, table, inPort, f, fk)
  }

  lemma RowCatches(t: Table, table: nat, inPort: PortNo, f: Frame, fk: FlowKey)
    requires fk in t && fk.table == table && Matches(fk.rule, inPort, f)
    ensures Caught(t, table, inPort, f)
  {
    var keys := set x | x in t && x.table == table && Matches(x.rule, inPort, f);
    assert fk in keys;
    SomeHit(t, table, inPort, f, keys);
  }

  /** Whatever a live port sends hits a row in SRC; under its tenant's key it hits
      one in TUNNEL_OUT and in LOCAL_OUT, too, as does what arrives under the key. */
  lemma NothingFallsThrough(w: World, n: NetworkId, d: Dpid, p: PortNo, f: Frame, entry: PortNo)
    requires Complete(w) && AllGuarded(w) && p in Live(w.env, n, d)
    ensures d in w.flows && n in w.env.tun.keys && Caught(w.flows[d], SRC_TABLE, p, f)
    ensures f.tun == w.env.tun.keys[n] ==>
              Caught(w.flows[d], TUNNEL_OUT_TABLE, entry, f) && Caught(w.flows[d], LOCAL_OUT_TABLE, entry, f)
  {
    hide Agree, Live, KeyRows, Caught, AllFlooded, AllPlain;
    LiveConnected(w.env, n, d);
    var t, k := w.flows[d], w.env.tun.keys[n];
    assert OwnedBy(w.env.tun.keys, n, k);
    assert GuardedAt(w, d, p) && LocalFromScratch(w.env, d, t) && Carries(w.env, d, t) && Carried(w.env, n, d, k, t);
    RowCatches(t, SRC_TABLE, p, f, SrcDrop(p));
    if f.tun == k {
      RowCatches(t, TUNNEL_OUT_TABLE, entry, f, TunnelPass(k));
      DropRowThere(w.env, ViewOf(w), n, d, t);
      RowCatches(t, LOCAL_OUT_TABLE, entry, f, LocalDrop(k));
    }
  }

  lemma DropRowThere(env: Env, v: View, n: NetworkId, d: Dpid, t: Table)
    requires TableOk(v, d, t) && LocalFromScratch(env, d, t) && Live(env, n, d) != {}
    ensures LocalDrop(env.tun.keys[n]) in t
  {
    hide KeyRows, Compiled, TableOk;
    LiveConnected(env, n, d);
    StateIsCompiled(env, v, n, d, t);
  }

  /** From the empty system, over every run that crowds no switch. */
  lemma NoMissOverRuns(steps: seq<Step>, n: NetworkId, d: Dpid, p: PortNo, f: Frame, entry: PortNo)
    requires AllAllowed(START, steps) && NeverCrowds(START, steps) && NeverGivesBroadcast(steps)
    requires p in Live(RunAll(START, steps).env, n, d)
    ensures var w := RunAll(START, steps);
            && d in w.flows && n in w.env.tun.keys && Caught(w.flows[d], SRC_TABLE, p, f)
            && (f.tun == w.env.tun.keys[n] ==>
                  Caught(w.flows[d], TUNNEL_OUT_TABLE, entry, f) && Caught(w.flows[d], LOCAL_OUT_TABLE, entry, f))
  {
    hide AllAllowed, NeverCrowds, NeverGivesBroadcast, RunAll, Live, Complete, AllGuarded, Caught, WorldOk;
    StartComplete();
    StartGuarded();
    RunComplete(START, steps);
    RunGuarded(START, steps);
    NothingFallsThrough(RunAll(START, steps), n, d, p, f, entry);
  }

  lemma StartGuarded()
    ensures WorldOk(START) && AllGuarded(START)
  {
    StartOk();
  }
}
