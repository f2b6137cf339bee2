/** The tunnel mesh of app/tunnel_port_updater.py: which pairs of switches have
    asked for a tunnel, kept in step with the tenant store event by event. */
module TunnelMesh {
  import opened Wrappers
  import opened TenantStore

  /** TunnelRequests: switch -> the switches it wants a tunnel to. */
  type Requests = map<Dpid, set<Dpid>>

  /** Raised by the handlers: a dictionary or set lookup that misses. */
  datatype Failure = KeyError

  function Linked(req: Requests, a: Dpid): set<Dpid> {
    if a in req then req[a] else {}
  }

  /** TunnelRequests.add for `a` and every switch of `rs`. */
  function Link(req: Requests, a: Dpid, rs: set<Dpid>): Requests {
    map d | d in req.Keys + rs + (if rs == {} then {} else {a}) ::
      Linked(req, d) + (if d == a then rs else {}) + (if d in rs then {a} else {})
  }

  /** TunnelRequests.remove for `a` and every switch of `rs`. */
  function Unlink(req: Requests, a: Dpid, rs: set<Dpid>): Requests {
    map d | d in req :: req[d] - (if d == a then rs else {}) - (if d in rs then {a} else {})
  }

  /** remove finds both entries for every switch of `rs`. */
  predicate CanUnlink(req: Requests, a: Dpid, rs: set<Dpid>) {
    forall r | r in rs :: r in Linked(req, a) && a in Linked(req, r)
  }

  /** The networks the ports of a switch are in. */
  function NetworksOn(s: Store, d: Dpid): set<NetworkId>
    requires d in s.dpids
  {
    set p | p in s.dpids[d] :: s.dpids[d][p].network
  }

  function TenantsBut(s: Store, d: Dpid, n: NetworkId): set<NetworkId>
    requires d in s.dpids
  {
    set x | x in NetworksOn(s, d) && x != n && x.Tenant?
  }

  function VmPortAdd(s: Store, req: Requests, n: NetworkId, d: Dpid): Result<Requests, Failure> {
    if d !in GetDpids(s, n) then Err(KeyError) else Ok(Link(req, d, GetDpids(s, n) - {d}))
  }

  /** The switches that lose their tunnel to `d` when it leaves network `n`. */
  function Strangers(s: Store, n: NetworkId, d: Dpid): set<Dpid>
    requires d in s.dpids && GetDpids(s, n) - {d} <= s.dpids.Keys
  {
    set r | r in GetDpids(s, n) - {d} && TenantsBut(s, d, n) * NetworksOn(s, r) == {}
  }

  function VmPortDel(s: Store, req: Requests, n: NetworkId, d: Dpid): Result<Requests, Failure> {
    if d in s.dpids && n in NetworksOn(s, d) then Ok(req)
    else if d !in s.dpids || !(GetDpids(s, n) - {d} <= s.dpids.Keys) then Err(KeyError)
    else if !CanUnlink(req, d, Strangers(s, n, d)) then Err(KeyError)
    else Ok(Unlink(req, d, Strangers(s, n, d)))
  }

  /** network_port_handler; it observes no other event of the store. */
  function Handle(s: Store, req: Requests, ev: Event): Result<Requests, Failure> {
    if !ev.NetworkPort? || !ev.network.Tenant? then Ok(req)
    else if ev.add then VmPortAdd(s, req, ev.network, ev.at.dpid)
    else VmPortDel(s, req, ev.network, ev.at.dpid)
  }

  function HandleAll(s: Store, req: Requests, evs: seq<Event>): Result<Requests, Failure>
    decreases |evs|
  {
    if evs == [] then Ok(req)
    else
      var r := Handle(s, req, evs[0]);
      if r.Err? then r else HandleAll(s, r.value, evs[1..])
  }

  // ------------------------------------------------- the mesh is the tenancy

  /** Both switches have a port in tenant network `n`. */
  predicate Both(s: Store, n: NetworkId, a: Dpid, b: Dpid) {
    n.Tenant? && a in GetDpids(s, n) && b in GetDpids(s, n)
  }

  ghost predicate Shares(s: Store, a: Dpid, b: Dpid) {
    a != b && exists n :: Both(s, n, a, b)
  }

  /** Two switches ask for a tunnel exactly when they share a tenant. */
  ghost predicate MeshIsTenancy(s: Store, req: Requests) {
    forall a, b :: b in Linked(req, a) <==> Shares(s, a, b)
  }

  /** As above, but switch `d` may still miss links it owes to network `m`. */
  ghost predicate MeshBut(s: Store, req: Requests, m: NetworkId, d: Dpid) {
    && (forall a, b :: b in Linked(req, a) ==> Shares(s, a, b))
    && (forall n, a, b :: Both(s, n, a, b) && a != b && (n == m ==> a != d && b != d) ==> b in Linked(req, a))
  }

  /** A switch has a port in a network exactly when the network lists it. */
  lemma PortsShowMembership(s: Store, n: NetworkId, d: Dpid)
    requires Agree(s) && n != Unknown
    ensures d in GetDpids(s, n) <==> d in s.dpids && n in NetworksOn(s, d)
  {
    if d in GetDpids(s, n) {
      var at :| at in s.networks[n] && at.dpid == d;
      assert MemberAgrees(s, n, at);
      assert at.port in s.dpids[d] && s.dpids[d][at.port].network == n;
    }
    if d in s.dpids && n in NetworksOn(s, d) {
      var p :| p in s.dpids[d] && s.dpids[d][p].network == n;
      assert MemberAgrees(s, n, PortId(d, p));
    }
  }

  lemma AddHandled(s: Store, req: Requests, n: NetworkId, d: Dpid)
    requires Agree(s) && n.Tenant? && MeshBut(s, req, n, d) && d in GetDpids(s, n)
    ensures VmPortAdd(s, req, n, d).Ok? && MeshIsTenancy(s, VmPortAdd(s, req, n, d).value)
  {
    var req' := VmPortAdd(s, req, n, d).value;
    var rs := GetDpids(s, n) - {d};
    forall a, b ensures b in Linked(req', a) <==> Shares(s, a, b) {
      if b in Linked(req', a) && b !in Linked(req, a) {
        assert Both(s, n, a, b);
      }
      if Shares(s, a, b) {
        var x :| Both(s, x, a, b);
        assert x == n && (a == d || b == d) ==> a in rs || b in rs;
      }
    }
  }

  /** The strangers to `d` are the switches of `n` it shares no tenant with. */
  lemma StrangersShareNothing(s: Store, n: NetworkId, d: Dpid, r: Dpid)
    requires Agree(s) && n.Tenant? && d in s.dpids && d !in GetDpids(s, n) && GetDpids(s, n) - {d} <= s.dpids.Keys
    ensures r in Strangers(s, n, d) <==> r in GetDpids(s, n) && !Shares(s, d, r)
  {
    if r in GetDpids(s, n) {
      if Shares(s, d, r) {
        var x :| Both(s, x, d, r);
        PortsShowMembership(s, x, d);
        PortsShowMembership(s, x, r);
        assert x in TenantsBut(s, d, n) * NetworksOn(s, r);
      }
      if TenantsBut(s, d, n) * NetworksOn(s, r) != {} {
        var x :| x in TenantsBut(s, d, n) * NetworksOn(s, r);
        PortsShowMembership(s, x, d);
        PortsShowMembership(s, x, r);
        assert Both(s, x, d, r);
      }
    }
  }

  /** Between two stores, switch `d` at most left network `n` and joined `m`. */
  ghost predicate Moved(s: Store, s': Store, n: NetworkId, m: NetworkId, d: Dpid) {
    && (forall x :: x != n && x != m ==> GetDpids(s', x) == GetDpids(s, x))
    && (n != m ==> GetDpids(s, n) - {d} <= GetDpids(s', n) <= GetDpids(s, n))
    && (m != n ==> GetDpids(s, m) <= GetDpids(s', m) <= GetDpids(s, m) + {d})
  }

  lemma DelHandled(s: Store, s': Store, req: Requests, n: NetworkId, m: NetworkId, d: Dpid)
    requires Agree(s') && MeshIsTenancy(s, req) && Moved(s, s', n, m, d) && n != m
    requires n.Tenant? && d in GetDpids(s, n) && d in s'.dpids
    ensures VmPortDel(s', req, n, d).Ok? && MeshBut(s', VmPortDel(s', req, n, d).value, m, d)
  {
    PortsShowMembership(s', n, d);
    forall r | r in GetDpids(s', n) ensures r in s'.dpids { PortsShowMembership(s', n, r); }
    if d in GetDpids(s', n) {
      DelKeepsRest(s, s', req, req, n, m, d);
    } else {
      forall r ensures r in Strangers(s', n, d) <==> r in GetDpids(s', n) && !Shares(s', d, r) {
        if r in GetDpids(s', n) || r in Strangers(s', n, d) { StrangersShareNothing(s', n, d, r); }
      }
      forall r | r in Strangers(s', n, d) ensures r in Linked(req, d) && d in Linked(req, r) {
        assert Both(s, n, d, r) && Both(s, n, r, d);
      }
      var req' := Unlink(req, d, Strangers(s', n, d));
      forall a, b ensures LinkFate(req, req', s', n, d, a, b) {
        assert a == d ==> (b in Strangers(s', n, d) <==> Dropped(s', n, d, b));
        assert b == d ==> (a in Strangers(s', n, d) <==> Dropped(s', n, d, a));
      }
      DelKeepsRest(s, s', req, Unlink(req, d, Strangers(s', n, d)), n, m, d);
    }
  }

  /** Dropping exactly the links of `d` into `n` that no other tenant backs. */
  lemma DelKeepsRest(s: Store, s': Store, req: Requests, req': Requests, n: NetworkId, m: NetworkId, d: Dpid)
    requires MeshIsTenancy(s, req) && Moved(s, s', n, m, d) && n != m
    requires forall a, b :: LinkFate(req, req', s', n, d, a, b)
    ensures MeshBut(s', req', m, d)
  {
    forall a, b | b in Linked(req', a) ensures Shares(s', a, b) {
      assert LinkFate(req, req', s', n, d, a, b) && Shares(s, a, b);
      var x :| Both(s, x, a, b);
      if x != n || (a != d && b != d) || d in GetDpids(s', n) {
        assert Both(s', x, a, b);
      } else {
        var r := if a == d then b else a;
        assert r in GetDpids(s', n) && Shares(s', d, r);
        var y :| Both(s', y, d, r);
        assert Both(s', y, a, b);
      }
    }
    forall x, a, b | Both(s', x, a, b) && a != b && (x == m ==> a != d && b != d)
      ensures b in Linked(req', a)
    {
      assert LinkFate(req, req', s', n, d, a, b) && Both(s, x, a, b) && Both(s', x, b, a);
    }
  }

  /** A link survives unless it joins `d` to a switch dropped with network `n`. */
  ghost predicate LinkFate(req: Requests, req': Requests, s: Store, n: NetworkId, d: Dpid, a: Dpid, b: Dpid) {
    b in Linked(req', a) <==>
    b in Linked(req, a) && !(a == d && Dropped(s, n, d, b)) && !(b == d && Dropped(s, n, d, a))
  }

  ghost predicate Dropped(s: Store, n: NetworkId, d: Dpid, r: Dpid) {
    d !in GetDpids(s, n) && r in GetDpids(s, n) && !Shares(s, d, r)
  }

  /** Nothing but `d` joining `m` happened to the tenants. */
  lemma JoinKeepsRest(s: Store, s': Store, req: Requests, m: NetworkId, d: Dpid)
    requires MeshIsTenancy(s, req)
    requires forall x: NetworkId :: x.Tenant? && x != m ==> GetDpids(s', x) == GetDpids(s, x)
    requires m.Tenant? ==> GetDpids(s, m) <= GetDpids(s', m) <= GetDpids(s, m) + {d}
    ensures MeshBut(s', req, m, d)
  {
    forall a, b | b in Linked(req, a) ensures Shares(s', a, b) {
      assert Shares(s, a, b);
      var x :| Both(s, x, a, b);
      assert Both(s', x, a, b);
    }
    forall x, a, b | Both(s', x, a, b) && a != b && (x == m ==> a != d && b != d)
      ensures b in Linked(req, a)
    {
      assert Both(s, x, a, b);
    }
  }

  /** The add event that ends a move pays the remaining debt. */
  lemma AddPays(s: Store, req: Requests, ev: Event)
    requires ev.NetworkPort? && ev.add && InNetwork(s.networks, ev.network, ev.at)
    requires Agree(s) && MeshBut(s, req, ev.network, ev.at.dpid)
    ensures Handle(s, req, ev).Ok? && MeshIsTenancy(s, Handle(s, req, ev).value)
  {
    if ev.network.Tenant? {
      AddHandled(s, req, ev.network, ev.at.dpid);
    } else {
      forall a, b | Shares(s, a, b) ensures b in Linked(req, a) {
        var x :| Both(s, x, a, b);
      }
    }
  }

  lemma MoveHandled(s: Store, req: Requests, n: NetworkId, at: PortId, mayExist: bool)
    requires Agree(s) && MeshIsTenancy(s, req)
    requires Agree(ApplyUpdatePort(s, n, at, mayExist).store)
    ensures var out := ApplyUpdatePort(s, n, at, mayExist);
            var r := HandleAll(out.store, req, out.events);
            r.Ok? && MeshIsTenancy(out.store, r.value)
  {
    var out := ApplyUpdatePort(s, n, at, mayExist);
    var was := NetworkOf(s.dpids, at);
    var s' := out.store;
    assert MemberAgrees(s, was, at) && MemberAgrees(s', n, at);
    if out.events == [] {
      assert forall x :: GetDpids(s', x) == GetDpids(s, x);
      SameTenancy(s, s', req);
    } else {
      assert GetDpids(s', n) == GetDpids(s, n) + {at.dpid};
      var gain := NetworkPort(n, at, true);
      if was == Unknown {
        JoinKeepsRest(s, s', req, n, at.dpid);
        AddPays(s', req, gain);
        assert out.events == [gain];
        OneEvent(s', req, gain);
      } else {
        assert forall x | x != was && x != n :: GetDpids(s', x) == GetDpids(s, x);
        assert GetDpids(s, was) - {at.dpid} <= GetDpids(s', was) <= GetDpids(s, was) by {
          LeavingLosesOne(s, s', was, at);
        }
        var lose := NetworkPort(was, at, false);
        if was.Tenant? { DelHandled(s, s', req, was, n, at.dpid); } else { JoinKeepsRest(s, s', req, n, at.dpid); }
        var req1 := Handle(s', req, lose).value;
        AddPays(s', req1, gain);
        assert out.events == [lose] + [gain];
        OneEvent(s', req1, gain);
      }
    }
  }

  lemma OneEvent(s: Store, req: Requests, ev: Event)
    requires Handle(s, req, ev).Ok?
    ensures HandleAll(s, req, [ev]) == Handle(s, req, ev)
  {
    assert [ev][1..] == [];
  }

  lemma LeavingLosesOne(s: Store, s': Store, n: NetworkId, at: PortId)
    requires n in s.networks && n in s'.networks && s'.networks[n] == s.networks[n] - {at}
    ensures GetDpids(s, n) - {at.dpid} <= GetDpids(s', n) <= GetDpids(s, n)
  {
    forall d | d in GetDpids(s, n) - {at.dpid} ensures d in GetDpids(s', n) {
      var x :| x in s.networks[n] && x.dpid == d;
      assert x in s'.networks[n];
    }
  }

  lemma SameTenancy(s: Store, s': Store, req: Requests)
    requires MeshIsTenancy(s, req)
    requires forall x: NetworkId :: x.Tenant? ==> GetDpids(s', x) == GetDpids(s, x)
    ensures MeshIsTenancy(s', req)
  {
    assert forall x, a, b :: Both(s', x, a, b) <==> Both(s, x, a, b);
    forall a, b ensures b in Linked(req, a) <==> Shares(s', a, b) {
      assert b in Linked(req, a) <==> Shares(s, a, b);
    }
  }

  lemma RemovalHandled(s: Store, req: Requests, n: NetworkId, at: PortId)
    requires Agree(s) && MeshIsTenancy(s, req)
    requires Agree(ApplyRemovePort(s, n, at).store)
    ensures var out := ApplyRemovePort(s, n, at);
            var r := HandleAll(out.store, req, out.events);
            r.Ok? && MeshIsTenancy(out.store, r.value)
  {
    var out := ApplyRemovePort(s, n, at);
    var s' := out.store;
    assert MemberAgrees(s, n, at);
    if InNetwork(s.networks, n, at) {
      var lose := NetworkPort(n, at, false);
      LeavingLosesOne(s, s', n, at);
      assert forall x | x != n :: GetDpids(s', x) == GetDpids(s, x);
      if n.Tenant? {
        DelHandled(s, s', req, n, Unknown, at.dpid);
        assert GetDpids(s', Unknown) == {};
        var req1 := Handle(s', req, lose).value;
        forall a, b ensures b in Linked(req1, a) <==> Shares(s', a, b) {
          if Shares(s', a, b) { var x :| Both(s', x, a, b); }
        }
      } else {
        SameTenancy(s, s', req);
      }
      OneEvent(s', req, lose);
      if out.events != [lose] {
        assert out.events[1..] == [lose] && Handle(s', req, out.events[0]) == Ok(req);
      }
    } else {
      assert forall x :: GetDpids(s', x) == GetDpids(s, x);
      SameTenancy(s, s', req);
      if out.events != [] { assert out.events[1..] == []; }
    }
  }

  /** The ports of a network are popped in some order, each once. */
  predicate PopOrder(s: Store, call: Call) {
    call.op.RemoveNetwork? && call.op.n in s.networks ==>
      multiset(call.order) == multiset(s.networks[call.op.n])
  }

  /** The remaining calls move no port in or out of a network. */
  lemma OtherCallHandled(s: Store, req: Requests, call: Call)
    requires MeshIsTenancy(s, req) && Safe(s, call.op) && PopOrder(s, call)
    requires !call.op.CreatePort? && !call.op.UpdatePort? && !call.op.RemovePort?
    ensures var out := Apply(s, call.op, call.order);
            var r := HandleAll(out.store, req, out.events);
            r.Ok? && MeshIsTenancy(out.store, r.value)
  {
    var out := Apply(s, call.op, call.order);
    assert |out.events| <= 1 && (out.events != [] ==> !out.events[0].NetworkPort?) by {
      if call.op.RemoveNetwork? && call.op.n in s.networks { assert |multiset(call.order)| == 0; }
    }
    forall x: NetworkId ensures GetDpids(out.store, x) == GetDpids(s, x) { TenantsStay(s, call, x); }
    SameTenancy(s, out.store, req);
    if out.events != [] { assert out.events == [out.events[0]]; OneEvent(out.store, req, out.events[0]); }
  }

  lemma TenantsStay(s: Store, call: Call, x: NetworkId)
    requires Safe(s, call.op)
    requires !call.op.CreatePort? && !call.op.UpdatePort? && !call.op.RemovePort?
    ensures GetDpids(Apply(s, call.op, call.order).store, x) == GetDpids(s, x)
  {
  }

  /** One store call and then its events: no handler fails, and the mesh is
      again exactly shared tenancy. */
  lemma CallKeepsMesh(s: Store, req: Requests, call: Call)
    requires Agree(s) && MeshIsTenancy(s, req)
    requires Safe(s, call.op) && PopOrder(s, call)
    ensures var out := Apply(s, call.op, call.order);
            var r := HandleAll(out.store, req, out.events);
            r.Ok? && MeshIsTenancy(out.store, r.value)
  {
    AgreementExactlyWhenSafe(s, call.op, call.order);
    match call.op
    case CreatePort(n, at) => MoveHandled(s, req, n, at, false);
    case UpdatePort(n, at) => MoveHandled(s, req, n, at, true);
    case RemovePort(n, at) => RemovalHandled(s, req, n, at);
    case _ => OtherCallHandled(s, req, call);
  }

  // ------------------------------------------------------------------- runs

  function RunMesh(s: Store, req: Requests, calls: seq<Call>): Result<(Store, Requests), Failure>
    decreases |calls|
  {
    if calls == [] then Ok((s, req))
    else
      var out := Apply(s, calls[0].op, calls[0].order);
      var r := HandleAll(out.store, req, out.events);
      if r.Err? then Err(r.error) else RunMesh(out.store, r.value, calls[1..])
  }

  predicate PopOrders(s: Store, calls: seq<Call>)
    decreases |calls|
  {
    calls == [] ||
    (PopOrder(s, calls[0]) && PopOrders(Apply(s, calls[0].op, calls[0].order).store, calls[1..]))
  }

  /** Every run of safe calls: no handler ever looks up a missing entry, and in
      the end two switches ask for a tunnel iff they share a tenant. */
  lemma {:induction false} RunKeepsMesh(s: Store, req: Requests, calls: seq<Call>)
    requires Agree(s) && MeshIsTenancy(s, req) && SafeRun(s, calls) && PopOrders(s, calls)
    ensures var r := RunMesh(s, req, calls);
            r.Ok? && r.value.0 == Run(s, calls) && MeshIsTenancy(r.value.0, r.value.1)
    decreases |calls|
  {
    if calls != [] {
      CallKeepsMesh(s, req, calls[0]);
      AgreementExactlyWhenSafe(s, calls[0].op, calls[0].order);
      var out := Apply(s, calls[0].op, calls[0].order);
      RunKeepsMesh(out.store, HandleAll(out.store, req, out.events).value, calls[1..]);
    }
  }

  /** Tunnels are asked for in both directions or not at all. */
  lemma MeshIsSymmetric(s: Store, req: Requests, a: Dpid, b: Dpid)
    requires MeshIsTenancy(s, req)
    ensures b in Linked(req, a) <==> a in Linked(req, b)
    ensures a !in Linked(req, a)
  {
    assert forall n :: Both(s, n, a, b) <==> Both(s, n, b, a);
    assert b in Linked(req, a) <==> Shares(s, a, b);
    assert a in Linked(req, b) <==> Shares(s, b, a);
  }

  /** From the empty store, both indexes and mesh hold along every safe run. */
  lemma MeshFromEmpty(calls: seq<Call>)
    requires SafeRun(EMPTY, calls) && PopOrders(EMPTY, calls)
    ensures var r := RunMesh(EMPTY, map[], calls);
            r.Ok? && Agree(r.value.0) && MeshIsTenancy(r.value.0, r.value.1)
  {
    assert forall n, at :: MemberAgrees(EMPTY, n, at);
    assert forall a, b, n :: !Both(EMPTY, n, a, b);
    RunKeepsAgreement(EMPTY, calls);
    RunKeepsMesh(EMPTY, map[], calls);
  }

  // -------------------------------------------------------------- the object

  lemma LinkedLink(req: Requests, d: Dpid, rs: set<Dpid>, x: Dpid)
    requires d !in rs
    ensures Linked(Link(req, d, rs), x) == Linked(req, x) + (if x == d then rs else {}) + (if x in rs then {d} else {})
  {
  }

  lemma LinkOneMore(req: Requests, d: Dpid, rs: set<Dpid>, r: Dpid)
    requires r != d && d !in rs
    ensures Link(Link(req, d, rs), d, {r}) == Link(req, d, rs + {r})
  {
    var lhs, rhs := Link(Link(req, d, rs), d, {r}), Link(req, d, rs + {r});
    assert lhs.Keys == rhs.Keys;
    forall x | x in rhs ensures lhs[x] == rhs[x] {
      SameLinks(req, d, rs, r, x);
    }
  }

  lemma SameLinks(req: Requests, d: Dpid, rs: set<Dpid>, r: Dpid, x: Dpid)
    requires r != d && d !in rs
    ensures Linked(Link(Link(req, d, rs), d, {r}), x) == Linked(Link(req, d, rs + {r}), x)
  {
    LinkedLink(Link(req, d, rs), d, {r}, x);
    LinkedLink(req, d, rs, x);
    LinkedLink(req, d, rs + {r}, x);
  }

  lemma UnlinkOneMore(req: Requests, d: Dpid, rs: set<Dpid>, r: Dpid)
    requires r != d && d !in rs
    ensures Unlink(Unlink(req, d, rs), d, {r}) == Unlink(req, d, rs + {r})
  {
    forall x | x in req
      ensures Unlink(Unlink(req, d, rs), d, {r})[x] == Unlink(req, d, rs + {r})[x]
    {
    }
  }

  /** Unlinking one switch does not matter to whether another can be unlinked. */
  lemma CanUnlinkNext(req: Requests, d: Dpid, rs: set<Dpid>, r: Dpid, all: set<Dpid>)
    requires r != d && d !in rs && r !in rs && r in all && CanUnlink(req, d, rs)
    ensures CanUnlink(Unlink(req, d, rs), d, {r}) <==> CanUnlink(req, d, rs + {r})
    ensures CanUnlink(req, d, all) ==> CanUnlink(req, d, {r})
    ensures !CanUnlink(Unlink(req, d, rs), d, {r}) ==> !CanUnlink(req, d, all)
  {
    assert CanUnlink(req, d, rs + {r}) <==> CanUnlink(req, d, {r});
  }

  /** What a handler that raises half way leaves: some of the requests between
      `d` and those switches are gone, perhaps in one direction only. */
  predicate OnlyDropped(was: Requests, now: Requests, d: Dpid, rs: set<Dpid>) {
    now.Keys == was.Keys &&
    forall x | x in was ::
      now[x] <= was[x] && was[x] - now[x] <= (if x == d then rs else {}) + (if x in rs then {d} else {})
  }

  lemma UnlinkDropsOnly(req: Requests, d: Dpid, rs: set<Dpid>, all: set<Dpid>)
    requires rs <= all
    ensures OnlyDropped(req, Unlink(req, d, rs), d, all)
  {
  }

  lemma DropsAdd(a: Requests, b: Requests, c: Requests, d: Dpid, rs: set<Dpid>, r: Dpid)
    requires OnlyDropped(a, b, d, rs) && OnlyDropped(b, c, d, {r}) && r in rs
    ensures OnlyDropped(a, c, d, rs)
  {
    forall x | x in a ensures c[x] <= a[x] && a[x] - c[x] <= (if x == d then rs else {}) + (if x in rs then {d} else {}) {
      assert a[x] - c[x] <= (a[x] - b[x]) + (b[x] - c[x]);
    }
  }

  /** The switches of the network that share no other tenant network with `d`, as
      far as the store knows their ports. */
  function KnownStrangers(s: Store, n: NetworkId, d: Dpid): set<Dpid>
    requires d in s.dpids
  {
    set r | r in GetDpids(s, n) - {d} && r in s.dpids && TenantsBut(s, d, n) * NetworksOn(s, r) == {}
  }

  lemma AllKnown(s: Store, n: NetworkId, d: Dpid)
    requires d in s.dpids
    ensures GetDpids(s, n) - {d} <= s.dpids.Keys ==> KnownStrangers(s, n, d) == Strangers(s, n, d)
  {
  }

  lemma LinkTwo(req: Requests, a: Dpid, b: Dpid)
    requires a != b
    ensures var req1 := req[a := Linked(req, a) + {b}];
            req1[b := Linked(req1, b) + {a}] == Link(req, a, {b})
  {
    var req1 := req[a := Linked(req, a) + {b}];
    var req2, both := req1[b := Linked(req1, b) + {a}], Link(req, a, {b});
    assert req2.Keys == both.Keys;
    forall x | x in req2 ensures req2[x] == both[x] {
      if x != a && x != b { assert req2[x] == Linked(req, x); }
    }
  }

  lemma UnlinkNone(req: Requests, d: Dpid)
    ensures Unlink(req, d, {}) == req && CanUnlink(req, d, {})
  {
    forall x | x in req ensures Unlink(req, d, {})[x] == req[x] {}
  }

  /** The application: it owns the requests and reads the store it was given. */
  class TunnelPortUpdater {
    const nw: Network
    var requests: Requests

    constructor (nw: Network)
      ensures this.nw == nw && requests == map[]
    {
      this.nw := nw;
      requests := map[];
    }

    /** TunnelRequests.add. */
    method AddRequest(a: Dpid, b: Dpid)
      requires a != b
      modifies this
      ensures requests == Link(old(requests), a, {b})
    {
      hide Link, Linked;
      LinkTwo(requests, a, b);
      requests := requests[a := Linked(requests, a) + {b}];
      requests := requests[b := Linked(requests, b) + {a}];
    }

    /** TunnelRequests.remove. */
    method RemoveRequest(a: Dpid, b: Dpid) returns (ok: bool)
      requires a != b
      modifies this
      ensures ok == CanUnlink(old(requests), a, {b})
      ensures ok ==> requests == Unlink(old(requests), a, {b})
      ensures !ok ==> requests == if b in Linked(old(requests), a) then old(requests)[a := old(requests)[a] - {b}]
                                  else old(requests)
    {
      if a !in requests || b !in requests[a] { return false; }
      requests := requests[a := requests[a] - {b}];
      if b !in requests || a !in requests[b] { return false; }
      requests := requests[b := requests[b] - {a}];
      forall x | x in requests ensures requests[x] == Unlink(old(requests), a, {b})[x] {}
      return true;
    }

    /** network_port_handler: `ok` is false when a lookup raised. */
    method NetworkPortHandler(ev: Event) returns (ok: bool)
      modifies this
      ensures var r := Handle(nw.Contents(), old(requests), ev);
              ok == r.Ok? && (ok ==> requests == r.value)
      ensures ok || ev.NetworkPort?
      ensures ok || requests == old(requests)
              || (!ev.add && ev.at.dpid in nw.dpids
                  && OnlyDropped(old(requests), requests, ev.at.dpid, KnownStrangers(nw.Contents(), ev.network, ev.at.dpid)))
    {
      if !ev.NetworkPort? || !ev.network.Tenant? { return true; }
      if ev.add { ok := PortAdd(ev.network, ev.at.dpid); } else { ok := PortDel(ev.network, ev.at.dpid); }
    }

    method PortAdd(n: NetworkId, d: Dpid) returns (ok: bool)
      modifies this
      ensures var r := VmPortAdd(nw.Contents(), old(requests), n, d);
              ok == r.Ok? && requests == if ok then r.value else old(requests)
    {
      var dpids := if n in nw.networks then set at | at in nw.networks[n] :: at.dpid else {};
      if d !in dpids { return false; }
      var todo := dpids - {d};
      ghost var done: set<Dpid> := {};
      assert Link(requests, d, {}) == requests;
      while todo != {}
        invariant done + todo == dpids - {d} && done !! todo
        invariant requests == Link(old(requests), d, done)
        invariant nw.Contents() == old(nw.Contents())
        decreases todo
      {
        var remote :| remote in todo;
        LinkOneMore(old(requests), d, done, remote);
        AddRequest(d, remote);
        todo, done := todo - {remote}, done + {remote};
      }
      return true;
    }

    method PortDel(n: NetworkId, d: Dpid) returns (ok: bool)
      modifies this
      ensures var r := VmPortDel(nw.Contents(), old(requests), n, d);
              ok == r.Ok? && (ok ==> requests == r.value)
      ensures ok || requests == old(requests)
              || (d in nw.dpids && OnlyDropped(old(requests), requests, d, KnownStrangers(nw.Contents(), n, d)))
    {
      if d in nw.dpids && n in (set p | p in nw.dpids[d] :: nw.dpids[d][p].network) { return true; }
      if d !in nw.dpids { return false; }
      var dpids := (if n in nw.networks then set at | at in nw.networks[n] :: at.dpid else {}) - {d};
      ok := DropStrangers(n, d, dpids);
    }

    /** The loop of _vm_port_del over the other switches of the network; it raises
        at a switch without ports in the store, or without the request. */
    method DropStrangers(n: NetworkId, d: Dpid, dpids: set<Dpid>) returns (ok: bool)
      requires d in nw.dpids && dpids == GetDpids(nw.Contents(), n) - {d}
      modifies this
      ensures ok <==> dpids <= nw.dpids.Keys && CanUnlink(old(requests), d, Strangers(nw.Contents(), n, d))
      ensures ok ==> requests == Unlink(old(requests), d, Strangers(nw.Contents(), n, d))
      ensures !ok ==> OnlyDropped(old(requests), requests, d, KnownStrangers(nw.Contents(), n, d))
    {
      hide CanUnlink, Unlink, OnlyDropped, Linked;
      ghost var strangers := KnownStrangers(nw.Contents(), n, d);
      ghost var dropped: set<Dpid> := {};
      var tunnelNetworks := set p | p in nw.dpids[d] && nw.dpids[d][p].network != n && nw.dpids[d][p].network.Tenant?
                                  :: nw.dpids[d][p].network;
      assert tunnelNetworks == TenantsBut(nw.Contents(), d, n);
      var todo := dpids;
      UnlinkNone(requests, d);
      AllKnown(nw.Contents(), n, d);
      while todo != {}
        invariant todo <= dpids && dpids - todo <= nw.dpids.Keys && dropped == strangers - todo
        invariant CanUnlink(old(requests), d, dropped)
        invariant requests == Unlink(old(requests), d, dropped)
        invariant nw.networks == old(nw.networks) && nw.dpids == old(nw.dpids) && nw.macs == old(nw.macs)
        decreases todo
      {
        var remote :| remote in todo;
        todo := todo - {remote};
        UnlinkDropsOnly(old(requests), d, dropped, strangers);
        if remote !in nw.dpids { return false; }
        var remoteNetworks := set p | p in nw.dpids[remote] :: nw.dpids[remote][p].network;
        assert remoteNetworks == NetworksOn(nw.Contents(), remote);
        if tunnelNetworks * remoteNetworks == {} {
          UnlinkOneMore(old(requests), d, dropped, remote);
          assert remote in strangers;
          CanUnlinkNext(old(requests), d, dropped, remote, strangers);
          ghost var before := requests;
          var removed := RemoveRequest(d, remote);
          if !removed {
            HalfDropped(before, d, remote, requests);
            DropsAdd(old(requests), before, requests, d, strangers, remote);
            return false;
          }
          dropped := dropped + {remote};
        }
      }
      assert dropped == strangers && dpids - {} == dpids;
      return true;
    }
  }

  lemma HalfDropped(was: Requests, a: Dpid, b: Dpid, now: Requests)
    requires now == if b in Linked(was, a) then was[a := was[a] - {b}] else was
    ensures OnlyDropped(was, now, a, {b})
  {
  }
}
