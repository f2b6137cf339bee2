/** Whole runs of the router, and what holds in every state they reach. */
module RouterRuns {
  import opened Wrappers
  import opened Prefixes
  import opened RouterFlows
  import opened RouterState
  import opened RouterSteps
  import opened RouterDeletion

  // ------------------------------------------------------------- ARP packets

  lemma LearnedData(v: Vlan, ip: Ip, mac: Mac)
    requires VlanOk(v)
    ensures VlanOk(v.(routes := LearnRoutes(v.routes, ip, mac)))
  {
    hide Within, Overlap, PrefixOf;
    var v' := v.(routes := LearnRoutes(v.routes, ip, mac));
    forall p | p in v'.addrs ensures AddressOk(v', p) { assert AddressOk(v, p); }
    forall p | p in v'.routes ensures RouteOk(v', p) { assert RouteOk(v, p); }
  }

  /** The rewritten flows are those of the routes that did not know the MAC. */
  lemma StaleFlow(v: Vlan, vid: Vid, ip: Ip, mac: Mac, port: nat, o: Origin)
    requires VlanOk(v) && Proper(o) && VidOf(o) == vid && !o.Arp? && !o.L2?
    ensures var rows, fk := Relearned(vid, v.routes, ip, mac, port), KeyOf(o);
            && (fk in rows <==> exists p :: RouteFlowOf(v, o, p) && v.routes[p].gateway == ip && v.routes[p].mac != Some(mac))
            && (forall p | RouteFlowOf(v, o, p) && fk in rows ::
                  rows[fk] == Flow(RouteCookie(vid, v.routes[p].id), Forward(port, mac)))
  {
    hide Within, Overlap, PrefixOf, RouteCookie, OriginOf;
    var fk := KeyOf(o);
    forall p | p in v.routes
      ensures RouteKey(vid, p, v.routes[p].isStatic) == fk <==> RouteFlowOf(v, o, p)
      ensures RoutedBy(RouteKey(vid, p, v.routes[p].isStatic)) == p
    {
      assert RouteOk(v, p);
      DefaultKeyIsRouteKey(vid);
      var mine := if v.routes[p].isStatic then Static(vid, p) else Default(vid);
      OneOriginPerKey(mine, KeyOf(mine));
      OneOriginPerKey(o, fk);
    }
    if p :| RouteFlowOf(v, o, p) && v.routes[p].gateway == ip && v.routes[p].mac != Some(mac) {
      assert RouteKey(vid, p, v.routes[p].isStatic) in StaleKeys(vid, v.routes, ip, mac);
    }
  }

  lemma OnlyVlanRelearned(vid: Vid, routes: Routes, ip: Ip, mac: Mac, port: nat, fk: FlowKey)
    requires fk in Relearned(vid, routes, ip, mac, port)
    ensures fk.pattern.IpMatch? && fk.pattern.vid == vid && fk.pattern.src == None
  {
  }

  lemma ArpKey(r: Router, vid: Vid, ip: Ip, mac: Mac, port: nat, fk: FlowKey)
    requires RouterOk(r) && vid in r.vlans && SubnetOf(r.vlans[vid].addrs, ip).Some?
    ensures KeyOk(ArpPacket(r, vid, ip, mac, port), fk)
  {
    hide VlanOk, RouteCookie, AddressCookie, OriginOf, Within, SubnetOf, Relearned;
    var r', v := ArpPacket(r, vid, ip, mac, port), r.vlans[vid];
    assert KeyOk(r, fk);
    if OriginOf(fk).Some? { OriginsKey(fk); }
    var o := OriginOf(fk);
    if IsGateway(v.routes, ip) {
      if o == None || VidOf(o.value) != vid || o.value.Arp? || o.value.L2? {
        if fk in Relearned(vid, v.routes, ip, mac, port) { OnlyVlanRelearned(vid, v.routes, ip, mac, port, fk); RelearnedOrigin(v, vid, ip, mac, port, fk); }
        KeyFrame(r, r', fk);
      } else {
        StaleFlow(v, vid, ip, mac, port, o.value);
        RelearnedKey(r, vid, ip, mac, port, o.value, fk);
      }
    } else {
      SubnetFound(v.addrs, ip);
      OneOriginPerKey(Host(vid, ip), fk);
      if o != Some(Host(vid, ip)) { HostFrame(r, r', fk); }
    }
  }

  lemma SubnetFound(addrs: Addresses, ip: Ip)
    requires SubnetOf(addrs, ip).Some?
    ensures SubnetOf(addrs, ip).value in addrs && Within(ip, SubnetOf(addrs, ip).value)
  {
    hide ApplyMask;
  }

  lemma HostFrame(r: Router, r': Router, fk: FlowKey)
    requires KeyOk(r, fk) && r'.vlans == r.vlans && Lookup(r'.flows, fk) == Lookup(r.flows, fk)
    ensures KeyOk(r', fk)
  {
    hide OriginOf, RouteCookie, AddressCookie, Within;
  }

  lemma RelearnedOrigin(v: Vlan, vid: Vid, ip: Ip, mac: Mac, port: nat, fk: FlowKey)
    requires VlanOk(v) && fk in Relearned(vid, v.routes, ip, mac, port)
    ensures OriginOf(fk).Some? && VidOf(OriginOf(fk).value) == vid && (OriginOf(fk).value.Static? || OriginOf(fk).value.Default?)
  {
    hide Within, Overlap, PrefixOf, OriginOf;
    var p :| p in v.routes && RouteKey(vid, p, v.routes[p].isStatic) == fk;
    assert RouteOk(v, p);
    DefaultKeyIsRouteKey(vid);
    OneOriginPerKey(if v.routes[p].isStatic then Static(vid, p) else Default(vid), fk);
  }

  lemma RelearnedKey(r: Router, vid: Vid, ip: Ip, mac: Mac, port: nat, o: Origin, fk: FlowKey)
    requires KeyOk(r, fk) && vid in r.vlans && OriginOf(fk) == Some(o) && VidOf(o) == vid && !o.Arp? && !o.L2?
    requires var v := r.vlans[vid];
             var rows := Relearned(vid, v.routes, ip, mac, port);
             && (fk in rows <==> exists p :: RouteFlowOf(v, o, p) && v.routes[p].gateway == ip && v.routes[p].mac != Some(mac))
             && (forall p | RouteFlowOf(v, o, p) && fk in rows ::
                   rows[fk] == Flow(RouteCookie(vid, v.routes[p].id), Forward(port, mac)))
    ensures KeyOk(Router(r.vlans[vid := r.vlans[vid].(routes := LearnRoutes(r.vlans[vid].routes, ip, mac))],
                         r.flows + Relearned(vid, r.vlans[vid].routes, ip, mac, port)), fk)
  {
    hide OriginOf, RouteCookie, AddressCookie, Within, Relearned;
    var v, rows := r.vlans[vid], Relearned(vid, r.vlans[vid].routes, ip, mac, port);
    var r' := Router(r.vlans[vid := v.(routes := LearnRoutes(v.routes, ip, mac))], r.flows + rows);
    var p := if o.Static? then o.p else DEFAULT;
    if RouteFlowOf(v, o, p) {
      assert forall q :: RouteFlowOf(v, o, q) ==> q == p;
      assert Due(r, o) && Due(r', o) && fk in r.flows && fk in r'.flows;
      assert RouteRow(vid, v.routes[p], r.flows[fk]);
      if fk in rows {
        assert r'.flows[fk] == Flow(RouteCookie(vid, v.routes[p].id), Forward(port, mac));
      } else if v.routes[p].gateway == ip {
        assert r'.vlans[vid].routes[p] == v.routes[p];
      }
      assert RouteRow(vid, r'.vlans[vid].routes[p], r'.flows[fk]);
    } else {
      assert forall q :: !RouteFlowOf(v, o, q);
      RoutesKept(r, r', o, fk);
    }
  }

  lemma ArpOk(r: Router, vid: Vid, ip: Ip, mac: Mac, port: nat)
    requires RouterOk(r)
    ensures RouterOk(ArpPacket(r, vid, ip, mac, port))
  {
    hide RouterOk, KeyOk, VlanOk, SubnetOf, Relearned, LearnRoutes, IsGateway;
    if vid in r.vlans && SubnetOf(r.vlans[vid].addrs, ip) != None {
      GoodRouter(r);
      LearnedData(r.vlans[vid], ip, mac);
      forall fk ensures KeyOk(ArpPacket(r, vid, ip, mac, port), fk) { ArpKey(r, vid, ip, mac, port, fk); }
      IsGoodRouter(ArpPacket(r, vid, ip, mac, port));
    }
  }

  lemma ExpiryOk(r: Router, vid: Vid, ip: Ip)
    requires RouterOk(r)
    ensures RouterOk(r.(flows := r.flows - {HostKey(vid, ip)}))
  {
    hide RouterOk, KeyOk, VlanOk, OriginOf;
    GoodRouter(r);
    var r' := r.(flows := r.flows - {HostKey(vid, ip)});
    forall fk ensures KeyOk(r', fk) {
      OneOriginPerKey(Host(vid, ip), fk);
      ExpiryKey(r, r', fk, vid, ip);
    }
    IsGoodRouter(r');
  }

  lemma ExpiryKey(r: Router, r': Router, fk: FlowKey, vid: Vid, ip: Ip)
    requires KeyOk(r, fk) && r'.vlans == r.vlans
    requires if OriginOf(fk) == Some(Host(vid, ip)) then fk !in r'.flows else Lookup(r'.flows, fk) == Lookup(r.flows, fk)
    ensures KeyOk(r', fk)
  {
    hide OriginOf, RouteCookie, AddressCookie, Within;
  }

  // -------------------------------------------------------------------- runs

  /** A step that keeps the state good: ids stay within 16 bits, no subnet or
      destination of mask length 0 is in the way, and a delete request names an
      id that is read as what it is. */
  ghost predicate Careful(r: Router, step: Step) {
    && Possible(r, step)
    && match step
       case SetAddr(vid, _, mask) => mask != 0 && (vid in r.vlans ==> r.vlans[vid].nextAddr <= UINT16_MAX)
       case SetRt(vid, dest, gateway) =>
         vid in r.vlans ==> r.vlans[vid].nextRoute <= UINT16_MAX && !ReplacesDefault(r.vlans[vid], dest, gateway)
       case DelAddr(vid, which, _, _) => vid in r.vlans ==> !Misread(r.vlans[vid], vid, which)
       case DelRt(_, which, _, _) => which != One(0)
       case _ => true
  }

  lemma CarefulKeeps(r: Router, step: Step)
    requires RouterOk(r) && Tidy(r) && Careful(r, step)
    ensures RouterOk(After(r, step)) && Tidy(After(r, step))
  {
    hide RouterOk, Lists, SetRoute, SetAddress, DeleteListed, Cleanup, Misread, Displaces, ArpPacket, Tidy, HostKey;
    match step
    case SetAddr(vid, gw, mask) => SetAddressOk(r, vid, gw, mask); SetAddressTidy(r, vid, gw, mask);
    case SetRt(vid, dest, gateway) => SetRouteExactly(r, vid, dest, gateway); SetRouteTidy(r, vid, dest, gateway);
    case DelAddr(vid, which, listed, byCookie) =>
      if vid in r.vlans { DeleteAddressKeeps(r, vid, which, listed, byCookie); }
      DeleteAddressTidy(r, vid, which, listed, byCookie);
    case DelRt(vid, which, listed, byCookie) =>
      if vid in r.vlans { DeleteRouteKeeps(r, vid, which, listed, byCookie); }
      DeleteRouteTidy(r, vid, listed, byCookie);
    case ArpSeen(vid, ip, mac, port) => ArpOk(r, vid, ip, mac, port); ArpTidy(r, vid, ip, mac, port);
    case HostExpired(vid, ip) => ExpiryOk(r, vid, ip); SameVlansTidy(r, After(r, step));
  }

  lemma SameVlansTidy(r: Router, r': Router)
    requires Tidy(r) && r'.vlans == r.vlans
    ensures Tidy(r')
  {
  }

  lemma CleanupTidies(r: Router, vid: Vid)
    requires forall w | w in r.vlans && w != vid :: w == 0 || r.vlans[w].addrs != map[]
    requires vid in r.vlans && r.vlans[vid].addrs == map[] ==> r.vlans[vid].routes == map[]
    ensures Tidy(Cleanup(r, vid))
  {
    hide CookieVid;
  }

  lemma SetAddressTidy(r: Router, vid: Vid, gw: Ip, mask: int)
    requires RouterOk(r) && Tidy(r)
    ensures Tidy(SetAddress(r, vid, gw, mask).0)
  {
    hide RouterOk, Overlaps, Cleanup, PrefixOf, AddressFlows;
    var r1 := EnsureVlan(r, vid);
    if vid in r.vlans { RoutesNeedAddresses(r, vid); }
    CleanupTidies(r1, vid);
    if Legal(mask) { assert PrefixOf(gw, mask) in AddAddress(r1, vid, gw, mask).vlans[vid].addrs; }
  }

  lemma SetRouteTidy(r: Router, vid: Vid, dest: Dest, gateway: Ip)
    requires RouterOk(r) && Tidy(r)
    ensures Tidy(SetRoute(r, vid, dest, gateway).0)
  {
    hide RouterOk, Cleanup, Within, Taken, RouteKey, DestPrefix;
    if vid in r.vlans { RoutesNeedAddresses(r, vid); }
    CleanupTidies(EnsureVlan(r, vid), vid);
  }

  lemma DeleteAddressTidy(r: Router, vid: Vid, which: Which, listed: seq<Stat>, byCookie: bool)
    requires RouterOk(r) && Tidy(r) && (vid in r.vlans ==> !Misread(r.vlans[vid], vid, which))
    requires Lists(r.flows, listed, AddressFilter(r, vid, which))
    ensures Tidy(DeleteAddress(r, vid, listed, byCookie))
  {
    hide RouterOk, DeleteListed, Cleanup, Lists, Misread, AddressFilter;
    if vid in r.vlans {
      if Sound(which) {
        DeletedAddressesOk(r, vid, which, listed, byCookie);
        RoutesNeedAddresses(DeletedAddresses(r, vid, listed, byCookie), vid);
      } else {
        NothingRead(r, vid, which, listed);
        assert WithoutAddresses(r.vlans[vid].addrs, {}) == r.vlans[vid].addrs;
        RoutesNeedAddresses(r, vid);
      }
      CleanupTidies(DeletedAddresses(r, vid, listed, byCookie), vid);
    }
  }

  lemma DeleteRouteTidy(r: Router, vid: Vid, listed: seq<Stat>, byCookie: bool)
    requires RouterOk(r) && Tidy(r)
    ensures Tidy(DeleteRoute(r, vid, listed, byCookie))
  {
    hide RouterOk, DeleteListed, Cleanup;
    if vid in r.vlans {
      RoutesNeedAddresses(r, vid);
      assert r.vlans[vid].routes == map[] ==> WithoutRoutes(r.vlans[vid].routes, ListedRoutes(listed)) == map[];
      CleanupTidies(DeletedRoutes(r, vid, listed, byCookie), vid);
    }
  }

  lemma ArpTidy(r: Router, vid: Vid, ip: Ip, mac: Mac, port: nat)
    requires Tidy(r)
    ensures Tidy(ArpPacket(r, vid, ip, mac, port))
  {
    hide SubnetOf, Relearned, LearnRoutes, IsGateway, HostKey;
  }

  ghost function RunAll(r: Router, steps: seq<Step>): Router
    decreases |steps|
  {
    if steps == [] then r else RunAll(After(r, steps[0]), steps[1..])
  }

  ghost predicate AllCareful(r: Router, steps: seq<Step>)
    decreases |steps|
  {
    steps == [] || (Careful(r, steps[0]) && AllCareful(After(r, steps[0]), steps[1..]))
  }

  lemma {:induction false} RunKeepsRouter(r: Router, steps: seq<Step>)
    requires RouterOk(r) && Tidy(r) && AllCareful(r, steps)
    ensures RouterOk(RunAll(r, steps)) && Tidy(RunAll(r, steps))
    decreases |steps|
  {
    hide RouterOk, Tidy, Careful, After;
    if steps != [] {
      CarefulKeeps(r, steps[0]);
      RunKeepsRouter(After(r, steps[0]), steps[1..]);
    }
  }

  lemma EveryRunIsGood(steps: seq<Step>)
    requires AllCareful(START, steps)
    ensures RouterOk(RunAll(START, steps)) && Tidy(RunAll(START, steps))
  {
    StartOk();
    RunKeepsRouter(START, steps);
  }

  // ------------------------------------------------- a run that is not careful

  const ROUTER_IP: Ip := 0x0a00_0001
  const NEXT_HOP: Ip := 0x0a00_0002

  /** An address, a default route, and the same destination in another text. */
  ghost function Displacing(): seq<Step> {
    [SetAddr(0, ROUTER_IP, 8), SetRt(0, DefaultRoute, NEXT_HOP), SetRt(0, Network(ROUTER_IP, 0, false), NEXT_HOP)]
  }

  lemma WithinEight()
    ensures Within(NEXT_HOP, PrefixOf(ROUTER_IP, 8))
  {
    assert MaskNtob(8) == 0xff00_0000 by { LegalMask(8); }
  }

  lemma FirstAddress()
    ensures var r1 := After(START, SetAddr(0, ROUTER_IP, 8));
            && Careful(START, SetAddr(0, ROUTER_IP, 8))
            && r1.vlans == map[0 := Vlan(map[PrefixOf(ROUTER_IP, 8) := Address(1, ROUTER_IP)], 2, map[], 1)]
  {
    hide AddressFlows, PrefixOf;
    var p, r1 := PrefixOf(ROUTER_IP, 8), After(START, SetAddr(0, ROUTER_IP, 8));
    assert !Overlaps(map[], ROUTER_IP, 8);
    assert map[][p := Address(1, ROUTER_IP)] == map[p := Address(1, ROUTER_IP)];
    assert r1 == AddAddress(START, 0, ROUTER_IP, 8);
  }

  lemma ThenDefault(r1: Router)
    requires RouterOk(r1)
    requires r1.vlans == map[0 := Vlan(map[PrefixOf(ROUTER_IP, 8) := Address(1, ROUTER_IP)], 2, map[], 1)]
    ensures var r2 := After(r1, SetRt(0, DefaultRoute, NEXT_HOP));
            && Careful(r1, SetRt(0, DefaultRoute, NEXT_HOP))
            && 0 in r2.vlans && r2.vlans[0].addrs == r1.vlans[0].addrs && r2.vlans[0].nextRoute == 2
            && r2.vlans[0].routes == map[DEFAULT := Route(1, false, NEXT_HOP, None)]
  {
    hide RouterOk, PrefixOf, Within, Cleanup, RouteKey;
    WithinEight();
    RouteAccepted(r1, 0, DefaultRoute, NEXT_HOP);
    assert PrefixOf(ROUTER_IP, 8) in r1.vlans[0].addrs;
    assert GatewayUsable(r1.vlans[0], NEXT_HOP);
    assert map[][DEFAULT := Route(1, false, NEXT_HOP, None)] == map[DEFAULT := Route(1, false, NEXT_HOP, None)];
  }

  /** From the start: the third request leaves the default route's flow behind. */
  lemma DisplacedFromStart()
    ensures !RouterOk(RunAll(START, Displacing()))
    ensures AllCareful(START, Displacing()[..2])
  {
    hide RouterOk, After, Careful, PrefixOf, Within;
    var steps := Displacing();
    var r1 := After(START, steps[0]);
    var r2 := After(r1, steps[1]);
    FirstAddress();
    StartOk();
    CarefulKeeps(START, steps[0]);
    ThenDefault(r1);
    CarefulKeeps(r1, steps[1]);
    assert Replaced(r2) by { WithinEight(); }
    ReplacedBreaks(r2);
    assert steps[1..][1..] == [steps[2]] && [steps[2]][1..] == [];
    assert RunAll(START, steps) == RunAll(r1, steps[1..]) == RunAll(r2, [steps[2]]) == After(r2, steps[2]);
    assert steps[..2] == [steps[0], steps[1]] && [steps[0], steps[1]][1..] == [steps[1]] && [steps[1]][1..] == [];
    assert AllCareful(r1, [steps[1]]);
    assert AllCareful(START, [steps[0], steps[1]]);
  }

  ghost predicate Replaced(r: Router) {
    0 in r.vlans && r.vlans[0].nextRoute <= UINT16_MAX && ReplacesDefault(r.vlans[0], Network(ROUTER_IP, 0, false), NEXT_HOP)
  }

  lemma ReplacedBreaks(r: Router)
    requires RouterOk(r) && Replaced(r)
    ensures !RouterOk(After(r, SetRt(0, Network(ROUTER_IP, 0, false), NEXT_HOP)))
  {
    hide RouterOk, ReplacesDefault;
    SetRouteExactly(r, 0, Network(ROUTER_IP, 0, false), NEXT_HOP);
  }

  // ------------------------------------------------- longest-prefix matching

  /** What RoutingTable.get_data looks for: the longest static prefix around
      `ip`, else the entry of 0.0.0.0/0. */
  ghost predicate Picks(routes: Routes, ip: Ip, found: Option<Prefix>) {
    match found
    case Some(p) =>
      && p in routes && (p == DEFAULT || (p.mask > 0 && Within(ip, p)))
      && forall q | q in routes && q.mask > 0 && Within(ip, q) :: q.mask <= p.mask
    case None => DEFAULT !in routes && forall q | q in routes && q.mask > 0 :: !Within(ip, q)
  }

  /** The order of the dictionary does not matter. */
  lemma PicksOne(v: Vlan, ip: Ip, a: Option<Prefix>, b: Option<Prefix>)
    requires VlanOk(v) && Picks(v.routes, ip, a) && Picks(v.routes, ip, b)
    ensures a == b
  {
    hide ApplyMask, Overlap, Within, PrefixOf;
    if a.Some? && b.Some? {
      assert RouteOk(v, a.value) && RouteOk(v, b.value);
      if a.value.mask > 0 && b.value.mask > 0 { SameLengthSamePrefix(ip, a.value, b.value); }
    }
  }

  /** Routing flows: those of routes, and the drop flows behind them. */
  predicate IsRouting(f: Flow) { CookieRoute(f.cookie) != 0 || f.action == Drop }

  /** Untagged rules leave the tag a wildcard. */
  predicate Hit(m: Match, vid: Vid, ip: Ip) {
    m.IpMatch? && (m.vid == vid || m.vid == 0) && m.src == None && (m.dst.Some? ==> Within(ip, m.dst.value))
  }

  /** Among the routing flows of all VLANs this one matches and has the highest
      priority, alone. */
  ghost predicate Wins(flows: Table, vid: Vid, ip: Ip, fk: FlowKey) {
    && fk in flows && IsRouting(flows[fk]) && Hit(fk.pattern, vid, ip)
    && forall other | other in flows && IsRouting(flows[other]) && Hit(other.pattern, vid, ip) && other != fk ::
         other.priority < fk.priority
  }

  function RouteFlowKey(v: Vlan, vid: Vid, found: Option<Prefix>): FlowKey
    requires found.Some? ==> found.value in v.routes
  {
    match found
    case None => DefaultKey(vid)
    case Some(p) => RouteKey(vid, p, v.routes[p].isStatic)
  }

  /** The routing flows of one VLAN, and what they match. */
  lemma RoutingFlow(r: Router, fk: FlowKey, ip: Ip)
    requires RouterOk(r) && fk in r.flows && IsRouting(r.flows[fk])
    ensures fk.pattern.IpMatch? && fk.pattern.vid in r.vlans && fk.pattern.src == None
    ensures var vid := fk.pattern.vid;
            var v := r.vlans[vid];
            match fk.pattern.dst
            case Some(p) => p in v.routes && v.routes[p].isStatic && fk == RouteKey(vid, p, true) && RouteRow(vid, v.routes[p], r.flows[fk])
            case None => fk == DefaultKey(vid) &&
                         if DefaultSet(v) then RouteRow(vid, v.routes[DEFAULT], r.flows[fk]) else r.flows[fk] == DropFlow(vid)
  {
    hide RouteCookie, AddressCookie, VlanCookie, CookieVid, CookieRoute, CookieAddress, Within, OriginOf, VlanOk;
    CookieTells(r, fk);
    assert KeyOk(r, fk);
  }

  /** Priorities refine longest-prefix matching (section 5.2.4.3 of RFC 1812):
      the routing flow that takes a packet is the one of the route that
      RoutingTable.get_data picks, and the drop flow exactly if it picks none. */
  lemma LongestPrefixMatch(r: Router, vid: Vid, ip: Ip, found: Option<Prefix>, fk: FlowKey)
    requires RouterOk(r) && vid in r.vlans && Picks(r.vlans[vid].routes, ip, found)
    ensures Wins(r.flows, vid, ip, fk) <==> fk == RouteFlowKey(r.vlans[vid], vid, found)
    ensures fk == RouteFlowKey(r.vlans[vid], vid, found) ==>
              fk in r.flows && (r.flows[fk].action == Drop <==> found == None)
              && (found.Some? ==> RouteRow(vid, r.vlans[vid].routes[found.value], r.flows[fk]))
  {
    hide RouterOk, RouteRow, IsRouting, Within, VlanOk, RouteCookie, VlanCookie;
    var v, best := r.vlans[vid], RouteFlowKey(r.vlans[vid], vid, found);
    BestIsThere(r, vid, ip, found);
    assert Hit(best.pattern, vid, ip);
    forall other | other in r.flows && IsRouting(r.flows[other]) && Hit(other.pattern, vid, ip) && other != best
      ensures other.priority < best.priority
    {
      RoutingFlow(r, other, ip);
      if other.pattern.vid == vid { LowerInVlan(r, vid, ip, found, other); } else { LowerUntagged(r, vid, found, other); }
    }
  }

  lemma BestIsThere(r: Router, vid: Vid, ip: Ip, found: Option<Prefix>)
    requires RouterOk(r) && vid in r.vlans && Picks(r.vlans[vid].routes, ip, found)
    ensures var v, best := r.vlans[vid], RouteFlowKey(r.vlans[vid], vid, found);
            && best in r.flows && IsRouting(r.flows[best]) && Hit(best.pattern, vid, ip)
            && (r.flows[best].action == Drop <==> found == None)
            && (found.Some? ==> RouteRow(vid, v.routes[found.value], r.flows[best]))
  {
    if found.Some? { RouteIsThere(r, vid, ip, found.value); } else { DropIsThere(r, vid, ip); }
  }

  lemma DropIsThere(r: Router, vid: Vid, ip: Ip)
    requires RouterOk(r) && vid in r.vlans && DEFAULT !in r.vlans[vid].routes
    ensures var best := DefaultKey(vid);
            best in r.flows && IsRouting(r.flows[best]) && Hit(best.pattern, vid, ip) && r.flows[best].action == Drop
  {
    hide VlanCookie, CookieRoute, OriginOf, VlanOk;
    OneOriginPerKey(Default(vid), DefaultKey(vid));
    assert KeyOk(r, DefaultKey(vid));
  }

  lemma RouteIsThere(r: Router, vid: Vid, ip: Ip, p: Prefix)
    requires RouterOk(r) && vid in r.vlans && p in r.vlans[vid].routes && (p == DEFAULT || Within(ip, p))
    ensures var v := r.vlans[vid];
            var best := RouteKey(vid, p, v.routes[p].isStatic);
            && best in r.flows && IsRouting(r.flows[best]) && Hit(best.pattern, vid, ip)
            && r.flows[best].action != Drop && RouteRow(vid, v.routes[p], r.flows[best])
  {
    hide RouteCookie, VlanCookie, CookieVid, CookieRoute, CookieAddress, OriginOf, ApplyMask;
    RouteHasFlow(r, vid, p);
    AddressIds(r.vlans[vid], p);
    assert KeyOk(r, RouteKey(vid, p, r.vlans[vid].routes[p].isStatic));
    ZeroHoldsAll(ip);
  }

  lemma ZeroHoldsAll(ip: Ip)
    ensures Within(ip, DEFAULT)
  {
  }

  lemma LowerInVlan(r: Router, vid: Vid, ip: Ip, found: Option<Prefix>, other: FlowKey)
    requires RouterOk(r) && vid in r.vlans && Picks(r.vlans[vid].routes, ip, found)
    requires other in r.flows && IsRouting(r.flows[other]) && Hit(other.pattern, vid, ip) && other.pattern.vid == vid
    requires other != RouteFlowKey(r.vlans[vid], vid, found)
    ensures other.priority < RouteFlowKey(r.vlans[vid], vid, found).priority
  {
    hide RouteCookie, VlanCookie, CookieRoute, Within, PrefixOf, KeyOk;
    var v := r.vlans[vid];
    RoutingFlow(r, other, ip);
    match other.pattern.dst
    case None =>
      if found.Some? { assert RouteOk(v, found.value); DefaultKeyIsRouteKey(vid); }
    case Some(q) =>
      assert RouteOk(v, q);
      if q.mask == 0 { ZeroPrefix(q); }
      if found.Some? {
        assert RouteOk(v, found.value);
        if found.value.mask == q.mask {
          if q.mask > 0 { SameLengthSamePrefix(ip, q, found.value); } else { ZeroPrefix(found.value); }
        }
      }
  }

  lemma ZeroPrefix(p: Prefix)
    requires p.mask == 0 && PrefixOf(p.nw, 0) == p
    ensures p == DEFAULT
  {
    CanonicalPrefix(p.nw, 0);
  }

  lemma LowerUntagged(r: Router, vid: Vid, found: Option<Prefix>, other: FlowKey)
    requires RouterOk(r) && vid in r.vlans && (found.Some? ==> found.value in r.vlans[vid].routes)
    requires other in r.flows && IsRouting(r.flows[other]) && other.pattern.IpMatch? && other.pattern.vid == 0 != vid
    ensures other.priority < RouteFlowKey(r.vlans[vid], vid, found).priority
  {
    hide RouteCookie, VlanCookie, CookieRoute, Within, PrefixOf, KeyOk;
    RoutingFlow(r, other, 0);
    if other.pattern.dst.Some? { assert RouteOk(r.vlans[0], other.pattern.dst.value); }
  }

  // ------------------------------------- subnets before routes, and where not

  /** Untagged rules leave the tag a wildcard. */
  predicate HitFrom(m: Match, vid: Vid, src: Ip, dst: Ip) {
    && m.IpMatch? && (m.vid == vid || m.vid == 0)
    && (m.src.Some? ==> Within(src, m.src.value))
    && (m.dst.Some? ==> Within(dst, m.dst.value))
  }

  /** Among all IP flows of the switch this one matches and has the highest
      priority, alone. */
  ghost predicate Takes(flows: Table, vid: Vid, src: Ip, dst: Ip, fk: FlowKey) {
    && fk in flows && HitFrom(fk.pattern, vid, src, dst)
    && forall other | other in flows && HitFrom(other.pattern, vid, src, dst) && other != fk ::
         other.priority < fk.priority
  }

  /** The destination is no router's address and no host the switch knows, and
      the packet comes from outside the destination's subnet. */
  ghost predicate ToUnknownHost(r: Router, vid: Vid, src: Ip, dst: Ip, s: Prefix) {
    && vid in r.vlans && s in r.vlans[vid].addrs && Within(dst, s) && !Within(src, s)
    && HostKey(vid, dst) !in r.flows
    && (forall w, p | w in r.vlans && p in r.vlans[w].addrs :: r.vlans[w].addrs[p].gw != dst)
  }

  /** What outranks the learning flow of the destination's subnet: static routes. */
  lemma OutranksLearning(r: Router, vid: Vid, src: Ip, dst: Ip, s: Prefix, fk: FlowKey)
    requires RouterOk(r) && ToUnknownHost(r, vid, src, dst, s)
    requires fk in r.flows && HitFrom(fk.pattern, vid, src, dst) && fk != LearnKey(vid, s)
    requires fk.priority >= LearnKey(vid, s).priority
    ensures exists q :: q in r.vlans[vid].routes && r.vlans[vid].routes[q].isStatic && Within(dst, q)
  {
    hide RouteCookie, AddressCookie, VlanCookie, ApplyMask, OriginOf, VlanOk, PrefixOf, Overlap;
    assert KeyOk(r, fk);
    OriginsKey(fk);
    GoodRouter(r);
    var o := OriginOf(fk).value;
    match o
    case Learn(w, p) => if w == vid { OneSubnet(r, vid, dst, p, s); }
    case Switch(w, p) => if w == vid { OneSubnet(r, vid, dst, p, s); }
    case Handle(w, gw) => HostPrefix(dst, gw);
    case Host(w, ip) => HostPrefix(dst, ip);
    case _ =>
  }

  lemma OneSubnet(r: Router, vid: Vid, ip: Ip, p: Prefix, q: Prefix)
    requires vid in r.vlans && VlanOk(r.vlans[vid])
    requires p in r.vlans[vid].addrs && q in r.vlans[vid].addrs && Within(ip, p) && Within(ip, q)
    ensures p == q
  {
    hide VlanOk, Within;
    SubnetUnique(r.vlans[vid], ip, p);
    SubnetUnique(r.vlans[vid], ip, q);
  }

  lemma HostPrefix(ip: Ip, other: Ip)
    requires Within(ip, Prefix(other, 32))
    ensures ip == other
  {
    FullMask(ip);
  }

  lemma FullMask(ip: Ip)
    ensures ApplyMask(ip, 32) == ip
  {
  }

  /** A packet for an unknown host of a registered subnet is picked up by the
      subnet's learning flow exactly if no static route around the host exists;
      the handler behind it would prefer the subnet in either case. */
  lemma LearnedUnlessRouted(r: Router, vid: Vid, src: Ip, dst: Ip, s: Prefix)
    requires RouterOk(r) && ToUnknownHost(r, vid, src, dst, s)
    ensures Takes(r.flows, vid, src, dst, LearnKey(vid, s))
            <==> forall q | q in r.vlans[vid].routes && r.vlans[vid].routes[q].isStatic :: !Within(dst, q)
    ensures SubnetOf(r.vlans[vid].addrs, dst) == Some(s)
  {
    hide RouterOk, VlanOk, Within, ToUnknownHost, KeyOk, Due;
    GoodRouter(r);
    SubnetHolds(r, vid, src, dst, s);
    SubnetUnique(r.vlans[vid], dst, s);
    var best := LearnKey(vid, s);
    LearningFlowThere(r, vid, s);
    if forall q | q in r.vlans[vid].routes && r.vlans[vid].routes[q].isStatic :: !Within(dst, q) {
      forall other | other in r.flows && HitFrom(other.pattern, vid, src, dst) && other != best
        ensures other.priority < best.priority
      {
        if other.priority >= best.priority { OutranksLearning(r, vid, src, dst, s, other); }
      }
    } else {
      var q :| q in r.vlans[vid].routes && r.vlans[vid].routes[q].isStatic && Within(dst, q);
      StaticFlowThere(r, vid, q, s);
      assert HitFrom(RouteKey(vid, q, true).pattern, vid, src, dst);
    }
  }

  lemma SubnetHolds(r: Router, vid: Vid, src: Ip, dst: Ip, s: Prefix)
    requires ToUnknownHost(r, vid, src, dst, s)
    ensures vid in r.vlans && s in r.vlans[vid].addrs && Within(dst, s)
  {
  }

  lemma LearningFlowThere(r: Router, vid: Vid, s: Prefix)
    requires RouterOk(r) && vid in r.vlans && s in r.vlans[vid].addrs
    ensures LearnKey(vid, s) in r.flows
  {
    hide OriginOf, RowOk, Within, PrefixOf;
    assert AddressOk(r.vlans[vid], s);
    OneOriginPerKey(Learn(vid, s), LearnKey(vid, s));
    assert KeyOk(r, LearnKey(vid, s));
  }

  lemma StaticFlowThere(r: Router, vid: Vid, q: Prefix, s: Prefix)
    requires RouterOk(r) && vid in r.vlans && q in r.vlans[vid].routes && r.vlans[vid].routes[q].isStatic
    requires s in r.vlans[vid].addrs
    ensures RouteKey(vid, q, true) in r.flows && RouteKey(vid, q, true) != LearnKey(vid, s)
    ensures RouteKey(vid, q, true).priority >= LearnKey(vid, s).priority
  {
    hide OriginOf, RowOk, Within, PrefixOf;
    assert AddressOk(r.vlans[vid], s);
    assert RouteOk(r.vlans[vid], q);
    OneOriginPerKey(Static(vid, q), RouteKey(vid, q, true));
    assert KeyOk(r, RouteKey(vid, q, true));
  }

  // ------------------------------------------------------- no dangling routes

  /** In every good state each gateway has one subnet, so send_arp_all_gw always
      finds an address to send from. */
  lemma GatewaysHaveSubnets(r: Router, vid: Vid, p: Prefix)
    requires RouterOk(r) && vid in r.vlans && p in r.vlans[vid].routes
    ensures exists q :: q in r.vlans[vid].addrs && Within(r.vlans[vid].routes[p].gateway, q)
                        && SubnetOf(r.vlans[vid].addrs, r.vlans[vid].routes[p].gateway) == Some(q)
  {
    hide ApplyMask, Overlap, KeyOk;
    var v := r.vlans[vid];
    assert RouteOk(v, p);
    var q :| q in v.addrs && Within(v.routes[p].gateway, q);
    SubnetUnique(v, v.routes[p].gateway, q);
  }
}
