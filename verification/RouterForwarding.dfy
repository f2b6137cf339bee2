/** What becomes of a packet: over whole runs the flows of hosts and routes forward
    as their ARP packets said, and every IP packet is taken by the flow meant for
    it. */
module RouterForwarding {
  import opened Wrappers
  import opened Prefixes
  import opened RouterFlows
  import opened RouterState
  import opened RouterSteps
  import opened RouterDeletion
  import opened RouterRuns

  // ------------------------------------------------------------ what was heard

  /** A port and a MAC address that an ARP packet came with. */
  datatype Source = Source(port: nat, mac: Mac)

  /** The hosts heard of, and for each route its gateway as first heard under the
      MAC it has now. */
  datatype Heard = Heard(hosts: map<(Vid, Ip), Source>, gateways: map<(Vid, Prefix), Source>)

  const NOTHING := Heard(map[], map[])

  ghost predicate InSubnet(r: Router, vid: Vid, ip: Ip) {
    vid in r.vlans && exists p :: p in r.vlans[vid].addrs && Within(ip, p)
  }

  predicate HasGateway(r: Router, vid: Vid, ip: Ip) {
    vid in r.vlans && IsGateway(r.vlans[vid].routes, ip)
  }

  /** The route is still there, and still the same request's. */
  predicate SameRoute(r: Router, r': Router, vid: Vid, p: Prefix) {
    && vid in r.vlans && p in r.vlans[vid].routes && vid in r'.vlans && p in r'.vlans[vid].routes
    && r'.vlans[vid].routes[p].id == r.vlans[vid].routes[p].id
  }

  /** An ARP from a host of a subnet that is no gateway is remembered until the
      host expires, or its subnet goes. */
  ghost function HostsAfter(h: Heard, r: Router, r': Router, step: Step): map<(Vid, Ip), Source> {
    var hosts :=
      match step
      case ArpSeen(vid, ip, mac, port) =>
        if InSubnet(r, vid, ip) && !HasGateway(r, vid, ip) then h.hosts[(vid, ip) := Source(port, mac)] else h.hosts
      case HostExpired(vid, ip) => h.hosts - {(vid, ip)}
      case _ => h.hosts;
    map k | k in hosts && InSubnet(r', k.0, k.1) :: hosts[k]
  }

  /** An ARP from a gateway is remembered for each of its routes that did not know
      the MAC, as long as the route is there. */
  ghost function GatewaysAfter(h: Heard, r: Router, r': Router, step: Step): map<(Vid, Prefix), Source> {
    var keys := h.gateways.Keys + if step.ArpSeen? && step.vid in r.vlans then set p | p in r.vlans[step.vid].routes :: (step.vid, p) else {};
    map k | k in keys && SameRoute(r, r', k.0, k.1) && (k in h.gateways || News(h, r, step, k)) ::
      if News(h, r, step, k) then Source(step.port, step.mac) else h.gateways[k]
  }

  /** The step is an ARP that tells a route its gateway's MAC. */
  ghost predicate News(h: Heard, r: Router, step: Step, k: (Vid, Prefix)) {
    && step.ArpSeen? && step.vid == k.0 && InSubnet(r, step.vid, step.ip)
    && k.1 in r.vlans[k.0].routes && r.vlans[k.0].routes[k.1].gateway == step.ip
    && (k in h.gateways ==> h.gateways[k].mac != step.mac)
  }

  ghost function HeardAfter(h: Heard, r: Router, step: Step): Heard {
    Heard(HostsAfter(h, r, After(r, step), step), GatewaysAfter(h, r, After(r, step), step))
  }

  // ----------------------------------------------------------- what flows say

  /** Exactly the hosts heard of have a flow, and it leads where they were heard. */
  ghost predicate HostsOk(r: Router, h: Heard) {
    forall vid, ip :: HostOk(r, h, vid, ip)
  }

  ghost predicate HostOk(r: Router, h: Heard, vid: Vid, ip: Ip) {
    && ((vid, ip) in h.hosts <==> HostKey(vid, ip) in r.flows)
    && ((vid, ip) in h.hosts ==>
          r.flows[HostKey(vid, ip)].action == Forward(h.hosts[(vid, ip)].port, h.hosts[(vid, ip)].mac))
  }

  /** Each route's flow leads to its gateway as heard, or to the controller. */
  ghost predicate RoutesOk(r: Router, h: Heard) {
    && (forall k | k in h.gateways :: k.0 in r.vlans && k.1 in r.vlans[k.0].routes)
    && (forall vid, p | vid in r.vlans && p in r.vlans[vid].routes :: RouteAsHeard(r, h, vid, p))
  }

  ghost predicate RouteAsHeard(r: Router, h: Heard, vid: Vid, p: Prefix)
    requires vid in r.vlans && p in r.vlans[vid].routes
  {
    var route := r.vlans[vid].routes[p];
    var fk := RouteKey(vid, p, route.isStatic);
    && fk in r.flows
    && (route.mac == if (vid, p) in h.gateways then Some(h.gateways[(vid, p)].mac) else None)
    && (r.flows[fk].action == if (vid, p) in h.gateways then Forward(h.gateways[(vid, p)].port, h.gateways[(vid, p)].mac) else PacketIn)
  }

  ghost predicate Agree(r: Router, h: Heard) {
    HostsOk(r, h) && RoutesOk(r, h)
  }

  // -------------------------------------------------------------------- frames

  lemma HostKeyIs(vid: Vid, ip: Ip, o: Origin)
    requires Proper(o)
    ensures KeyOf(o) == HostKey(vid, ip) <==> o == Host(vid, ip)
  {
    OneOriginPerKey(Host(vid, ip), HostKey(vid, ip));
    OneOriginPerKey(o, HostKey(vid, ip));
  }

  lemma RouteKeyIs(vid: Vid, p: Prefix, isStatic: bool, o: Origin)
    requires Proper(o) && Legal(p.mask) && (!isStatic ==> p == DEFAULT)
    ensures KeyOf(o) == RouteKey(vid, p, isStatic) <==> o == if isStatic then Static(vid, p) else Default(vid)
  {
    var mine := if isStatic then Static(vid, p) else Default(vid);
    DefaultKeyIsRouteKey(vid);
    OneOriginPerKey(mine, KeyOf(mine));
    OneOriginPerKey(o, KeyOf(mine));
  }

  /** The flow of a host is in a subnet of its VLAN. */
  lemma HostHasSubnet(r: Router, vid: Vid, ip: Ip)
    requires RouterOk(r) && HostKey(vid, ip) in r.flows
    ensures InSubnet(r, vid, ip)
  {
    hide RouteCookie, AddressCookie, OriginOf, VlanOk, HostKey;
    assert KeyOk(r, HostKey(vid, ip));
    OneOriginPerKey(Host(vid, ip), KeyOf(Host(vid, ip)));
    assert KeyOf(Host(vid, ip)) == HostKey(vid, ip);
  }

  predicate KeySame(r: Router, r': Router, fk: FlowKey) {
    Lookup(r'.flows, fk) == Lookup(r.flows, fk)
  }

  ghost predicate HostsSame(r: Router, r': Router) {
    forall vid, ip :: KeySame(r, r', HostKey(vid, ip))
  }

  /** Hosts go only with their subnets. */
  ghost predicate HostsKept(r: Router, r': Router) {
    && (forall vid, ip | HostKey(vid, ip) in r'.flows :: KeySame(r, r', HostKey(vid, ip)))
    && (forall vid, ip | HostKey(vid, ip) in r.flows && InSubnet(r', vid, ip) :: HostKey(vid, ip) in r'.flows)
  }

  /** Routes that stay keep their entry and their flow; others are new. */
  ghost predicate RoutesKeptAsHeard(r: Router, r': Router) {
    forall vid, p | vid in r'.vlans && p in r'.vlans[vid].routes :: RouteKept(r, r', vid, p)
  }

  ghost predicate RouteKept(r: Router, r': Router, vid: Vid, p: Prefix)
    requires vid in r'.vlans && p in r'.vlans[vid].routes
  {
    if SameRoute(r, r', vid, p) then
      r'.vlans[vid].routes[p] == r.vlans[vid].routes[p] && KeySame(r, r', RouteKey(vid, p, r.vlans[vid].routes[p].isStatic))
    else r'.vlans[vid].routes[p].mac == None
  }

  lemma SameIsKept(r: Router, r': Router)
    requires HostsSame(r, r')
    ensures HostsKept(r, r')
  {
    hide HostKey;
    forall vid, ip | HostKey(vid, ip) in r'.flows ensures KeySame(r, r', HostKey(vid, ip)) {}
    forall vid, ip | HostKey(vid, ip) in r.flows && InSubnet(r', vid, ip) ensures HostKey(vid, ip) in r'.flows {
      assert KeySame(r, r', HostKey(vid, ip));
    }
  }

  /** What is left of what was heard once the state is `r'`. */
  ghost function HeardKept(h: Heard, r: Router, r': Router): Heard {
    Heard(map k | k in h.hosts && InSubnet(r', k.0, k.1) :: h.hosts[k],
          map k | k in h.gateways && SameRoute(r, r', k.0, k.1) :: h.gateways[k])
  }

  lemma OnlyKept(h: Heard, r: Router, step: Step)
    requires !step.ArpSeen? && !step.HostExpired?
    ensures HeardAfter(h, r, step) == HeardKept(h, r, After(r, step))
  {
    hide InSubnet, After, SameRoute;
    assert HeardAfter(h, r, step).hosts == HeardKept(h, r, After(r, step)).hosts;
    assert HeardAfter(h, r, step).gateways == HeardKept(h, r, After(r, step)).gateways;
  }

  lemma HostStays(r: Router, h: Heard, r': Router, vid: Vid, ip: Ip)
    requires RouterOk(r') && HostOk(r, h, vid, ip) && HostsKept(r, r')
    ensures HostOk(r', HeardKept(h, r, r'), vid, ip)
  {
    hide RouterOk, HostKey, InSubnet, SameRoute;
    if HostKey(vid, ip) in r'.flows {
      HostHasSubnet(r', vid, ip);
      assert KeySame(r, r', HostKey(vid, ip));
    }
  }

  lemma RouteStays(r: Router, h: Heard, r': Router, vid: Vid, p: Prefix)
    requires RouterOk(r') && RoutesOk(r, h) && vid in r'.vlans && p in r'.vlans[vid].routes && RouteKept(r, r', vid, p)
    ensures RouteAsHeard(r', HeardKept(h, r, r'), vid, p)
  {
    hide RouterOk, InSubnet, RouteKey;
    if SameRoute(r, r', vid, p) { assert RouteAsHeard(r, h, vid, p); } else { NewRouteAsks(r', vid, p); }
  }

  /** A step without ARP or expiry: what was heard and what flows say still agree. */
  lemma KeptStep(r: Router, h: Heard, step: Step)
    requires RouterOk(After(r, step)) && Agree(r, h)
    requires !step.ArpSeen? && !step.HostExpired?
    requires HostsKept(r, After(r, step)) && RoutesKeptAsHeard(r, After(r, step))
    ensures Agree(After(r, step), HeardAfter(h, r, step))
  {
    hide RouterOk, HostKey, InSubnet, After, HeardAfter, HostOk, RouteAsHeard, RouteKept, HostsKept;
    var r' := After(r, step);
    OnlyKept(h, r, step);
    forall vid, ip ensures HostOk(r', HeardKept(h, r, r'), vid, ip) {
      assert HostOk(r, h, vid, ip);
      HostStays(r, h, r', vid, ip);
    }
    forall vid, p | vid in r'.vlans && p in r'.vlans[vid].routes ensures RouteAsHeard(r', HeardKept(h, r, r'), vid, p) {
      RouteStays(r, h, r', vid, p);
    }
  }

  /** A route that knows no MAC sends its packets to the controller. */
  lemma NewRouteAsks(r: Router, vid: Vid, p: Prefix)
    requires RouterOk(r) && vid in r.vlans && p in r.vlans[vid].routes && r.vlans[vid].routes[p].mac == None
    ensures var fk := RouteKey(vid, p, r.vlans[vid].routes[p].isStatic); fk in r.flows && r.flows[fk].action == PacketIn
  {
    hide RouterOk, RouteCookie, CookieRoute, OriginOf;
    RouteHasRow(r, vid, p);
  }

  lemma RouteHasRow(r: Router, vid: Vid, p: Prefix)
    requires RouterOk(r) && vid in r.vlans && p in r.vlans[vid].routes
    ensures var fk := RouteKey(vid, p, r.vlans[vid].routes[p].isStatic);
            fk in r.flows && RouteRow(vid, r.vlans[vid].routes[p], r.flows[fk])
  {
    hide RouteCookie, VlanCookie, CookieRoute, OriginOf, Within, PrefixOf, Overlap;
    RouteHasFlow(r, vid, p);
    assert KeyOk(r, RouteKey(vid, p, r.vlans[vid].routes[p].isStatic));
    assert RouteOk(r.vlans[vid], p);
  }

  // ------------------------------------------------------- step by step frames

  lemma EnsureVlanFrame(r: Router, vid: Vid)
    requires RouterOk(r)
    ensures HostsSame(r, EnsureVlan(r, vid)) && RoutesKeptAsHeard(r, EnsureVlan(r, vid))
  {
    hide HostKey, RouteKey, DefaultKey, VlanOk, KeyOk;
    var r1 := EnsureVlan(r, vid);
    forall w, ip ensures KeySame(r, r1, HostKey(w, ip)) { HostKeyIs(w, ip, Default(vid)); }
    forall w, p | w in r1.vlans && p in r1.vlans[w].routes ensures RouteKept(r, r1, w, p) {
      GoodRoute(r, w, p);
      RouteKeyIs(w, p, r.vlans[w].routes[p].isStatic, Default(vid));
    }
  }

  lemma GoodRoute(r: Router, vid: Vid, p: Prefix)
    requires RouterOk(r) && vid in r.vlans && p in r.vlans[vid].routes
    ensures Legal(p.mask) && (!r.vlans[vid].routes[p].isStatic ==> p == DEFAULT)
    ensures r.vlans[vid].routes[p].id < r.vlans[vid].nextRoute
  {
    hide Within, PrefixOf, Overlap, KeyOk;
    assert RouteOk(r.vlans[vid], p);
  }

  lemma CleanupFrame(r: Router, vid: Vid)
    requires RouterOk(r)
    ensures HostsSame(r, Cleanup(r, vid)) && RoutesKeptAsHeard(r, Cleanup(r, vid))
    ensures forall w | w in Cleanup(r, vid).vlans :: w in r.vlans && Cleanup(r, vid).vlans[w] == r.vlans[w]
  {
    hide HostKey, RouteKey, KeyOk, VlanOk, CookieVid;
    var r' := Cleanup(r, vid);
    forall w, ip ensures KeySame(r, r', HostKey(w, ip)) {
      if HostKey(w, ip) in r.flows {
        HostHasSubnet(r, w, ip);
        HostKeyIs(w, ip, Host(w, ip));
        CookieVidOfFlow(r, HostKey(w, ip));
        OneOriginPerKey(Host(w, ip), HostKey(w, ip));
      }
    }
    forall w, p | w in r'.vlans && p in r'.vlans[w].routes ensures RouteKept(r, r', w, p) {
      RouteHasFlow(r, w, p);
      CookieVidOfFlow(r, RouteKey(w, p, r.vlans[w].routes[p].isStatic));
    }
  }

  /** One frame after another, where the first leaves the routes alone. */
  lemma ThenFrame(r: Router, r1: Router, r': Router)
    requires HostsSame(r, r1) && HostsSame(r1, r') && RoutesKeptAsHeard(r, r1) && RoutesKeptAsHeard(r1, r')
    requires forall w | w in r.vlans :: w in r1.vlans && r1.vlans[w].routes == r.vlans[w].routes
    ensures HostsSame(r, r') && RoutesKeptAsHeard(r, r')
  {
    hide HostKey, RouteKey;
    forall w, ip ensures KeySame(r, r', HostKey(w, ip)) { assert KeySame(r, r1, HostKey(w, ip)) && KeySame(r1, r', HostKey(w, ip)); }
    forall w, p | w in r'.vlans && p in r'.vlans[w].routes ensures RouteKept(r, r', w, p) {
      assert RouteKept(r1, r', w, p);
      if SameRoute(r1, r', w, p) { assert RouteKept(r, r1, w, p); }
    }
  }

  /** One frame after another, where the second only takes VLANs away. */
  lemma FewerThen(r: Router, r1: Router, r': Router)
    requires HostsKept(r, r1) && HostsSame(r1, r') && RoutesKeptAsHeard(r, r1) && RoutesKeptAsHeard(r1, r')
    requires forall w | w in r'.vlans :: w in r1.vlans && r'.vlans[w] == r1.vlans[w]
    ensures HostsKept(r, r') && RoutesKeptAsHeard(r, r')
  {
    hide HostKey, RouteKey;
    forall w, ip | HostKey(w, ip) in r'.flows ensures KeySame(r, r', HostKey(w, ip)) {
      assert KeySame(r1, r', HostKey(w, ip)) && KeySame(r, r1, HostKey(w, ip));
    }
    forall w, ip | HostKey(w, ip) in r.flows && InSubnet(r', w, ip) ensures HostKey(w, ip) in r'.flows {
      assert InSubnet(r1, w, ip) && KeySame(r1, r', HostKey(w, ip));
    }
    forall w, p | w in r'.vlans && p in r'.vlans[w].routes ensures RouteKept(r, r', w, p) {
      assert RouteKept(r1, r', w, p) && RouteKept(r, r1, w, p);
    }
  }

  lemma AddAddressFrame(r: Router, vid: Vid, gw: Ip, mask: nat)
    requires RouterOk(r) && vid in r.vlans && 1 <= mask <= 32
    ensures HostsSame(r, AddAddress(r, vid, gw, mask)) && RoutesKeptAsHeard(r, AddAddress(r, vid, gw, mask))
  {
    hide HostKey, RouteKey, LearnKey, HandleKey, SwitchKey, PrefixOf, KeyOk, VlanOk, AddressCookie;
    var r', p := AddAddress(r, vid, gw, mask), PrefixOf(gw, mask);
    PrefixMask(gw, mask);
    forall w, ip ensures KeySame(r, r', HostKey(w, ip)) {
      HostKeyIs(w, ip, Learn(vid, p));
      HostKeyIs(w, ip, Handle(vid, gw));
      HostKeyIs(w, ip, Switch(vid, p));
    }
    forall w, q | w in r'.vlans && q in r'.vlans[w].routes ensures RouteKept(r, r', w, q) {
      GoodRoute(r, w, q);
      var isStatic := r.vlans[w].routes[q].isStatic;
      RouteKeyIs(w, q, isStatic, Learn(vid, p));
      RouteKeyIs(w, q, isStatic, Handle(vid, gw));
      RouteKeyIs(w, q, isStatic, Switch(vid, p));
    }
  }

  lemma AddRouteFrame(r: Router, vid: Vid, dest: Dest, gateway: Ip)
    requires RouterOk(r) && vid in r.vlans && (dest.Network? ==> Legal(dest.mask))
    ensures HostsSame(r, AddRoute(r, vid, dest, gateway)) && RoutesKeptAsHeard(r, AddRoute(r, vid, dest, gateway))
  {
    hide HostKey, RouteKey, DestPrefix, KeyOk, VlanOk, RouteCookie;
    var r', p := AddRoute(r, vid, dest, gateway), DestPrefix(dest);
    DestCanonical(dest);
    var mine := if dest.Network? then Static(vid, p) else Default(vid);
    RouteKeyIs(vid, p, dest.Network?, mine);
    forall w, ip ensures KeySame(r, r', HostKey(w, ip)) { HostKeyIs(w, ip, mine); }
    forall w, q | w in r'.vlans && q in r'.vlans[w].routes ensures RouteKept(r, r', w, q) {
      if w in r.vlans && q in r.vlans[w].routes {
        GoodRoute(r, w, q);
        RouteKeyIs(w, q, r.vlans[w].routes[q].isStatic, mine);
      }
    }
  }

  lemma SetAddressFrame(r: Router, vid: Vid, gw: Ip, mask: int)
    requires RouterOk(r) && mask != 0
    ensures HostsSame(r, SetAddress(r, vid, gw, mask).0) && RoutesKeptAsHeard(r, SetAddress(r, vid, gw, mask).0)
  {
    hide HostsSame, RoutesKeptAsHeard, RouterOk, Overlaps, AddAddress, Cleanup;
    var r1, r' := EnsureVlan(r, vid), SetAddress(r, vid, gw, mask).0;
    Unchanged(r);
    if ValidVid(vid) {
      EnsureVlanOk(r, vid);
      EnsureVlanFrame(r, vid);
      CleanupFrame(r1, vid);
      if 1 <= mask <= 32 { AddAddressFrame(r1, vid, gw, mask); }
      ThenFrame(r, r1, r');
    }
  }

  lemma Unchanged(r: Router)
    ensures HostsSame(r, r) && RoutesKeptAsHeard(r, r)
  {
    hide HostKey, RouteKey;
  }

  lemma SetRouteFrame(r: Router, vid: Vid, dest: Dest, gateway: Ip)
    requires RouterOk(r)
    ensures HostsSame(r, SetRoute(r, vid, dest, gateway).0) && RoutesKeptAsHeard(r, SetRoute(r, vid, dest, gateway).0)
  {
    hide HostsSame, RoutesKeptAsHeard, RouterOk, AddRoute, Cleanup, Taken, Within;
    var r1, r' := EnsureVlan(r, vid), SetRoute(r, vid, dest, gateway).0;
    Unchanged(r);
    if ValidVid(vid) {
      EnsureVlanOk(r, vid);
      EnsureVlanFrame(r, vid);
      CleanupFrame(r1, vid);
      if dest.Network? ==> Legal(dest.mask) { AddRouteFrame(r1, vid, dest, gateway); }
      ThenFrame(r, r1, r');
    }
  }

  lemma DeleteRouteFrame(r: Router, vid: Vid, which: Which, listed: seq<Stat>, byCookie: bool)
    requires RouterOk(r) && which != One(0) && Lists(r.flows, listed, RouteFlows(vid, which))
    ensures HostsKept(r, DeleteRoute(r, vid, listed, byCookie)) && RoutesKeptAsHeard(r, DeleteRoute(r, vid, listed, byCookie))
  {
    hide HostsSame, HostsKept, RoutesKeptAsHeard, RouterOk, Lists, DeletedRoutes, Cleanup;
    if vid !in r.vlans {
      Unchanged(r);
      SameIsKept(r, r);
    } else {
      var r1 := DeletedRoutes(r, vid, listed, byCookie);
      DeletedRoutesFrame(r, vid, which, listed, byCookie);
      DeletedRoutesOk(r, vid, which, listed, byCookie);
      SameIsKept(r, r1);
      CleanupFrame(r1, vid);
      CleanedUp(r, vid, listed, byCookie);
      FewerThen(r, r1, Cleanup(r1, vid));
    }
  }

  lemma CleanedUp(r: Router, vid: Vid, listed: seq<Stat>, byCookie: bool)
    requires vid in r.vlans
    ensures DeleteRoute(r, vid, listed, byCookie) == Cleanup(DeletedRoutes(r, vid, listed, byCookie), vid)
    ensures DeleteAddress(r, vid, listed, byCookie) == Cleanup(DeletedAddresses(r, vid, listed, byCookie), vid)
  {
    hide Cleanup, DeleteListed;
  }

  lemma DeletedRoutesFrame(r: Router, vid: Vid, which: Which, listed: seq<Stat>, byCookie: bool)
    requires RouterOk(r) && vid in r.vlans && which != One(0) && Lists(r.flows, listed, RouteFlows(vid, which))
    ensures HostsSame(r, DeletedRoutes(r, vid, listed, byCookie)) && RoutesKeptAsHeard(r, DeletedRoutes(r, vid, listed, byCookie))
  {
    hide RouterOk, HostKey, RouteKey, DeletedRoutes, OriginOf, DefaultKey;
    var r' := DeletedRoutes(r, vid, listed, byCookie);
    DeleteRouteExactly(r, vid, which, listed, byCookie);
    forall w, ip ensures KeySame(r, r', HostKey(w, ip)) { OneOriginPerKey(Host(w, ip), HostKey(w, ip)); HostKeyIs(w, ip, Host(w, ip)); }
    forall w, p | w in r'.vlans && p in r'.vlans[w].routes ensures RouteKept(r, r', w, p) {
      RouteHasFlow(r, w, p);
    }
  }

  lemma DeleteAddressFrame(r: Router, vid: Vid, which: Which, listed: seq<Stat>, byCookie: bool)
    requires RouterOk(r) && (vid in r.vlans ==> !Misread(r.vlans[vid], vid, which))
    requires Lists(r.flows, listed, AddressFilter(r, vid, which))
    ensures HostsKept(r, DeleteAddress(r, vid, listed, byCookie)) && RoutesKeptAsHeard(r, DeleteAddress(r, vid, listed, byCookie))
  {
    hide HostsSame, HostsKept, RoutesKeptAsHeard, RouterOk, Lists, DeleteListed, Cleanup, Misread, AddressFilter;
    Unchanged(r);
    SameIsKept(r, r);
    if vid in r.vlans {
      var r1 := DeletedAddresses(r, vid, listed, byCookie);
      if Sound(which) {
        DeletedAddressesFrame(r, vid, which, listed, byCookie);
        DeletedAddressesOk(r, vid, which, listed, byCookie);
      } else {
        NothingRead(r, vid, which, listed);
        assert WithoutAddresses(r.vlans[vid].addrs, {}) == r.vlans[vid].addrs;
        assert r.vlans[vid := r.vlans[vid]] == r.vlans;
        DeleteNothing(r.flows, vid, byCookie, false);
        assert r1 == r;
      }
      CleanupFrame(r1, vid);
      FewerThen(r, r1, Cleanup(r1, vid));
    }
  }

  lemma DeletedAddressesFrame(r: Router, vid: Vid, which: Which, listed: seq<Stat>, byCookie: bool)
    requires RouterOk(r) && vid in r.vlans && Sound(which) && Lists(r.flows, listed, AddressFilter(r, vid, which))
    ensures HostsKept(r, DeletedAddresses(r, vid, listed, byCookie)) && RoutesKeptAsHeard(r, DeletedAddresses(r, vid, listed, byCookie))
  {
    hide RouterOk, HostKey, RouteKey, DeletedAddresses, AddressFilter, OriginOf, IsDoomedFlow, Within, Doomed;
    var r' := DeletedAddresses(r, vid, listed, byCookie);
    DeleteAddressExactly(r, vid, which, listed, byCookie);
    forall w, ip | HostKey(w, ip) in r'.flows ensures KeySame(r, r', HostKey(w, ip)) {}
    forall w, ip | HostKey(w, ip) in r.flows && InSubnet(r', w, ip) ensures HostKey(w, ip) in r'.flows {
      KeptHost(r, vid, which, w, ip);
    }
    forall w, p | w in r'.vlans && p in r'.vlans[w].routes ensures RouteKept(r, r', w, p) {
      RouteHasFlow(r, w, p);
      RouteNotDoomed(r, vid, which, RouteKey(w, p, r.vlans[w].routes[p].isStatic));
    }
  }

  lemma RouteNotDoomed(r: Router, vid: Vid, which: Which, fk: FlowKey)
    requires vid in r.vlans && fk in r.flows && OriginOf(fk).Some? && (OriginOf(fk).value.Static? || OriginOf(fk).value.Default?)
    ensures !IsDoomedFlow(r, vid, which, fk)
  {
    hide OriginOf, Doomed, TellsAddress;
  }

  /** A host's flow belongs to the one subnet around it. */
  lemma KeptHost(r: Router, vid: Vid, which: Which, w: Vid, ip: Ip)
    requires RouterOk(r) && vid in r.vlans && HostKey(w, ip) in r.flows
    requires InSubnet(Router(r.vlans[vid := WithoutDoomed(r.vlans[vid], which)], r.flows), w, ip)
    ensures !IsDoomedFlow(r, vid, which, HostKey(w, ip))
  {
    hide HostKey, OriginOf, Doomed, TellsAddress, KeyOk, Within, VlanOk;
    GoodRouter(r);
    HostKeyIs(w, ip, Host(w, ip));
    OneOriginPerKey(Host(w, ip), HostKey(w, ip));
    if IsDoomedFlow(r, vid, which, HostKey(w, ip)) {
      var v := r.vlans[vid];
      var p :| AddressFlowOf(v, vid, Host(w, ip), r.flows[HostKey(w, ip)].cookie, p) && Doomed(v, which, v.addrs[p].id);
      var q :| q in WithoutDoomed(v, which).addrs && Within(ip, q);
      OneSubnet(r, vid, ip, p, q);
    }
  }

  // --------------------------------------------------------------- ARP packets

  lemma ArpSameRoutes(r: Router, vid: Vid, ip: Ip, mac: Mac, port: nat, w: Vid, p: Prefix)
    requires w in r.vlans && p in r.vlans[w].routes
    ensures SameRoute(r, ArpPacket(r, vid, ip, mac, port), w, p)
  {
    hide SubnetOf, Relearned, HostKey, IsGateway;
  }

  /** What was heard of a route after an ARP packet. */
  lemma GatewayAt(h: Heard, r: Router, step: Step, w: Vid, p: Prefix)
    requires step.ArpSeen? && w in r.vlans && p in r.vlans[w].routes
    ensures var h' := HeardAfter(h, r, step);
            && ((w, p) in h'.gateways <==> (w, p) in h.gateways || News(h, r, step, (w, p)))
            && ((w, p) in h'.gateways ==>
                  h'.gateways[(w, p)] == if News(h, r, step, (w, p)) then Source(step.port, step.mac) else h.gateways[(w, p)])
  {
    hide ArpPacket, InSubnet, HostsAfter;
    ArpSameRoutes(r, step.vid, step.ip, step.mac, step.port, w, p);
    if News(h, r, step, (w, p)) { assert p in r.vlans[step.vid].routes; }
  }

  /** What was heard of a host after any step. */
  lemma HostAt(h: Heard, r: Router, step: Step, w: Vid, ip: Ip)
    ensures var h', k := HeardAfter(h, r, step), (w, ip);
            var told := step.ArpSeen? && (step.vid, step.ip) == k && InSubnet(r, w, ip) && !HasGateway(r, w, ip);
            var gone := step.HostExpired? && (step.vid, step.ip) == k;
            && (k in h'.hosts <==> (told || (k in h.hosts && !gone)) && InSubnet(After(r, step), w, ip))
            && (k in h'.hosts ==> h'.hosts[k] == if told then Source(step.port, step.mac) else h.hosts[k])
  {
    hide After, InSubnet, HasGateway, GatewaysAfter;
  }

  lemma InSubnetIs(r: Router, vid: Vid, ip: Ip)
    ensures InSubnet(r, vid, ip) <==> vid in r.vlans && SubnetOf(r.vlans[vid].addrs, ip) != None
  {
    hide Within;
  }

  lemma ArpKeepsSubnets(r: Router, vid: Vid, ip: Ip, mac: Mac, port: nat, w: Vid, other: Ip)
    ensures InSubnet(ArpPacket(r, vid, ip, mac, port), w, other) == InSubnet(r, w, other)
  {
    hide Within, Relearned, HostKey, SubnetOf, IsGateway;
  }

  /** The flow of a host after an ARP packet. */
  lemma ArpHostFlow(r: Router, vid: Vid, ip: Ip, mac: Mac, port: nat, w: Vid, other: Ip)
    requires RouterOk(r)
    ensures var r', key := ArpPacket(r, vid, ip, mac, port), HostKey(w, other);
            if (vid, ip) == (w, other) && InSubnet(r, vid, ip) && !HasGateway(r, vid, ip) then
              key in r'.flows && r'.flows[key].action == Forward(port, mac)
            else KeySame(r, r', key)
  {
    hide RouterOk, HostKey, SubnetOf, Relearned, AddressCookie, IsGateway, LearnRoutes, OriginOf;
    InSubnetIs(r, vid, ip);
    HostKeyIs(vid, ip, Host(w, other));
    HostKeyIs(w, other, Host(w, other));
    if InSubnet(r, vid, ip) && IsGateway(r.vlans[vid].routes, ip) && HostKey(w, other) in Relearned(vid, r.vlans[vid].routes, ip, mac, port) {
      GoodRouter(r);
      RelearnedOrigin(r.vlans[vid], vid, ip, mac, port, HostKey(w, other));
      OneOriginPerKey(Host(w, other), HostKey(w, other));
    }
  }

  lemma ArpHost(r: Router, h: Heard, vid: Vid, ip: Ip, mac: Mac, port: nat, w: Vid, other: Ip)
    requires RouterOk(r) && HostOk(r, h, w, other)
    ensures var step := ArpSeen(vid, ip, mac, port); HostOk(After(r, step), HeardAfter(h, r, step), w, other)
  {
    hide RouterOk, HostKey, InSubnet, ArpPacket, HeardAfter, HasGateway;
    HostAt(h, r, ArpSeen(vid, ip, mac, port), w, other);
    ArpKeepsSubnets(r, vid, ip, mac, port, w, other);
    ArpHostFlow(r, vid, ip, mac, port, w, other);
    if HostKey(w, other) in r.flows { HostHasSubnet(r, w, other); }
  }

  /** The entry and the flow of a route after an ARP packet. */
  lemma ArpRouteFlow(r: Router, vid: Vid, ip: Ip, mac: Mac, port: nat, w: Vid, p: Prefix)
    requires RouterOk(r) && w in r.vlans && p in r.vlans[w].routes
    ensures var r', route := ArpPacket(r, vid, ip, mac, port), r.vlans[w].routes[p];
            var key := RouteKey(w, p, route.isStatic);
            && w in r'.vlans && p in r'.vlans[w].routes && r'.vlans[w].routes[p].isStatic == route.isStatic
            && key in r.flows
            && if w == vid && InSubnet(r, vid, ip) && route.gateway == ip && route.mac != Some(mac) then
                 r'.vlans[w].routes[p].mac == Some(mac) && key in r'.flows && r'.flows[key].action == Forward(port, mac)
               else r'.vlans[w].routes[p].mac == route.mac && KeySame(r, r', key)
  {
    hide RouterOk, HostKey, RouteKey, SubnetOf, Relearned, AddressCookie;
    InSubnetIs(r, vid, ip);
    var isStatic := r.vlans[w].routes[p].isStatic;
    RouteHasRow(r, w, p);
    if InSubnet(r, vid, ip) && IsGateway(r.vlans[vid].routes, ip) {
      if w == vid { RelearnedRoute(r, vid, ip, mac, port, p); } else { NotRelearned(r, vid, ip, mac, port, w, p); }
    } else if InSubnet(r, vid, ip) {
      GoodRoute(r, w, p);
      RouteKeyIs(w, p, isStatic, Host(vid, ip));
    }
  }

  lemma RelearnedRoute(r: Router, vid: Vid, ip: Ip, mac: Mac, port: nat, p: Prefix)
    requires RouterOk(r) && vid in r.vlans && p in r.vlans[vid].routes
    ensures var rows, route := Relearned(vid, r.vlans[vid].routes, ip, mac, port), r.vlans[vid].routes[p];
            var key := RouteKey(vid, p, route.isStatic);
            && (key in rows <==> route.gateway == ip && route.mac != Some(mac))
            && (key in rows ==> rows[key].action == Forward(port, mac))
  {
    hide RouterOk, RouteKey, Relearned, OriginOf, RouteCookie;
    GoodRouter(r);
    GoodRoute(r, vid, p);
    var v, isStatic := r.vlans[vid], r.vlans[vid].routes[p].isStatic;
    var mine := if isStatic then Static(vid, p) else Default(vid);
    DefaultKeyIsRouteKey(vid);
    RouteKeyIs(vid, p, isStatic, mine);
    StaleFlow(v, vid, ip, mac, port, mine);
    assert RouteFlowOf(v, mine, p);
    assert forall q :: RouteFlowOf(v, mine, q) ==> q == p;
  }

  lemma NotRelearned(r: Router, vid: Vid, ip: Ip, mac: Mac, port: nat, w: Vid, p: Prefix)
    requires w != vid && vid in r.vlans
    ensures forall isStatic :: RouteKey(w, p, isStatic) !in Relearned(vid, r.vlans[vid].routes, ip, mac, port)
  {
  }

  lemma ArpRoute(r: Router, h: Heard, vid: Vid, ip: Ip, mac: Mac, port: nat, w: Vid, p: Prefix)
    requires RouterOk(r) && w in r.vlans && p in r.vlans[w].routes && RouteAsHeard(r, h, w, p)
    ensures var step := ArpSeen(vid, ip, mac, port);
            && w in After(r, step).vlans && p in After(r, step).vlans[w].routes
            && RouteAsHeard(After(r, step), HeardAfter(h, r, step), w, p)
  {
    hide RouterOk, RouteKey, InSubnet, ArpPacket, HeardAfter;
    GatewayAt(h, r, ArpSeen(vid, ip, mac, port), w, p);
    ArpRouteFlow(r, vid, ip, mac, port, w, p);
  }

  lemma ArpVlans(r: Router, vid: Vid, ip: Ip, mac: Mac, port: nat)
    ensures var r' := ArpPacket(r, vid, ip, mac, port);
            && r'.vlans.Keys == r.vlans.Keys
            && forall w | w in r.vlans :: r'.vlans[w].routes.Keys == r.vlans[w].routes.Keys
  {
    hide SubnetOf, Relearned, HostKey, IsGateway;
  }

  lemma GatewaysStay(h: Heard, r: Router, step: Step, k: (Vid, Prefix))
    requires k in HeardAfter(h, r, step).gateways
    ensures k.0 in After(r, step).vlans && k.1 in After(r, step).vlans[k.0].routes
  {
    hide After, News, HostsAfter;
  }

  lemma ArpStep(r: Router, h: Heard, vid: Vid, ip: Ip, mac: Mac, port: nat)
    requires RouterOk(r) && Agree(r, h)
    ensures var step := ArpSeen(vid, ip, mac, port); Agree(After(r, step), HeardAfter(h, r, step))
  {
    hide RouterOk, HostOk, RouteAsHeard, ArpPacket, HeardAfter;
    var step := ArpSeen(vid, ip, mac, port);
    var r', h' := After(r, step), HeardAfter(h, r, step);
    forall w, other ensures HostOk(r', h', w, other) {
      assert HostOk(r, h, w, other);
      ArpHost(r, h, vid, ip, mac, port, w, other);
    }
    ArpVlans(r, vid, ip, mac, port);
    forall k | k in h'.gateways ensures k.0 in r'.vlans && k.1 in r'.vlans[k.0].routes { GatewaysStay(h, r, step, k); }
    forall w, p | w in r'.vlans && p in r'.vlans[w].routes ensures RouteAsHeard(r', h', w, p) {
      assert w in r.vlans && p in r.vlans[w].routes;
      ArpRoute(r, h, vid, ip, mac, port, w, p);
    }
  }

  // --------------------------------------------------------------------- runs

  lemma ExpiryStep(r: Router, h: Heard, vid: Vid, ip: Ip)
    requires RouterOk(r) && Agree(r, h)
    ensures var step := HostExpired(vid, ip); Agree(After(r, step), HeardAfter(h, r, step))
  {
    hide RouterOk, RouteAsHeard, HeardAfter, OriginOf, RouteKey;
    var step := HostExpired(vid, ip);
    var r', h' := After(r, step), HeardAfter(h, r, step);
    forall w, other ensures HostOk(r', h', w, other) {
      assert HostOk(r, h, w, other);
      ExpiredHost(r, h, vid, ip, w, other);
    }
    forall k | k in h'.gateways ensures k.0 in r'.vlans && k.1 in r'.vlans[k.0].routes { GatewaysStay(h, r, step, k); }
    forall w, p | w in r'.vlans && p in r'.vlans[w].routes ensures RouteAsHeard(r', h', w, p) {
      assert RouteAsHeard(r, h, w, p);
      ExpiredRoute(r, h, vid, ip, w, p);
    }
  }

  lemma ExpiredHost(r: Router, h: Heard, vid: Vid, ip: Ip, w: Vid, other: Ip)
    requires RouterOk(r) && HostOk(r, h, w, other)
    ensures var step := HostExpired(vid, ip); HostOk(After(r, step), HeardAfter(h, r, step), w, other)
  {
    hide RouterOk, HostKey, HeardAfter, OriginOf;
    HostAt(h, r, HostExpired(vid, ip), w, other);
    HostKeyIs(w, other, Host(w, other));
    HostKeyIs(vid, ip, Host(w, other));
    if HostKey(w, other) in r.flows { HostHasSubnet(r, w, other); }
  }

  lemma ExpiredRoute(r: Router, h: Heard, vid: Vid, ip: Ip, w: Vid, p: Prefix)
    requires RouterOk(r) && w in r.vlans && p in r.vlans[w].routes && RouteAsHeard(r, h, w, p)
    ensures var step := HostExpired(vid, ip); RouteAsHeard(After(r, step), HeardAfter(h, r, step), w, p)
  {
    hide RouterOk, HostKey, RouteKey, HostsAfter;
    GoodRoute(r, w, p);
    RouteKeyIs(w, p, r.vlans[w].routes[p].isStatic, Host(vid, ip));
  }

  /** Whatever a careful step does, flows go on saying what was heard. */
  lemma StepAgrees(r: Router, h: Heard, step: Step)
    requires RouterOk(r) && Tidy(r) && Agree(r, h) && Careful(r, step)
    ensures Agree(After(r, step), HeardAfter(h, r, step))
  {
    hide RouterOk, Tidy, Agree, HeardAfter, HostsSame, HostsKept, RoutesKeptAsHeard, Misread, Lists, ReplacesDefault;
    hide SetAddress, SetRoute, DeleteAddress, DeleteRoute, ArpPacket;
    CarefulKeeps(r, step);
    match step
    case SetAddr(vid, gw, mask) => SetAddressFrame(r, vid, gw, mask); SameIsKept(r, After(r, step)); KeptStep(r, h, step);
    case SetRt(vid, dest, gateway) => SetRouteFrame(r, vid, dest, gateway); SameIsKept(r, After(r, step)); KeptStep(r, h, step);
    case DelAddr(vid, which, listed, byCookie) => DeleteAddressFrame(r, vid, which, listed, byCookie); KeptStep(r, h, step);
    case DelRt(vid, which, listed, byCookie) => DeleteRouteFrame(r, vid, which, listed, byCookie); KeptStep(r, h, step);
    case ArpSeen(vid, ip, mac, port) => ArpStep(r, h, vid, ip, mac, port);
    case HostExpired(vid, ip) => ExpiryStep(r, h, vid, ip);
  }

  ghost function HeardAll(h: Heard, r: Router, steps: seq<Step>): Heard
    decreases |steps|
  {
    if steps == [] then h else HeardAll(HeardAfter(h, r, steps[0]), After(r, steps[0]), steps[1..])
  }

  lemma {:induction false} RunAgrees(r: Router, h: Heard, steps: seq<Step>)
    requires RouterOk(r) && Tidy(r) && Agree(r, h) && AllCareful(r, steps)
    ensures RouterOk(RunAll(r, steps)) && Agree(RunAll(r, steps), HeardAll(h, r, steps))
    decreases |steps|
  {
    hide RouterOk, Tidy, Agree, Careful, After, HeardAfter;
    if steps != [] {
      CarefulKeeps(r, steps[0]);
      StepAgrees(r, h, steps[0]);
      RunAgrees(After(r, steps[0]), HeardAfter(h, r, steps[0]), steps[1..]);
    }
  }

  /** In every state that careful requests, ARP packets and expiries lead to, the
      hosts that have a flow are those heard of, the flow leads to the port and
      MAC of the last ARP, and each route leads where its gateway was heard. */
  lemma FlowsAsHeard(steps: seq<Step>)
    requires AllCareful(START, steps)
    ensures RouterOk(RunAll(START, steps)) && Agree(RunAll(START, steps), HeardAll(NOTHING, START, steps))
  {
    hide RouterOk;
    StartOk();
    StartAgrees();
    RunAgrees(START, NOTHING, steps);
  }

  lemma StartAgrees()
    ensures Agree(START, NOTHING)
  {
    hide RouterOk;
    StartOk();
    forall vid, ip ensures HostOk(START, NOTHING, vid, ip) {
      if HostKey(vid, ip) in START.flows { HostHasSubnet(START, vid, ip); }
    }
  }

  // ---------------------------------------------------------- fates of packets

  /** The address of a router that sees the VLAN's packets. */
  predicate RoutersOwn(r: Router, vid: Vid, ip: Ip) {
    exists w, p | w in r.vlans && p in r.vlans[w].addrs :: (w == vid || w == 0) && r.vlans[w].addrs[p].gw == ip
  }

  ghost predicate Neighbours(r: Router, vid: Vid, src: Ip, dst: Ip) {
    vid in r.vlans && exists p :: p in r.vlans[vid].addrs && Within(src, p) && Within(dst, p)
  }

  /** What a flow that matches a packet between two ends is there for, and its
      rank; none is for a router's own address. */
  ghost predicate Ranked(r: Router, vid: Vid, src: Ip, dst: Ip, fk: FlowKey) {
    OriginOf(fk).Some? && KeyOf(OriginOf(fk).value) == fk &&
    match OriginOf(fk).value
    case Learn(w, p) => w in r.vlans && p in r.vlans[w].addrs && Within(dst, p)
    case Switch(w, p) => w in r.vlans && p in r.vlans[w].addrs && Within(src, p) && Within(dst, p)
    case Host(w, ip) => ip == dst
    case Static(w, p) => w in r.vlans && p in r.vlans[w].routes && r.vlans[w].routes[p].isStatic && Within(dst, p) && p.mask <= 32
    case Default(w) => true
    case _ => false
  }

  lemma RankOf(r: Router, vid: Vid, src: Ip, dst: Ip, fk: FlowKey)
    requires RouterOk(r) && vid in r.vlans && !RoutersOwn(r, vid, dst)
    requires fk in r.flows && HitFrom(fk.pattern, vid, src, dst)
    ensures Ranked(r, vid, src, dst, fk)
    ensures VidOf(OriginOf(fk).value) == vid || (VidOf(OriginOf(fk).value) == 0 && fk.priority <= 36)
  {
    hide RouteCookie, AddressCookie, VlanCookie, ApplyMask, OriginOf, VlanOk, PrefixOf, Overlap;
    assert KeyOk(r, fk);
    OriginsKey(fk);
    GoodRouter(r);
    var o := OriginOf(fk).value;
    match o
    case Handle(w, gw) => HostPrefix(dst, gw);
    case Host(w, ip) => HostPrefix(dst, ip);
    case _ =>
  }

  /** A packet for a host that the switch knows is taken by the host's flow
      exactly if it comes from outside the host's subnet and the host's address
      is no router's; it leaves where the host was last heard, to its MAC. */
  lemma HostForwarded(r: Router, h: Heard, vid: Vid, src: Ip, dst: Ip)
    requires RouterOk(r) && Agree(r, h) && (vid, dst) in h.hosts
    ensures Takes(r.flows, vid, src, dst, HostKey(vid, dst)) <==> !Neighbours(r, vid, src, dst) && !RoutersOwn(r, vid, dst)
    ensures HostKey(vid, dst) in r.flows
    ensures r.flows[HostKey(vid, dst)].action == Forward(h.hosts[(vid, dst)].port, h.hosts[(vid, dst)].mac)
  {
    hide RouterOk, RoutesOk, RoutersOwn, Neighbours, HitFrom, OriginOf, HostKey, InSubnet;
    var best := HostKey(vid, dst);
    assert HostOk(r, h, vid, dst);
    HostHasSubnet(r, vid, dst);
    InSubnetIs(r, vid, dst);
    HostHits(vid, src, dst);
    if RoutersOwn(r, vid, dst) {
      OwnOutranks(r, vid, src, dst);
    } else if Neighbours(r, vid, src, dst) {
      SwitchOutranks(r, vid, src, dst);
    } else {
      forall other | other in r.flows && HitFrom(other.pattern, vid, src, dst) && other != best
        ensures other.priority < best.priority
      {
        BelowHost(r, vid, src, dst, other);
      }
    }
  }

  lemma HostHits(vid: Vid, src: Ip, dst: Ip)
    ensures HitFrom(HostKey(vid, dst).pattern, vid, src, dst)
  {
    FullMask(dst);
  }

  lemma OwnOutranks(r: Router, vid: Vid, src: Ip, dst: Ip)
    requires RouterOk(r) && RoutersOwn(r, vid, dst)
    ensures exists fk :: fk in r.flows && HitFrom(fk.pattern, vid, src, dst) && r.flows[fk].action == PacketIn
                         && fk.priority == 1037 > HostKey(vid, dst).priority
  {
    hide VlanOk, OriginOf, AddressCookie;
    var w, p :| (w == vid || w == 0) && w in r.vlans && p in r.vlans[w].addrs && r.vlans[w].addrs[p].gw == dst;
    OneOriginPerKey(Handle(w, dst), HandleKey(w, dst));
    assert KeyOk(r, HandleKey(w, dst));
    FullMask(dst);
    assert HitFrom(HandleKey(w, dst).pattern, vid, src, dst);
  }

  lemma SwitchThere(r: Router, vid: Vid, src: Ip, dst: Ip, s: Prefix)
    requires RouterOk(r) && vid in r.vlans && s in r.vlans[vid].addrs && Within(src, s) && Within(dst, s)
    ensures SwitchKey(vid, s) in r.flows && HitFrom(SwitchKey(vid, s).pattern, vid, src, dst)
    ensures r.flows[SwitchKey(vid, s)].action == Normal && SwitchKey(vid, s).priority == HostKey(vid, dst).priority + 1
  {
    hide OriginOf, AddressCookie, Within, PrefixOf, Overlap;
    assert AddressOk(r.vlans[vid], s);
    OneOriginPerKey(Switch(vid, s), SwitchKey(vid, s));
    assert KeyOk(r, SwitchKey(vid, s));
  }

  lemma SwitchOutranks(r: Router, vid: Vid, src: Ip, dst: Ip)
    requires RouterOk(r) && Neighbours(r, vid, src, dst)
    ensures exists fk :: fk in r.flows && HitFrom(fk.pattern, vid, src, dst) && fk.priority > HostKey(vid, dst).priority
  {
    hide RouterOk, HitFrom, HostKey;
    var s :| s in r.vlans[vid].addrs && Within(src, s) && Within(dst, s);
    SwitchThere(r, vid, src, dst, s);
  }

  lemma BelowHost(r: Router, vid: Vid, src: Ip, dst: Ip, other: FlowKey)
    requires RouterOk(r) && vid in r.vlans && !RoutersOwn(r, vid, dst) && !Neighbours(r, vid, src, dst)
    requires other in r.flows && HitFrom(other.pattern, vid, src, dst) && other != HostKey(vid, dst)
    ensures other.priority < HostKey(vid, dst).priority
  {
    hide RouterOk, OriginOf, Within, RoutersOwn, HitFrom;
    RankOf(r, vid, src, dst, other);
  }

  /** A packet between two ends of one subnet is switched, exactly if it is not
      for a router's own address. */
  lemma NeighboursSwitched(r: Router, vid: Vid, src: Ip, dst: Ip, s: Prefix)
    requires RouterOk(r) && vid in r.vlans && s in r.vlans[vid].addrs && Within(src, s) && Within(dst, s)
    ensures Takes(r.flows, vid, src, dst, SwitchKey(vid, s)) <==> !RoutersOwn(r, vid, dst)
    ensures SwitchKey(vid, s) in r.flows && r.flows[SwitchKey(vid, s)].action == Normal
  {
    hide RouterOk, RoutersOwn, Within, HitFrom, OriginOf, VlanOk;
    var best := SwitchKey(vid, s);
    SwitchThere(r, vid, src, dst, s);
    GoodRouter(r);
    if RoutersOwn(r, vid, dst) {
      OwnOutranks(r, vid, src, dst);
    } else {
      forall other | other in r.flows && HitFrom(other.pattern, vid, src, dst) && other != best
        ensures other.priority < best.priority
      {
        RankOf(r, vid, src, dst, other);
        var o := OriginOf(other).value;
        if o.Switch? && o.vid == vid { OneSubnet(r, vid, dst, o.p, s); }
      }
    }
  }

  /** A packet for a router's own address goes to the controller. */
  lemma OwnHandled(r: Router, vid: Vid, src: Ip, dst: Ip, fk: FlowKey)
    requires RouterOk(r) && vid in r.vlans && RoutersOwn(r, vid, dst) && fk in r.flows && HitFrom(fk.pattern, vid, src, dst)
    requires forall other | other in r.flows && HitFrom(other.pattern, vid, src, dst) :: other.priority <= fk.priority
    ensures r.flows[fk].action == PacketIn
  {
    hide RouteCookie, AddressCookie, VlanCookie, ApplyMask, VlanOk, PrefixOf, Overlap, RoutersOwn;
    OwnOutranks(r, vid, src, dst);
    assert KeyOk(r, fk);
    OriginsKey(fk);
    GoodRouter(r);
  }

  /** A packet for no router's address, no host the switch knows and no host of
      the sender's subnet is taken by the flow of the route that a lookup picks,
      unless a subnet is around it that only a route to everywhere competes with:
      it goes to the gateway as heard, to the controller while the gateway's MAC
      is not known, and nowhere if no route is picked. */
  lemma RoutedAsHeard(r: Router, h: Heard, vid: Vid, src: Ip, dst: Ip, found: Option<Prefix>)
    requires RouterOk(r) && Agree(r, h) && vid in r.vlans && Picks(r.vlans[vid].routes, dst, found)
    requires !RoutersOwn(r, vid, dst) && !Neighbours(r, vid, src, dst) && (vid, dst) !in h.hosts
    requires InSubnet(r, vid, dst) ==> found.Some? && found.value.mask > 0
    ensures Takes(r.flows, vid, src, dst, RouteFlowKey(r.vlans[vid], vid, found))
    ensures r.flows[RouteFlowKey(r.vlans[vid], vid, found)].action == RouteAction(h, vid, found)
  {
    hide RouterOk, RoutersOwn, Neighbours, OriginOf, HostKey, InSubnet, RouteRow, RouteKey, DefaultKey, Within;
    var best := RouteFlowKey(r.vlans[vid], vid, found);
    BestIsThere(r, vid, dst, found);
    if found.Some? { assert RouteAsHeard(r, h, vid, found.value); }
    assert HostOk(r, h, vid, dst);
    forall other | other in r.flows && HitFrom(other.pattern, vid, src, dst) && other != best
      ensures other.priority < best.priority
    {
      BelowRoute(r, vid, src, dst, found, other);
    }
  }

  lemma BelowRoute(r: Router, vid: Vid, src: Ip, dst: Ip, found: Option<Prefix>, other: FlowKey)
    requires RouterOk(r) && vid in r.vlans && Picks(r.vlans[vid].routes, dst, found)
    requires !RoutersOwn(r, vid, dst) && !Neighbours(r, vid, src, dst) && HostKey(vid, dst) !in r.flows
    requires InSubnet(r, vid, dst) ==> found.Some? && found.value.mask > 0
    requires other in r.flows && HitFrom(other.pattern, vid, src, dst) && other != RouteFlowKey(r.vlans[vid], vid, found)
    ensures other.priority < RouteFlowKey(r.vlans[vid], vid, found).priority
  {
    hide RouterOk, RoutersOwn, OriginOf, Within, HitFrom, Hit, IsRouting;
    RankOf(r, vid, src, dst, other);
    var o := OriginOf(other).value;
    if VidOf(o) == vid && (o.Static? || o.Default?) {
      RouteFlowsRoute(r, vid, src, dst, other);
      LowerInVlan(r, vid, dst, found, other);
    } else if o.Learn? && o.vid == vid {
      LearnIsLow(r, vid, found);
    }
  }

  lemma LearnIsLow(r: Router, vid: Vid, found: Option<Prefix>)
    requires RouterOk(r) && vid in r.vlans && found.Some? && found.value in r.vlans[vid].routes && found.value.mask > 0
    ensures RouteFlowKey(r.vlans[vid], vid, found).priority > GetPriority(PRIORITY_MAC_LEARNING, vid)
  {
    GoodRoute(r, vid, found.value);
  }

  lemma RouteFlowsRoute(r: Router, vid: Vid, src: Ip, dst: Ip, fk: FlowKey)
    requires RouterOk(r) && fk in r.flows && HitFrom(fk.pattern, vid, src, dst) && OriginOf(fk).Some?
    requires OriginOf(fk).value.Static? || OriginOf(fk).value.Default?
    ensures IsRouting(r.flows[fk]) && Hit(fk.pattern, vid, dst) && fk.pattern.vid == VidOf(OriginOf(fk).value)
  {
    hide RouteCookie, AddressCookie, VlanCookie, CookieVid, CookieRoute, CookieAddress, Within, OriginOf;
    CookieTells(r, fk);
    GoodRouter(r);
    assert KeyOk(r, fk);
    var o := OriginOf(fk).value;
    var p := if o.Static? then o.p else DEFAULT;
    if p in r.vlans[VidOf(o)].routes { GoodRoute(r, VidOf(o), p); assert RouteOk(r.vlans[VidOf(o)], p); }
  }

  function RouteAction(h: Heard, vid: Vid, found: Option<Prefix>): Action {
    if found == None then Drop
    else if (vid, found.value) in h.gateways then Forward(h.gateways[(vid, found.value)].port, h.gateways[(vid, found.value)].mac)
    else PacketIn
  }
}
