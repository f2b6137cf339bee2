/** Every request and ARP packet keeps addresses, routes and flows together. */
module RouterSteps {
  import opened Wrappers
  import opened Prefixes
  import opened RouterFlows
  import opened RouterState

  // ------------------------------------------------------------------ frames

  function VidOf(o: Origin): Vid {
    match o case Arp => 0 case L2 => 0 case _ => o.vid
  }

  /** A key is fine if neither its flow nor its VLAN's data changed. */
  lemma KeyFrame(r: Router, r': Router, fk: FlowKey)
    requires KeyOk(r, fk)
    requires fk in r.flows <==> fk in r'.flows
    requires fk in r.flows ==> r'.flows[fk] == r.flows[fk]
    requires OriginOf(fk).Some? ==>
               var vid := VidOf(OriginOf(fk).value);
               OriginOf(fk).value.Arp? || OriginOf(fk).value.L2?
               || ((vid in r.vlans <==> vid in r'.vlans) && (vid in r.vlans ==> r'.vlans[vid] == r.vlans[vid]))
    ensures KeyOk(r', fk)
  {
    hide OriginOf, RouteCookie, AddressCookie, Within;
  }

  lemma EnsureVlanOk(r: Router, vid: Vid)
    requires RouterOk(r) && ValidVid(vid)
    ensures RouterOk(EnsureVlan(r, vid))
  {
    hide RouterOk, KeyOk, VlanOk;
    GoodRouter(r);
    var r' := EnsureVlan(r, vid);
    if vid !in r.vlans {
      forall fk ensures KeyOk(r', fk) { EnsureVlanKey(r, vid, fk); }
      FreshOk();
      IsGoodRouter(r');
    }
  }

  lemma FreshOk()
    ensures VlanOk(FRESH)
  {
  }

  lemma EnsureVlanKey(r: Router, vid: Vid, fk: FlowKey)
    requires KeyOk(r, fk) && vid !in r.vlans
    ensures KeyOk(EnsureVlan(r, vid), fk)
  {
    hide RouteCookie, AddressCookie, Within, OriginOf, VlanCookie, DefaultKey;
    OneOriginPerKey(Default(vid), fk);
    var o := OriginOf(fk);
    if o == None || VidOf(o.value) != vid || o.value.Arp? || o.value.L2? { KeyFrame(r, EnsureVlan(r, vid), fk); }
  }

  lemma CookieVidOfFlow(r: Router, fk: FlowKey)
    requires RouterOk(r) && fk in r.flows
    ensures OriginOf(fk).Some? && CookieVid(r.flows[fk].cookie) == VidOf(OriginOf(fk).value)
  {
    hide RouteCookie, AddressCookie, VlanCookie, CookieVid, CookieRoute, CookieAddress, Within, OriginOf, KeyOk, VlanOk;
    CookieTells(r, fk);
  }

  lemma CleanupOk(r: Router, vid: Vid)
    requires RouterOk(r)
    ensures RouterOk(Cleanup(r, vid))
  {
    hide RouteCookie, AddressCookie, Within, OriginOf, CookieVid, RowOk;
    var r' := Cleanup(r, vid);
    forall fk ensures KeyOk(r', fk) {
      assert KeyOk(r, fk);
      if fk in r.flows { CookieVidOfFlow(r, fk); }
      if vid in r.vlans && vid !in r'.vlans {
        var o := OriginOf(fk);
        if o == None || VidOf(o.value) != vid { KeyFrame(r, r', fk); }
      }
    }
  }

  // --------------------------------------------------------------- addresses

  lemma NewSubnetApart(v: Vlan, gw: Ip, mask: nat, q: Prefix)
    requires VlanOk(v) && Legal(mask) && !Overlaps(v.addrs, gw, mask) && q in v.addrs
    ensures !Overlap(PrefixOf(gw, mask), q) && PrefixOf(gw, mask) != q && v.addrs[q].gw != gw
  {
    hide ApplyMask, RouteOk;
    assert AddressOk(v, q);
    GatewaysTellOverlap(gw, mask, v.addrs[q].gw, q.mask);
    PrefixHoldsItsSource(gw, mask);
    PrefixHoldsItsSource(v.addrs[q].gw, q.mask);
  }

  lemma AddAddressData(v: Vlan, gw: Ip, mask: nat)
    requires VlanOk(v) && 1 <= mask <= 32 && !Overlaps(v.addrs, gw, mask) && v.nextAddr <= UINT16_MAX
    ensures VlanOk(v.(addrs := v.addrs[PrefixOf(gw, mask) := Address(v.nextAddr, gw)], nextAddr := NextId(v.nextAddr)))
    ensures PrefixOf(gw, mask) !in v.addrs && NextId(v.nextAddr) == v.nextAddr + 1
  {
    hide ApplyMask, Within, Overlap, Overlaps, PrefixOf;
    var p := PrefixOf(gw, mask);
    var v' := v.(addrs := v.addrs[p := Address(v.nextAddr, gw)], nextAddr := NextId(v.nextAddr));
    forall q | q in v.addrs ensures q != p && !Overlap(p, q) && !Overlap(q, p) {
      NewSubnetApart(v, gw, mask, q);
      OverlapCommutes(p, q);
    }
    PrefixMask(gw, mask);
    forall q | q in v'.addrs ensures AddressOk(v', q) { assert q != p ==> AddressOk(v, q); }
    forall q | q in v'.routes ensures RouteOk(v', q) {
      assert RouteOk(v, q);
      var s :| s in v.addrs && Within(v.routes[q].gateway, s);
      assert s in v'.addrs;
    }
  }

  lemma PrefixMask(gw: Ip, mask: nat)
    requires Legal(mask)
    ensures PrefixOf(gw, mask).mask == mask
  {
  }

  lemma OverlapCommutes(p: Prefix, q: Prefix)
    ensures Overlap(p, q) <==> Overlap(q, p)
  {
    hide ApplyMask, Within;
  }

  // ------------------------------------------- address data on its own, unbounded

  /** AddressData: the subnets by prefix, and the id dealt next, which wraps
      around at 32 bits. */
  datatype AddressTable = AddressTable(addrs: Addresses, nextId: nat)

  /** A legal subnet, or an id to delete; `at` says which entry goes if ids that
      wrapped around are there more than once. */
  datatype AddressCall = AddSubnet(gw: Ip, mask: nat) | DropSubnet(id: nat, at: Prefix)

  function AddressesAfter(t: AddressTable, call: AddressCall): AddressTable {
    match call
    case AddSubnet(gw, mask) =>
      if !Legal(mask) || Overlaps(t.addrs, gw, mask) then t
      else AddressTable(t.addrs[PrefixOf(gw, mask) := Address(t.nextId, gw)], NextId(t.nextId))
    case DropSubnet(id, at) =>
      if at in t.addrs && t.addrs[at].id == id then t.(addrs := t.addrs - {at}) else t
  }

  function AddressesAfterAll(t: AddressTable, calls: seq<AddressCall>): AddressTable
    decreases |calls|
  {
    if calls == [] then t else AddressesAfterAll(AddressesAfter(t, calls[0]), calls[1..])
  }

  /** Each subnet is its gateway's, and no two overlap. */
  ghost predicate Apart(addrs: Addresses) {
    && (forall p | p in addrs :: Legal(p.mask) && p == PrefixOf(addrs[p].gw, p.mask))
    && (forall p, q | p in addrs && q in addrs && p != q :: !Overlap(p, q))
  }

  lemma AddKeepsApart(addrs: Addresses, gw: Ip, mask: nat, id: nat)
    requires Apart(addrs) && Legal(mask) && !Overlaps(addrs, gw, mask)
    ensures Apart(addrs[PrefixOf(gw, mask) := Address(id, gw)])
  {
    hide ApplyMask, Overlap, Overlaps, PrefixOf;
    var p := PrefixOf(gw, mask);
    PrefixMask(gw, mask);
    forall q | q in addrs ensures !Overlap(p, q) && !Overlap(q, p) {
      NoOverlapFound(addrs, gw, mask, q);
      OverlapCommutes(p, q);
    }
  }

  lemma NoOverlapFound(addrs: Addresses, gw: Ip, mask: nat, q: Prefix)
    requires Apart(addrs) && Legal(mask) && !Overlaps(addrs, gw, mask) && q in addrs
    ensures !Overlap(PrefixOf(gw, mask), q)
  {
    hide ApplyMask, Overlap;
    GatewaysTellOverlap(gw, mask, addrs[q].gw, q.mask);
  }

  lemma {:induction false} CallsKeepApart(t: AddressTable, calls: seq<AddressCall>)
    requires Apart(t.addrs)
    ensures Apart(AddressesAfterAll(t, calls).addrs)
    decreases |calls|
  {
    hide Overlaps, PrefixOf, Overlap;
    if calls != [] {
      match calls[0] {
        case AddSubnet(gw, mask) =>
          if Legal(mask) && !Overlaps(t.addrs, gw, mask) { AddKeepsApart(t.addrs, gw, mask, t.nextId); }
        case DropSubnet(_, _) =>
      }
      CallsKeepApart(AddressesAfter(t, calls[0]), calls[1..]);
    }
  }

  /** Over every run of additions and deletions, from the empty table, with any
      mask and any number of ids: subnets never overlap, so an address lies in
      at most one of them. */
  lemma SubnetsStayApart(calls: seq<AddressCall>, p: Prefix, q: Prefix, ip: Ip)
    requires var addrs := AddressesAfterAll(AddressTable(map[], 1), calls).addrs; p in addrs && q in addrs
    requires Within(ip, p) && Within(ip, q)
    ensures p == q
  {
    hide ApplyMask, AddressesAfterAll, Within;
    CallsKeepApart(AddressTable(map[], 1), calls);
  }

  lemma AddAddressOk(r: Router, vid: Vid, gw: Ip, mask: nat)
    requires RouterOk(r) && vid in r.vlans && 1 <= mask <= 32
    requires !Overlaps(r.vlans[vid].addrs, gw, mask) && r.vlans[vid].nextAddr <= UINT16_MAX
    ensures RouterOk(AddAddress(r, vid, gw, mask))
  {
    hide RouterOk, VlanOk, Overlaps, PrefixOf, OriginOf, KeyOk;
    GoodRouter(r);
    AddAddressData(r.vlans[vid], gw, mask);
    var r' := AddAddress(r, vid, gw, mask);
    forall fk ensures KeyOk(r', fk) { AddAddressKey(r, vid, gw, mask, fk); }
    IsGoodRouter(r');
  }

  lemma GoodRouter(r: Router)
    requires RouterOk(r)
    ensures 0 in r.vlans && forall vid | vid in r.vlans :: ValidVid(vid) && VlanOk(r.vlans[vid])
    ensures forall fk :: KeyOk(r, fk)
  {
    hide VlanOk, KeyOk;
  }

  lemma IsGoodRouter(r: Router)
    requires 0 in r.vlans && forall vid | vid in r.vlans :: ValidVid(vid) && VlanOk(r.vlans[vid])
    requires forall fk :: KeyOk(r, fk)
    ensures RouterOk(r)
  {
    hide VlanOk, KeyOk;
  }

  lemma AddAddressKey(r: Router, vid: Vid, gw: Ip, mask: nat, fk: FlowKey)
    requires RouterOk(r) && vid in r.vlans && 1 <= mask <= 32
    requires !Overlaps(r.vlans[vid].addrs, gw, mask) && r.vlans[vid].nextAddr <= UINT16_MAX
    ensures KeyOk(AddAddress(r, vid, gw, mask), fk)
  {
    hide VlanOk, Overlaps, PrefixOf, OriginOf, RouteCookie, AddressCookie, Within, LearnKey, HandleKey, SwitchKey, NextId;
    var r', p, v := AddAddress(r, vid, gw, mask), PrefixOf(gw, mask), r.vlans[vid];
    AddAddressData(v, gw, mask);
    PrefixMask(gw, mask);
    OneOriginPerKey(Learn(vid, p), fk);
    OneOriginPerKey(Handle(vid, gw), fk);
    OneOriginPerKey(Switch(vid, p), fk);
    assert KeyOk(r, fk);
    var o := OriginOf(fk);
    if o == Some(Learn(vid, p)) || o == Some(Switch(vid, p)) || o == Some(Handle(vid, gw)) {
      assert r'.vlans[vid].addrs[p] == Address(v.nextAddr, gw);
    } else if o == None || VidOf(o.value) != vid || o.value.Arp? || o.value.L2? {
      KeyFrame(r, r', fk);
    } else {
      AddressesKept(r, r', o.value, fk);
    }
  }

  /** More addresses, same routes: flows of other origins stay as good. */
  lemma AddressesKept(r: Router, r': Router, o: Origin, fk: FlowKey)
    requires KeyOk(r, fk) && OriginOf(fk) == Some(o) && !o.Arp? && !o.L2? && o.vid in r.vlans && o.vid in r'.vlans
    requires fk in r.flows <==> fk in r'.flows
    requires fk in r.flows ==> r'.flows[fk] == r.flows[fk]
    requires r'.vlans[o.vid].routes == r.vlans[o.vid].routes
    requires forall p | p in r.vlans[o.vid].addrs :: p in r'.vlans[o.vid].addrs && r'.vlans[o.vid].addrs[p] == r.vlans[o.vid].addrs[p]
    requires forall p | p in r'.vlans[o.vid].addrs && p !in r.vlans[o.vid].addrs ::
               o != Learn(o.vid, p) && o != Switch(o.vid, p) && o != Handle(o.vid, r'.vlans[o.vid].addrs[p].gw)
    ensures KeyOk(r', fk)
  {
    hide OriginOf, RouteCookie, AddressCookie, Within;
  }

  lemma SetAddressOk(r: Router, vid: Vid, gw: Ip, mask: int)
    requires RouterOk(r) && mask != 0 && (vid in r.vlans ==> r.vlans[vid].nextAddr <= UINT16_MAX)
    ensures RouterOk(SetAddress(r, vid, gw, mask).0)
  {
    hide RouterOk, Overlaps, AddAddress, Cleanup;
    if ValidVid(vid) {
      EnsureVlanOk(r, vid);
      CleanupOk(EnsureVlan(r, vid), vid);
      if Legal(mask) && !Overlaps(EnsureVlan(r, vid).vlans[vid].addrs, gw, mask) {
        AddAddressOk(EnsureVlan(r, vid), vid, gw, mask);
      }
    }
  }

  // ------------------------------------------------------------------ routes

  /** A static destination of mask length 0 may not displace the default route. */
  predicate Displaces(v: Vlan, dest: Dest) {
    dest.Network? && dest.mask == 0 && DefaultSet(v)
  }

  lemma AddRouteData(v: Vlan, dest: Dest, gateway: Ip)
    requires VlanOk(v) && (dest.Network? ==> Legal(dest.mask)) && v.nextRoute <= UINT16_MAX
    requires exists q :: q in v.addrs && Within(gateway, q)
    ensures VlanOk(v.(routes := v.routes[DestPrefix(dest) := Route(v.nextRoute, dest.Network?, gateway, None)],
                      nextRoute := NextId(v.nextRoute)))
    ensures NextId(v.nextRoute) == v.nextRoute + 1
  {
    hide ApplyMask, Within, Overlap, DestPrefix;
    var p := DestPrefix(dest);
    var v' := v.(routes := v.routes[p := Route(v.nextRoute, dest.Network?, gateway, None)], nextRoute := NextId(v.nextRoute));
    DestCanonical(dest);
    forall q | q in v'.addrs ensures AddressOk(v', q) { assert AddressOk(v, q); }
    forall q | q in v'.routes ensures RouteOk(v', q) { assert q != p ==> RouteOk(v, q); }
    forall q | q in v.routes ensures v.routes[q].id < v.nextRoute { assert RouteOk(v, q); }
  }

  lemma DestCanonical(dest: Dest)
    requires dest.Network? ==> Legal(dest.mask)
    ensures var p := DestPrefix(dest); Legal(p.mask) && PrefixOf(p.nw, p.mask) == p
    ensures dest.DefaultRoute? ==> DestPrefix(dest) == DEFAULT
    ensures dest.Network? ==> DestPrefix(dest).mask == dest.mask
    ensures dest.Network? && dest.mask == 0 ==> DestPrefix(dest) == DEFAULT
  {
    if dest.Network? { CanonicalPrefix(dest.ip, dest.mask); } else { CanonicalPrefix(0, 0); }
  }

  lemma CanonicalPrefix(ip: Ip, mask: nat)
    requires Legal(mask)
    ensures PrefixOf(ApplyMask(ip, mask), mask) == PrefixOf(ip, mask)
    ensures mask == 0 ==> ApplyMask(ip, mask) == 0
  {
    NestedMask(ip, mask, mask);
  }

  lemma AddRouteKey(r: Router, vid: Vid, dest: Dest, gateway: Ip, fk: FlowKey)
    requires RouterOk(r) && vid in r.vlans && (dest.Network? ==> Legal(dest.mask)) && !Displaces(r.vlans[vid], dest)
    requires !Taken(r.vlans[vid].routes, dest)
    ensures KeyOk(AddRoute(r, vid, dest, gateway), fk)
  {
    hide VlanOk, PrefixOf, OriginOf, RouteCookie, AddressCookie, Within, RouteKey, DefaultKey, NextId, DestPrefix;
    var r', p, v := AddRoute(r, vid, dest, gateway), DestPrefix(dest), r.vlans[vid];
    DestCanonical(dest);
    var mine := if dest.Network? then Static(vid, p) else Default(vid);
    DefaultKeyIsRouteKey(vid);
    OneOriginPerKey(mine, fk);
    OneOriginPerKey(mine, KeyOf(mine));
    assert KeyOk(r, fk);
    var o := OriginOf(fk);
    if o == None || VidOf(o.value) != vid || o.value.Arp? || o.value.L2? {
      KeyFrame(r, r', fk);
    } else if o == Some(mine) {
      assert r'.vlans[vid].routes[p] == Route(v.nextRoute, dest.Network?, gateway, None);
    } else {
      if o.value.Static? && o.value.p == p { assert dest.DefaultRoute? && p !in v.routes; }
      if o.value.Default? && p == DEFAULT { DestZero(dest); }
      RoutesKept(r, r', o.value, fk);
    }
  }

  /** Same addresses, and the origin's own route, if it had one, is as before. */
  lemma RoutesKept(r: Router, r': Router, o: Origin, fk: FlowKey)
    requires KeyOk(r, fk) && OriginOf(fk) == Some(o) && !o.Arp? && !o.L2? && o.vid in r.vlans && o.vid in r'.vlans
    requires fk in r.flows <==> fk in r'.flows
    requires fk in r.flows ==> r'.flows[fk] == r.flows[fk]
    requires r'.vlans[o.vid].addrs == r.vlans[o.vid].addrs
    requires o.Default? ==> (DefaultSet(r'.vlans[o.vid]) <==> DefaultSet(r.vlans[o.vid]))
                            && (DefaultSet(r.vlans[o.vid]) ==> r'.vlans[o.vid].routes[DEFAULT] == r.vlans[o.vid].routes[DEFAULT])
    requires o.Static? ==> (Due(r', o) <==> Due(r, o))
                           && (Due(r, o) ==> r'.vlans[o.vid].routes[o.p] == r.vlans[o.vid].routes[o.p])
    ensures KeyOk(r', fk)
  {
    hide OriginOf, RouteCookie, AddressCookie, Within;
  }

  /** Only mask length 0 gives the prefix 0.0.0.0/0. */
  lemma DestZero(dest: Dest)
    requires dest.Network? && Legal(dest.mask) && DestPrefix(dest) == DEFAULT
    ensures dest.mask == 0
  {
    DestCanonical(dest);
  }

  lemma DefaultKeyIsRouteKey(vid: Vid)
    ensures RouteKey(vid, DEFAULT, false) == DefaultKey(vid)
  {
  }

  lemma AddRouteOk(r: Router, vid: Vid, dest: Dest, gateway: Ip)
    requires RouterOk(r) && vid in r.vlans && (dest.Network? ==> Legal(dest.mask)) && !Displaces(r.vlans[vid], dest)
    requires !Taken(r.vlans[vid].routes, dest) && r.vlans[vid].nextRoute <= UINT16_MAX
    requires exists q :: q in r.vlans[vid].addrs && Within(gateway, q)
    ensures RouterOk(AddRoute(r, vid, dest, gateway))
  {
    hide RouterOk, VlanOk, PrefixOf, OriginOf, KeyOk, Within, DestPrefix;
    GoodRouter(r);
    AddRouteData(r.vlans[vid], dest, gateway);
    var r' := AddRoute(r, vid, dest, gateway);
    forall fk ensures KeyOk(r', fk) { AddRouteKey(r, vid, dest, gateway, fk); }
    IsGoodRouter(r');
  }

  /** The gateway lies in a subnet and is not the router itself. */
  ghost predicate GatewayUsable(v: Vlan, gateway: Ip) {
    exists q :: q in v.addrs && Within(gateway, q) && v.addrs[q].gw != gateway
  }

  /** A request that passes every check and then takes the key of an existing
      default route. */
  ghost predicate ReplacesDefault(v: Vlan, dest: Dest, gateway: Ip) {
    GatewayUsable(v, gateway) && Displaces(v, dest) && !Taken(v.routes, dest)
  }

  /** Which requests are accepted; a router that is set up on the way has no
      subnets yet and accepts none. */
  lemma RouteAccepted(r: Router, vid: Vid, dest: Dest, gateway: Ip)
    requires RouterOk(r)
    ensures SetRoute(r, vid, dest, gateway).1 == None
            <==> && vid in r.vlans && GatewayUsable(r.vlans[vid], gateway)
                 && (dest.Network? ==> Legal(dest.mask)) && !Taken(r.vlans[vid].routes, dest)
    ensures SetRoute(r, vid, dest, gateway).1 == None && vid in r.vlans && Displaces(r.vlans[vid], dest)
            <==> vid in r.vlans && ReplacesDefault(r.vlans[vid], dest, gateway)
  {
    hide AddRoute, Cleanup, Within, VlanOk, KeyOk, Taken;
    if vid in r.vlans {
      var v := r.vlans[vid];
      if SubnetOf(v.addrs, gateway) == None {
        forall q | q in v.addrs ensures !Within(gateway, q) {}
      } else {
        var p := SubnetOf(v.addrs, gateway).value;
        forall q | q in v.addrs && Within(gateway, q) ensures q == p { SubnetUnique(v, gateway, q); }
      }
    }
  }

  /** Setting a route keeps table and flows together, exactly unless it is a
      destination of mask length 0 that takes the default route's key: then the
      default route's flow stays behind. */
  lemma SetRouteExactly(r: Router, vid: Vid, dest: Dest, gateway: Ip)
    requires RouterOk(r) && (vid in r.vlans ==> r.vlans[vid].nextRoute <= UINT16_MAX)
    ensures RouterOk(SetRoute(r, vid, dest, gateway).0)
            <==> !(vid in r.vlans && ReplacesDefault(r.vlans[vid], dest, gateway))
  {
    hide RouterOk, AddRoute, Cleanup, Within, Taken, VlanOk, ReplacesDefault;
    RouteAccepted(r, vid, dest, gateway);
    if ValidVid(vid) {
      var r1 := EnsureVlan(r, vid);
      EnsureVlanOk(r, vid);
      CleanupOk(r1, vid);
      var result := SetRoute(r, vid, dest, gateway);
      if result.1 == None {
        if vid !in r.vlans { NothingDisplaced(r, vid, dest); }
        if Displaces(r1.vlans[vid], dest) {
          DisplacedLeavesFlow(r1, vid, dest, gateway);
        } else {
          var q := SubnetOf(r1.vlans[vid].addrs, gateway).value;
          assert q in r1.vlans[vid].addrs && Within(gateway, q);
          AddRouteOk(r1, vid, dest, gateway);
        }
      }
    }
  }

  lemma NothingDisplaced(r: Router, vid: Vid, dest: Dest)
    requires vid !in r.vlans
    ensures !Displaces(EnsureVlan(r, vid).vlans[vid], dest)
  {
  }

  lemma DisplacedLeavesFlow(r: Router, vid: Vid, dest: Dest, gateway: Ip)
    requires RouterOk(r) && vid in r.vlans && dest.Network? && Legal(dest.mask) && Displaces(r.vlans[vid], dest)
    ensures !RouterOk(AddRoute(r, vid, dest, gateway))
  {
    hide VlanOk, OriginOf, RouteKey, NextId, RouteCookie, VlanCookie, Within;
    var r', fk := AddRoute(r, vid, dest, gateway), DefaultKey(vid);
    DestCanonical(dest);
    OneOriginPerKey(Default(vid), fk);
    OneOriginPerKey(Static(vid, DEFAULT), fk);
    assert KeyOk(r, fk);
    assert r'.flows[fk] == r.flows[fk] && r'.flows[fk].action != Drop;
    assert !KeyOk(r', fk);
  }
}
