/** The objects of app/rest_router.py: address data, routing table and the
    VLAN's router, whose methods change them and the switch's flows. */
module VlanRouters {
  import opened Wrappers
  import opened Prefixes
  import opened RouterFlows
  import opened RouterState
  import opened RouterSteps
  import opened RouterDeletion
  import opened RouterRuns

  class AddressData {
    var addrs: Addresses
    var nextAddr: nat

    constructor ()
      ensures addrs == map[] && nextAddr == 1
    {
      addrs, nextAddr := map[], 1;
    }

    /** AddressData.add: its overlap loop, then the new entry. */
    method Add(gw: Ip, mask: int) returns (res: Result<nat, Failure>)
      modifies this
      ensures !Legal(mask) ==> res == Err(ValueError)
      ensures Legal(mask) && Overlaps(old(addrs), gw, mask) ==> res == Err(CommandFailure)
      ensures res.Err? ==> addrs == old(addrs) && nextAddr == old(nextAddr)
      ensures Legal(mask) && !Overlaps(old(addrs), gw, mask) ==>
                && res == Ok(old(nextAddr)) && nextAddr == NextId(old(nextAddr))
                && addrs == old(addrs)[PrefixOf(gw, mask) := Address(old(nextAddr), gw)]
    {
      hide GatewayInside;
      if !Legal(mask) { return Err(ValueError); }
      var p, todo := PrefixOf(gw, mask), addrs.Keys;
      while todo != {}
        invariant todo <= addrs.Keys
        invariant forall q | q in addrs && q !in todo && Legal(q.mask) :: !GatewayInside(gw, p, addrs[q].gw, q)
        decreases todo
      {
        var q :| q in todo;
        todo := todo - {q};
        if Legal(q.mask) && GatewayInside(gw, p, addrs[q].gw, q) { return Err(CommandFailure); }
      }
      res := Ok(nextAddr);
      addrs := addrs[p := Address(nextAddr, gw)];
      nextAddr := NextId(nextAddr);
    }

    /** AddressData.delete: the first entry with the id. */
    method Delete(id: int)
      modifies this
      ensures nextAddr == old(nextAddr)
      ensures (forall p, q | p in old(addrs) && q in old(addrs) && p != q :: old(addrs)[p].id != old(addrs)[q].id) ==>
                addrs == map p | p in old(addrs) && old(addrs)[p].id != id :: old(addrs)[p]
      ensures if forall p | p in old(addrs) :: old(addrs)[p].id != id then addrs == old(addrs)
              else exists p | p in old(addrs) :: old(addrs)[p].id == id && addrs == old(addrs) - {p}
    {
      var todo := addrs.Keys;
      while todo != {}
        invariant addrs == old(addrs) && todo <= addrs.Keys && forall p | p in addrs && p !in todo :: addrs[p].id != id
        decreases todo
      {
        var p :| p in todo;
        todo := todo - {p};
        if addrs[p].id == id {
          addrs := addrs - {p};
          return;
        }
      }
    }

    /** AddressData.get_data by IP. */
    method GetData(ip: Ip) returns (found: Option<Prefix>)
      ensures found.Some? ==> found.value in addrs && Within(ip, found.value)
      ensures found == None ==> forall p | p in addrs :: !Within(ip, p)
    {
      hide Within;
      var todo := addrs.Keys;
      while todo != {}
        invariant todo <= addrs.Keys && forall p | p in addrs && p !in todo :: !Within(ip, p)
        decreases todo
      {
        var p :| p in todo;
        todo := todo - {p};
        if Within(ip, p) { return Some(p); }
      }
      return None;
    }
  }

  class RoutingTable {
    var routes: Routes
    var nextRoute: nat

    constructor ()
      ensures routes == map[] && nextRoute == 1
    {
      routes, nextRoute := map[], 1;
    }

    /** RoutingTable.add: the overlap check is on the text, the entry goes under
        the parsed key. */
    method Add(dest: Dest, gateway: Ip) returns (res: Result<Prefix, Failure>)
      modifies this
      ensures dest.Network? && !Legal(dest.mask) ==> res == Err(ValueError)
      ensures (dest.Network? ==> Legal(dest.mask)) ==>
                (res == if Taken(old(routes), dest) then Err(CommandFailure) else Ok(DestPrefix(dest)))
      ensures res.Err? ==> routes == old(routes) && nextRoute == old(nextRoute)
      ensures res.Ok? ==> nextRoute == NextId(old(nextRoute))
                          && routes == old(routes)[res.value := Route(old(nextRoute), dest.Network?, gateway, None)]
    {
      hide PrefixOf;
      if dest.Network? && !Legal(dest.mask) { return Err(ValueError); }
      var p := DestPrefix(dest);
      if p in routes && (dest.DefaultRoute? || dest.canonical) { return Err(CommandFailure); }
      routes := routes[p := Route(nextRoute, dest.Network?, gateway, None)];
      nextRoute := NextId(nextRoute);
      res := Ok(p);
    }

    /** RoutingTable.delete: the first entry with the id. */
    method Delete(id: int)
      modifies this
      ensures nextRoute == old(nextRoute)
      ensures (forall p, q | p in old(routes) && q in old(routes) && p != q :: old(routes)[p].id != old(routes)[q].id) ==>
                routes == map p | p in old(routes) && old(routes)[p].id != id :: old(routes)[p]
    {
      var todo := routes.Keys;
      while todo != {}
        invariant routes == old(routes) && todo <= routes.Keys && forall p | p in routes && p !in todo :: routes[p].id != id
        decreases todo
      {
        var p :| p in todo;
        todo := todo - {p};
        if routes[p].id == id {
          routes := routes - {p};
          return;
        }
      }
    }

    /** RoutingTable.get_data by destination: the longest match, whatever the
        order of the dictionary, else the entry of 0.0.0.0/0. */
    method GetData(ip: Ip) returns (found: Option<Prefix>)
      ensures Picks(routes, ip, found)
    {
      hide Within;
      var mask := 0;
      var todo := routes.Keys;
      found := None;
      while todo != {}
        invariant todo <= routes.Keys
        invariant forall q | q in routes && q !in todo && Within(ip, q) :: q.mask <= mask
        invariant found == None ==> mask == 0
        invariant found.Some? ==> found.value in routes && Within(ip, found.value) && found.value.mask == mask > 0
        decreases todo
      {
        var p :| p in todo;
        todo := todo - {p};
        if Within(ip, p) && mask < p.mask { found, mask := Some(p), p.mask; }
      }
      if found == None && DEFAULT in routes { found := Some(DEFAULT); }
    }
  }

  /** The entries of a statistics reply a filter keeps, in its order. */
  function Select(stats: seq<Stat>, filter: Filter): seq<Stat>
    decreases |stats|
  {
    if stats == [] then []
    else (if Keeps(filter, stats[0].cookie) then [stats[0]] else []) + Select(stats[1..], filter)
  }

  /** The reply tells of every flow in the table, in some order. */
  ghost predicate Complete(flows: Table, stats: seq<Stat>) {
    && (forall s | s in stats :: s.key in flows && flows[s.key].cookie == s.cookie)
    && (forall fk | fk in flows :: Stat(fk, flows[fk].cookie) in stats)
  }

  lemma {:induction false} SelectHas(stats: seq<Stat>, filter: Filter, s: Stat)
    ensures s in Select(stats, filter) <==> s in stats && Keeps(filter, s.cookie)
    decreases |stats|
  {
    hide Keeps;
    if stats != [] {
      assert stats == [stats[0]] + stats[1..];
      SelectHas(stats[1..], filter, s);
    }
  }

  lemma SelectLists(flows: Table, stats: seq<Stat>, filter: Filter)
    requires Complete(flows, stats)
    ensures Lists(flows, Select(stats, filter), filter)
  {
    hide Keeps;
    forall s ensures s in Select(stats, filter) <==> s in stats && Keeps(filter, s.cookie) { SelectHas(stats, filter, s); }
  }

  lemma {:induction false} SelectSplit(a: seq<Stat>, s: Stat, filter: Filter)
    ensures Select(a + [s], filter) == Select(a, filter) + (if Keeps(filter, s.cookie) then [s] else [])
    decreases |a|
  {
    hide Keeps;
    if a == [] {
      assert [] + [s] == [s] && [s][1..] == [];
    } else {
      assert (a + [s])[1..] == a[1..] + [s];
      SelectSplit(a[1..], s, filter);
    }
  }

  lemma {:induction false} DeleteListedSplit(flows: Table, vid: Vid, a: seq<Stat>, s: Stat, byCookie: bool, restore: bool)
    ensures DeleteListed(flows, vid, a + [s], byCookie, restore) ==
            DeleteOne(DeleteListed(flows, vid, a, byCookie, restore), vid, s, byCookie, restore)
    decreases |a|
  {
    hide DeleteFlow, DefaultKey, GetPriorityType;
    if a == [] {
      assert [] + [s] == [s] && [s][1..] == [];
      assert DeleteListed(DeleteOne(flows, vid, s, byCookie, restore), vid, [], byCookie, restore)
             == DeleteOne(flows, vid, s, byCookie, restore);
    } else {
      assert (a + [s])[0] == a[0] && (a + [s])[1..] == a[1..] + [s];
      DeleteListedSplit(DeleteOne(flows, vid, a[0], byCookie, restore), vid, a[1..], s, byCookie, restore);
    }
  }

  class VlanRouter {
    const vid: Vid
    const addressData: AddressData
    const routingTbl: RoutingTable
    var flows: Table  // of the whole switch

    ghost function Data(): Vlan
      reads this, addressData, routingTbl
    {
      Vlan(addressData.addrs, addressData.nextAddr, routingTbl.routes, routingTbl.nextRoute)
    }

    ghost function Whole(): Router
      reads this, addressData, routingTbl
    {
      Router(map[vid := Data()], flows)
    }

    constructor (vid: Vid, flows: Table)
      ensures this.vid == vid && fresh(addressData) && fresh(routingTbl)
      ensures Whole() == Router(map[vid := FRESH], flows[DefaultKey(vid) := DropFlow(vid)])
    {
      this.vid := vid;
      addressData := new AddressData();
      routingTbl := new RoutingTable();
      this.flows := flows[DefaultKey(vid) := DropFlow(vid)];
    }

    /** _set_address_data. */
    method SetAddressData(gw: Ip, mask: int) returns (res: Result<nat, Failure>)
      modifies this, addressData
      ensures !Legal(mask) ==> res == Err(ValueError)
      ensures Legal(mask) && Overlaps(old(addressData.addrs), gw, mask) ==> res == Err(CommandFailure)
      ensures res.Err? ==> Whole() == old(Whole())
      ensures Legal(mask) && !Overlaps(old(addressData.addrs), gw, mask) ==>
                res == Ok(old(addressData.nextAddr)) && Whole() == AddAddress(old(Whole()), vid, gw, mask)
    {
      hide Overlaps, PrefixOf, LearnKey, HandleKey, SwitchKey, NextId;
      res := addressData.Add(gw, mask);
      if res.Ok? {
        var p, c := PrefixOf(gw, mask), AddressCookie(vid, res.value);
        flows := flows[LearnKey(vid, p) := Flow(c, PacketIn)];
        flows := flows[HandleKey(vid, gw) := Flow(c, PacketIn)];
        flows := flows[SwitchKey(vid, p) := Flow(c, Normal)];
      }
    }

    /** _set_routing_data. */
    method SetRoutingData(dest: Dest, gateway: Ip) returns (res: Result<nat, Failure>)
      requires VlanOk(Data())
      modifies this, routingTbl
      ensures res.Err? ==> Whole() == old(Whole())
      ensures res.Ok? <==> var q := SubnetOf(addressData.addrs, gateway);
                           && q.Some? && addressData.addrs[q.value].gw != gateway
                           && (dest.Network? ==> Legal(dest.mask)) && !Taken(old(routingTbl.routes), dest)
      ensures res.Ok? ==> res.value == old(routingTbl.nextRoute) && Whole() == AddRoute(old(Whole()), vid, dest, gateway)
    {
      hide VlanOk, Within, DestPrefix, RouteKey, NextId;
      var q := addressData.GetData(gateway);
      if q == None { return Err(CommandFailure); }
      SubnetUnique(Data(), gateway, q.value);
      if gateway == addressData.addrs[q.value].gw { return Err(CommandFailure); }
      var id := routingTbl.nextRoute;
      var added := routingTbl.Add(dest, gateway);
      if added.Err? { return Err(added.error); }
      flows := flows[RouteKey(vid, added.value, dest.Network?) := Flow(RouteCookie(vid, id), PacketIn)];
      res := Ok(id);
    }

    /** The listing loop of both delete requests. */
    static method Listed(stats: seq<Stat>, filter: Filter) returns (listed: seq<Stat>)
      ensures listed == Select(stats, filter)
    {
      hide Keeps;
      listed := [];
      for i := 0 to |stats|
        invariant listed == Select(stats[..i], filter)
      {
        assert stats[..i + 1] == stats[..i] + [stats[i]];
        SelectSplit(stats[..i], stats[i], filter);
        if Keeps(filter, stats[i].cookie) { listed := listed + [stats[i]]; }
      }
      assert stats[..|stats|] == stats;
    }

    /** _delete_routing_data, given the statistics reply. */
    method DeleteRoutingData(which: Which, stats: seq<Stat>, byCookie: bool)
      requires VlanOk(Data())
      modifies this, routingTbl
      ensures Whole() == DeletedRoutes(old(Whole()), vid, Select(stats, RouteFlows(vid, which)), byCookie)
    {
      hide VlanOk, Keeps, DeleteFlow, DefaultKey, GetPriorityType, CookieRoute, Select;
      var listed := Listed(stats, RouteFlows(vid, which));
      RouteIdsDiffer(Data());
      assert WithoutRoutes(routingTbl.routes, {}) == routingTbl.routes;
      for i := 0 to |listed|
        invariant flows == DeleteListed(old(flows), vid, listed[..i], byCookie, true)
        invariant routingTbl.routes == WithoutRoutes(old(routingTbl.routes), ListedRoutes(listed[..i]))
        invariant routingTbl.nextRoute == old(routingTbl.nextRoute)
      {
        var s := listed[i];
        assert listed[..i + 1] == listed[..i] + [s];
        DeleteListedSplit(old(flows), vid, listed[..i], s, byCookie, true);
        flows := DeleteFlow(flows, s, byCookie);
        FewerRouteIds(old(routingTbl.routes), listed[..i], s);
        routingTbl.Delete(CookieRoute(s.cookie));
        if GetPriorityType(s.key.priority, vid) == PRIORITY_DEFAULT_ROUTING {
          flows := flows[DefaultKey(vid) := DropFlow(vid)];
        }
      }
      assert listed[..|listed|] == listed;
    }

    /** _chk_addr_relation_route. */
    method AddressesRelated(which: Which) returns (ids: set<nat>)
      requires VlanOk(Data())
      ensures ids == Related(Data(), which)
    {
      hide VlanOk, Within;
      var v, todo := routingTbl.routes, routingTbl.routes.Keys;
      ids := {};
      while todo != {}
        invariant todo <= v.Keys && ids == RelatedTo(Data(), which, v.Keys - todo)
        decreases todo
      {
        var q :| q in todo;
        assert v.Keys - (todo - {q}) == v.Keys - todo + {q};
        ghost var seen := v.Keys - todo;
        todo := todo - {q};
        var p := addressData.GetData(v[q].gateway);
        if p.Some? { OnlySubnet(Data(), v[q].gateway, p.value); }
        if p.Some? && (which == All || which == One(addressData.addrs[p.value].id)) {
          ids := ids + {addressData.addrs[p.value].id};
        }
        OneMoreRelated(Data(), which, seen, q, p);
      }
      assert v.Keys - {} == v.Keys;
      AllRelated(Data(), which);
    }

    /** _delete_address_data, given the statistics reply. */
    method DeleteAddressData(which: Which, stats: seq<Stat>, byCookie: bool)
      requires VlanOk(Data())
      modifies this, addressData
      ensures Whole() == DeletedAddresses(old(Whole()), vid, Select(stats, AddressFilter(old(Whole()), vid, which)), byCookie)
    {
      hide VlanOk, Keeps, DeleteFlow, CookieAddress, Related, Select;
      var skip := AddressesRelated(which);
      var listed := Listed(stats, AddressFlowsBut(vid, which, skip));
      AddressIdsDiffer(Data());
      assert WithoutAddresses(addressData.addrs, {}) == addressData.addrs;
      for i := 0 to |listed|
        invariant flows == DeleteListed(old(flows), vid, listed[..i], byCookie, false)
        invariant addressData.addrs == WithoutAddresses(old(addressData.addrs), ListedAddresses(listed[..i]))
        invariant addressData.nextAddr == old(addressData.nextAddr)
      {
        var s := listed[i];
        assert listed[..i + 1] == listed[..i] + [s];
        DeleteListedSplit(old(flows), vid, listed[..i], s, byCookie, false);
        flows := DeleteFlow(flows, s, byCookie);
        FewerAddressIds(old(addressData.addrs), listed[..i], s);
        addressData.Delete(CookieAddress(s.cookie));
      }
      assert listed[..|listed|] == listed;
    }

    /** _update_routing_tbl. */
    method UpdateRoutingTbl(ip: Ip, mac: Mac, port: nat) returns (isGateway: bool)
      requires VlanOk(Data())
      modifies this, routingTbl
      ensures isGateway == IsGateway(old(routingTbl.routes), ip)
      ensures routingTbl.routes == LearnRoutes(old(routingTbl.routes), ip, mac) && routingTbl.nextRoute == old(routingTbl.nextRoute)
      ensures flows == old(flows) + Relearned(vid, old(routingTbl.routes), ip, mac, port)
    {
      hide VlanOk, RouteKey, RouteCookie;
      ghost var was, table := routingTbl.routes, flows;
      ghost var v := Data();
      var todo := routingTbl.routes.Keys;
      isGateway := false;
      NothingRelearned(table, vid, was, ip, mac, port);
      while todo != {}
        invariant todo <= was.Keys == routingTbl.routes.Keys && routingTbl.nextRoute == old(routingTbl.nextRoute)
        invariant isGateway == exists p | p in was && p !in todo :: was[p].gateway == ip
        invariant forall p | p in was :: routingTbl.routes[p] == if p in todo then was[p] else LearnRoutes(was, ip, mac)[p]
        invariant flows == table + RelearnedOf(vid, was, ip, mac, port, was.Keys - todo)
        decreases todo
      {
        var p :| p in todo;
        ghost var seen := was.Keys - todo;
        assert was.Keys - (todo - {p}) == seen + {p};
        todo := todo - {p};
        OneMoreRelearned(table, v, vid, ip, mac, port, seen, p);
        var route := routingTbl.routes[p];
        if route.gateway == ip {
          isGateway := true;
          if route.mac != Some(mac) {
            routingTbl.routes := routingTbl.routes[p := route.(mac := Some(mac))];
            flows := flows[RouteKey(vid, p, route.isStatic) := Flow(RouteCookie(vid, route.id), Forward(port, mac))];
          } else {
            assert route.(mac := Some(mac)) == route;
          }
        }
      }
      assert was.Keys - {} == was.Keys;
      AllRelearned(v, vid, ip, mac, port);
    }

    /** _packetin_arp with _learning_host_mac. */
    method PacketinArp(ip: Ip, mac: Mac, port: nat)
      requires VlanOk(Data())
      modifies this, routingTbl
      ensures Whole() == ArpPacket(old(Whole()), vid, ip, mac, port)
    {
      hide VlanOk, Within, Relearned, LearnRoutes, HostKey, AddressCookie;
      var q := addressData.GetData(ip);
      if q == None { return; }
      SubnetUnique(Data(), ip, q.value);
      var isGateway := UpdateRoutingTbl(ip, mac, port);
      if !isGateway {
        NoGatewayNothing(vid, old(routingTbl.routes), ip, mac, port);
        flows := flows[HostKey(vid, ip) := Flow(AddressCookie(vid, addressData.addrs[q.value].id), Forward(port, mac))];
      }
    }
  }

  // ----------------------------------------------------- what the loops keep

  lemma RouteIdsDiffer(v: Vlan)
    requires VlanOk(v)
    ensures forall p, q | p in v.routes && q in v.routes && p != q :: v.routes[p].id != v.routes[q].id
  {
  }

  lemma AddressIdsDiffer(v: Vlan)
    requires VlanOk(v)
    ensures forall p, q | p in v.addrs && q in v.addrs && p != q :: v.addrs[p].id != v.addrs[q].id
  {
  }

  lemma FewerRouteIds(routes: Routes, listed: seq<Stat>, s: Stat)
    ensures WithoutRoutes(routes, ListedRoutes(listed + [s])) ==
            var rest := WithoutRoutes(routes, ListedRoutes(listed));
            map p | p in rest && rest[p].id != CookieRoute(s.cookie) :: rest[p]
  {
    hide CookieRoute;
    assert ListedRoutes(listed + [s]) == ListedRoutes(listed) + {CookieRoute(s.cookie)};
  }

  lemma FewerAddressIds(addrs: Addresses, listed: seq<Stat>, s: Stat)
    ensures WithoutAddresses(addrs, ListedAddresses(listed + [s])) ==
            var rest := WithoutAddresses(addrs, ListedAddresses(listed));
            map p | p in rest && rest[p].id != CookieAddress(s.cookie) :: rest[p]
  {
    hide CookieAddress;
    assert ListedAddresses(listed + [s]) == ListedAddresses(listed) + {CookieAddress(s.cookie)};
  }

  function RelatedTo(v: Vlan, which: Which, qs: set<Prefix>): set<nat> {
    set p, q | p in v.addrs && q in qs && q in v.routes && Within(v.routes[q].gateway, p)
               && (which == All || which == One(v.addrs[p].id)) :: v.addrs[p].id
  }

  lemma OnlySubnet(v: Vlan, ip: Ip, p: Prefix)
    requires VlanOk(v) && p in v.addrs && Within(ip, p)
    ensures forall q | q in v.addrs && Within(ip, q) :: q == p
  {
    hide Within;
    forall q | q in v.addrs && Within(ip, q) ensures q == p {
      SubnetUnique(v, ip, p);
      SubnetUnique(v, ip, q);
    }
  }

  lemma OneMoreRelated(v: Vlan, which: Which, qs: set<Prefix>, q: Prefix, found: Option<Prefix>)
    requires q in v.routes
    requires found.Some? ==> found.value in v.addrs && forall p | p in v.addrs :: Within(v.routes[q].gateway, p) <==> p == found.value
    requires found == None ==> forall p | p in v.addrs :: !Within(v.routes[q].gateway, p)
    ensures RelatedTo(v, which, qs + {q}) == RelatedTo(v, which, qs) +
              if found.Some? && (which == All || which == One(v.addrs[found.value].id)) then {v.addrs[found.value].id} else {}
  {
    hide Within;
  }

  lemma AllRelated(v: Vlan, which: Which)
    ensures RelatedTo(v, which, v.routes.Keys) == Related(v, which)
  {
    hide Within;
  }

  function RelearnedOf(vid: Vid, routes: Routes, ip: Ip, mac: Mac, port: nat, ps: set<Prefix>): Table {
    var keys := set p | p in ps && p in routes && routes[p].gateway == ip && routes[p].mac != Some(mac) ::
                  RouteKey(vid, p, routes[p].isStatic);
    map fk | fk in keys && RoutedBy(fk) in routes ::
      Flow(RouteCookie(vid, routes[RoutedBy(fk)].id), Forward(port, mac))
  }

  lemma NothingRelearned(table: Table, vid: Vid, routes: Routes, ip: Ip, mac: Mac, port: nat)
    ensures table + RelearnedOf(vid, routes, ip, mac, port, {}) == table
    ensures routes.Keys - routes.Keys == {}
  {
    hide RouteKey, RoutedBy, RouteCookie;
  }

  lemma RouteKeyBack(v: Vlan, vid: Vid, p: Prefix)
    requires VlanOk(v) && p in v.routes
    ensures RoutedBy(RouteKey(vid, p, v.routes[p].isStatic)) == p
  {
    assert RouteOk(v, p);
  }

  lemma OneMoreRelearned(table: Table, v: Vlan, vid: Vid, ip: Ip, mac: Mac, port: nat, ps: set<Prefix>, p: Prefix)
    requires VlanOk(v) && p in v.routes
    ensures table + RelearnedOf(vid, v.routes, ip, mac, port, ps + {p}) ==
            if v.routes[p].gateway == ip && v.routes[p].mac != Some(mac)
            then (table + RelearnedOf(vid, v.routes, ip, mac, port, ps))
                   [RouteKey(vid, p, v.routes[p].isStatic) := Flow(RouteCookie(vid, v.routes[p].id), Forward(port, mac))]
            else table + RelearnedOf(vid, v.routes, ip, mac, port, ps)
  {
    hide RouteKey, RoutedBy, RouteCookie, VlanOk;
    RouteKeyBack(v, vid, p);
    var route, key := v.routes[p], RouteKey(vid, p, v.routes[p].isStatic);
    var rows, rows' := RelearnedOf(vid, v.routes, ip, mac, port, ps), RelearnedOf(vid, v.routes, ip, mac, port, ps + {p});
    if route.gateway == ip && route.mac != Some(mac) {
      assert rows' == rows[key := Flow(RouteCookie(vid, route.id), Forward(port, mac))];
    } else {
      assert rows' == rows;
    }
  }

  lemma AllRelearned(v: Vlan, vid: Vid, ip: Ip, mac: Mac, port: nat)
    ensures RelearnedOf(vid, v.routes, ip, mac, port, v.routes.Keys) == Relearned(vid, v.routes, ip, mac, port)
  {
    hide RouteKey, RoutedBy, RouteCookie;
  }

  lemma NoGatewayNothing(vid: Vid, routes: Routes, ip: Ip, mac: Mac, port: nat)
    requires !IsGateway(routes, ip)
    ensures Relearned(vid, routes, ip, mac, port) == map[] && LearnRoutes(routes, ip, mac) == routes
  {
    hide RouteKey, RoutedBy, RouteCookie;
  }
}
