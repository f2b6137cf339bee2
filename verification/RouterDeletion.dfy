/** Deletion by cookie: what a request removes, and when that is right. */
module RouterDeletion {
  import opened Wrappers
  import opened Prefixes
  import opened RouterFlows
  import opened RouterState
  import opened RouterSteps

  // ------------------------------------------------ deleting a list of flows

  function Lookup(flows: Table, fk: FlowKey): Option<Flow> {
    if fk in flows then Some(flows[fk]) else None
  }

  /** A listed flow goes: by its own key, or with all that share its cookie. */
  ghost predicate Removed(flows: Table, listed: seq<Stat>, byCookie: bool, fk: FlowKey) {
    exists s :: s in listed && (if byCookie then fk in flows && flows[fk].cookie == s.cookie else s.key == fk)
  }

  ghost predicate Restores(listed: seq<Stat>, vid: Vid) {
    exists s :: s in listed && GetPriorityType(s.key.priority, vid) == PRIORITY_DEFAULT_ROUTING
  }

  function DeleteOne(flows: Table, vid: Vid, s: Stat, byCookie: bool, restore: bool): Table {
    var rest := DeleteFlow(flows, s, byCookie);
    if restore && GetPriorityType(s.key.priority, vid) == PRIORITY_DEFAULT_ROUTING
    then rest[DefaultKey(vid) := DropFlow(vid)] else rest
  }

  /** The flows left when the listed ones have been deleted in turn. */
  lemma {:induction false} WhatIsLeft(flows: Table, vid: Vid, listed: seq<Stat>, byCookie: bool, restore: bool, fk: FlowKey)
    requires restore ==> forall s | s in listed :: s.cookie != VlanCookie(vid)
    ensures Lookup(DeleteListed(flows, vid, listed, byCookie, restore), fk) ==
            if restore && fk == DefaultKey(vid) && Restores(listed, vid) then Some(DropFlow(vid))
            else if Removed(flows, listed, byCookie, fk) then None
            else Lookup(flows, fk)
    decreases |listed|
  {
    if listed != [] {
      var rest := DeleteOne(flows, vid, listed[0], byCookie, restore);
      assert listed == [listed[0]] + listed[1..];
      assert DeleteListed(flows, vid, listed, byCookie, restore) == DeleteListed(rest, vid, listed[1..], byCookie, restore);
      WhatIsLeft(rest, vid, listed[1..], byCookie, restore, fk);
      SplitRemoved(flows, vid, listed, byCookie, restore, fk);
    }
  }

  lemma SplitRemoved(flows: Table, vid: Vid, listed: seq<Stat>, byCookie: bool, restore: bool, fk: FlowKey)
    requires listed != [] && (restore ==> forall s | s in listed :: s.cookie != VlanCookie(vid))
    ensures var rest := DeleteOne(flows, vid, listed[0], byCookie, restore);
            && (Restores(listed, vid) <==> Restores([listed[0]], vid) || Restores(listed[1..], vid))
            && (Restores([listed[0]], vid) <==> GetPriorityType(listed[0].key.priority, vid) == PRIORITY_DEFAULT_ROUTING)
            && (!(restore && fk == DefaultKey(vid) && Restores([listed[0]], vid)) ==>
                  (Removed(flows, listed, byCookie, fk) <==>
                     Removed(flows, [listed[0]], byCookie, fk) || Removed(rest, listed[1..], byCookie, fk))
                  && Lookup(rest, fk) == if Removed(flows, [listed[0]], byCookie, fk) then None else Lookup(flows, fk))
            && (restore && fk == DefaultKey(vid) && Restores([listed[0]], vid) ==>
                  Lookup(rest, fk) == Some(DropFlow(vid))
                  && (Removed(rest, listed[1..], byCookie, fk) ==> Restores(listed[1..], vid)))
  {
    hide VlanCookie;
    assert listed == [listed[0]] + listed[1..];
    assert listed[0] in [listed[0]];
    assert GetPriorityType(DefaultKey(vid).priority, vid) == PRIORITY_DEFAULT_ROUTING;
  }

  /** With a complete reply, OpenFlow 1.0 and 1.2 remove the same flows: those
      the filter is after. */
  lemma RemovedAreListed(flows: Table, listed: seq<Stat>, filter: Filter, byCookie: bool, fk: FlowKey)
    requires Lists(flows, listed, filter) && fk in flows
    ensures Removed(flows, listed, byCookie, fk) <==> Keeps(filter, flows[fk].cookie)
  {
    hide Keeps;
    if Keeps(filter, flows[fk].cookie) { assert Stat(fk, flows[fk].cookie) in listed; }
  }

  lemma {:induction false} GoneStaysGone(flows: Table, vid: Vid, listed: seq<Stat>, byCookie: bool, restore: bool, fk: FlowKey)
    requires Removed(flows, listed, byCookie, fk) || fk !in flows
    requires !(restore && fk == DefaultKey(vid))
    ensures fk !in DeleteListed(flows, vid, listed, byCookie, restore)
    decreases |listed|
  {
    hide DefaultKey;
    if listed != [] {
      var rest := DeleteOne(flows, vid, listed[0], byCookie, restore);
      if fk in rest {
        var s :| s in listed && (if byCookie then fk in flows && flows[fk].cookie == s.cookie else s.key == fk);
        assert s != listed[0] && listed == [listed[0]] + listed[1..];
        assert s in listed[1..] && flows[fk] == rest[fk];
      }
      GoneStaysGone(rest, vid, listed[1..], byCookie, restore, fk);
    }
  }

  // ---------------------------------------------------------- deleting routes

  predicate Chosen(which: Which, id: nat) {
    which == All || which == One(id)
  }

  /** The route a flow belongs to. */
  ghost predicate RouteFlowOf(v: Vlan, o: Origin, p: Prefix) {
    p in v.routes && if v.routes[p].isStatic then o.Static? && o.p == p else o.Default? && p == DEFAULT
  }

  /** A filter on route ids keeps the flows of the chosen routes, no others. */
  lemma RouteFilterKeeps(r: Router, vid: Vid, which: Which, fk: FlowKey)
    requires RouterOk(r) && vid in r.vlans && which != One(0) && fk in r.flows
    ensures OriginOf(fk).Some?
    ensures var o := OriginOf(fk).value;
            Keeps(RouteFlows(vid, which), r.flows[fk].cookie) <==>
            VidOf(o) == vid && exists p :: RouteFlowOf(r.vlans[vid], o, p) && Chosen(which, r.vlans[vid].routes[p].id)
  {
    hide RouteCookie, AddressCookie, VlanCookie, CookieVid, CookieRoute, CookieAddress, Within, OriginOf, PrefixOf, Overlap;
    CookieTells(r, fk);
    var o := OriginOf(fk).value;
    if vid == VidOf(o) && (o.Static? || o.Default?) {
      var p := if o.Static? then o.p else DEFAULT;
      assert p in r.vlans[vid].routes ==> RouteOk(r.vlans[vid], p);
      assert forall q :: RouteFlowOf(r.vlans[vid], o, q) ==> q == p;
      assert KeyOk(r, fk);
      if o.Static? || DefaultSet(r.vlans[vid]) { assert RouteFlowOf(r.vlans[vid], o, p); }
    }
  }

  /** Every route has its flow. */
  lemma RouteHasFlow(r: Router, vid: Vid, p: Prefix)
    requires RouterOk(r) && vid in r.vlans && p in r.vlans[vid].routes
    ensures var fk, o := RouteKey(vid, p, r.vlans[vid].routes[p].isStatic),
                         if r.vlans[vid].routes[p].isStatic then Static(vid, p) else Default(vid);
            && fk in r.flows && OriginOf(fk) == Some(o) && RouteFlowOf(r.vlans[vid], o, p)
            && CookieRoute(r.flows[fk].cookie) == r.vlans[vid].routes[p].id
  {
    hide RouteCookie, AddressCookie, VlanCookie, CookieVid, CookieRoute, CookieAddress, Within, OriginOf;
    var v := r.vlans[vid];
    assert RouteOk(v, p);
    var o := if v.routes[p].isStatic then Static(vid, p) else Default(vid);
    DefaultKeyIsRouteKey(vid);
    OneOriginPerKey(o, KeyOf(o));
    assert KeyOk(r, KeyOf(o));
    CookieTells(r, KeyOf(o));
  }

  function ListedRoutes(listed: seq<Stat>): set<nat> {
    set s | s in listed :: CookieRoute(s.cookie)
  }

  lemma ListedRouteIds(r: Router, vid: Vid, which: Which, listed: seq<Stat>, p: Prefix)
    requires RouterOk(r) && vid in r.vlans && which != One(0) && Lists(r.flows, listed, RouteFlows(vid, which))
    requires p in r.vlans[vid].routes
    ensures r.vlans[vid].routes[p].id in ListedRoutes(listed) <==> Chosen(which, r.vlans[vid].routes[p].id)
  {
    hide RouterOk, RouteCookie, CookieVid, CookieRoute, OriginOf;
    RouteHasFlow(r, vid, p);
    var fk := RouteKey(vid, p, r.vlans[vid].routes[p].isStatic);
    RouteFilterKeeps(r, vid, which, fk);
    if Chosen(which, r.vlans[vid].routes[p].id) { assert Stat(fk, r.flows[fk].cookie) in listed; }
  }

  function WithoutChosen(v: Vlan, which: Which): Vlan {
    v.(routes := map p | p in v.routes && !Chosen(which, v.routes[p].id) :: v.routes[p])
  }

  /** Before the empty router is cleaned up. */
  function DeletedRoutes(r: Router, vid: Vid, listed: seq<Stat>, byCookie: bool): Router
    requires vid in r.vlans
  {
    Router(r.vlans[vid := r.vlans[vid].(routes := WithoutRoutes(r.vlans[vid].routes, ListedRoutes(listed)))],
           DeleteListed(r.flows, vid, listed, byCookie, true))
  }

  /** Exact deletion of routes, for one id or all of them: the chosen routes go
      and no others; so do their flows, except that a default route's flow turns
      into the drop flow; no other flow of the switch is touched. */
  lemma DeleteRouteExactly(r: Router, vid: Vid, which: Which, listed: seq<Stat>, byCookie: bool)
    requires RouterOk(r) && vid in r.vlans && which != One(0) && Lists(r.flows, listed, RouteFlows(vid, which))
    ensures var r', v := DeletedRoutes(r, vid, listed, byCookie), r.vlans[vid];
            && r' == Router(r.vlans[vid := WithoutChosen(v, which)], r'.flows)
            && forall fk :: Lookup(r'.flows, fk) == FlowAfter(r, vid, which, fk)
  {
    hide RouterOk, CookieRoute;
    var r', v := DeletedRoutes(r, vid, listed, byCookie), r.vlans[vid];
    forall p | p in v.routes ensures v.routes[p].id in ListedRoutes(listed) <==> Chosen(which, v.routes[p].id) {
      ListedRouteIds(r, vid, which, listed, p);
    }
    assert WithoutRoutes(v.routes, ListedRoutes(listed)) == WithoutChosen(v, which).routes;
    forall fk ensures Lookup(r'.flows, fk) == FlowAfter(r, vid, which, fk) {
      DeleteRouteFlow(r, vid, which, listed, byCookie, fk);
    }
  }

  ghost function FlowAfter(r: Router, vid: Vid, which: Which, fk: FlowKey): Option<Flow>
    requires vid in r.vlans
  {
    if fk in r.flows && IsChosenRoutes(r, vid, which, fk) then
      if fk == DefaultKey(vid) then Some(DropFlow(vid)) else None
    else Lookup(r.flows, fk)
  }

  ghost predicate IsChosenRoutes(r: Router, vid: Vid, which: Which, fk: FlowKey)
    requires vid in r.vlans
  {
    match OriginOf(fk)
    case Some(o) =>
      VidOf(o) == vid && exists p :: RouteFlowOf(r.vlans[vid], o, p) && Chosen(which, r.vlans[vid].routes[p].id)
    case None => false
  }

  lemma DeleteRouteFlow(r: Router, vid: Vid, which: Which, listed: seq<Stat>, byCookie: bool, fk: FlowKey)
    requires RouterOk(r) && vid in r.vlans && which != One(0) && Lists(r.flows, listed, RouteFlows(vid, which))
    ensures Lookup(DeleteListed(r.flows, vid, listed, byCookie, true), fk) == FlowAfter(r, vid, which, fk)
  {
    hide RouterOk, RouteCookie, CookieVid, CookieRoute, CookieAddress, OriginOf, RouteFlowOf, DefaultKey, GetPriorityType;
    forall s | s in listed
      ensures s.cookie != VlanCookie(vid)
      ensures GetPriorityType(s.key.priority, vid) == PRIORITY_DEFAULT_ROUTING <==> s.key == DefaultKey(vid)
    {
      ListedIsRoute(r, vid, which, s);
    }
    WhatIsLeft(r.flows, vid, listed, byCookie, true, fk);
    if fk in r.flows {
      RouteFilterKeeps(r, vid, which, fk);
      RemovedAreListed(r.flows, listed, RouteFlows(vid, which), byCookie, fk);
      if Keeps(RouteFlows(vid, which), r.flows[fk].cookie) { assert Stat(fk, r.flows[fk].cookie) in listed; }
    }
    if fk == DefaultKey(vid) && fk !in r.flows { DefaultAlwaysThere(r, vid); }
  }

  lemma ListedIsRoute(r: Router, vid: Vid, which: Which, s: Stat)
    requires RouterOk(r) && vid in r.vlans && which != One(0)
    requires s.key in r.flows && r.flows[s.key].cookie == s.cookie && Keeps(RouteFlows(vid, which), s.cookie)
    ensures s.cookie != VlanCookie(vid)
    ensures GetPriorityType(s.key.priority, vid) == PRIORITY_DEFAULT_ROUTING <==> s.key == DefaultKey(vid)
  {
    hide RouterOk, RouteCookie, CookieVid, CookieRoute, CookieAddress, VlanCookie;
    NothingTold(vid);
    RouteFilterKeeps(r, vid, which, s.key);
    OriginsKey(s.key);
  }

  /** Every VLAN has one IP entry of default priority, the default route's flow
      or the drop flow. */
  lemma DefaultAlwaysThere(r: Router, vid: Vid)
    requires RouterOk(r) && vid in r.vlans
    ensures DefaultKey(vid) in r.flows
    ensures forall fk | fk in r.flows && fk.pattern.IpMatch? && fk.pattern.vid == vid
                        && GetPriorityType(fk.priority, vid) == PRIORITY_DEFAULT_ROUTING :: fk == DefaultKey(vid)
  {
    hide Within, RowOk, VlanOk;
    assert KeyOk(r, DefaultKey(vid));
    forall fk | fk in r.flows && fk.pattern.IpMatch? && fk.pattern.vid == vid
                && GetPriorityType(fk.priority, vid) == PRIORITY_DEFAULT_ROUTING
      ensures fk == DefaultKey(vid)
    {
      assert KeyOk(r, fk);
      OriginsKey(fk);
    }
  }

  lemma DeletedRoutesKey(r: Router, r': Router, vid: Vid, which: Which, fk: FlowKey)
    requires RouterOk(r) && vid in r.vlans
    requires r'.vlans == r.vlans[vid := WithoutChosen(r.vlans[vid], which)]
    requires Lookup(r'.flows, fk) == FlowAfter(r, vid, which, fk)
    ensures KeyOk(r', fk)
  {
    hide VlanOk, RouteCookie, AddressCookie, Within, OriginOf, DefaultKey, VlanCookie;
    assert KeyOk(r, fk);
    OneOriginPerKey(Default(vid), fk);
    var o := OriginOf(fk);
    if o == None || VidOf(o.value) != vid || o.value.Arp? || o.value.L2? {
      KeyFrame(r, r', fk);
    } else if o.value.Static? || o.value.Default? {
      var p := if o.value.Static? then o.value.p else DEFAULT;
      assert forall q :: RouteFlowOf(r.vlans[vid], o.value, q) ==> q == p;
      if RouteFlowOf(r.vlans[vid], o.value, p) && Chosen(which, r.vlans[vid].routes[p].id) {
        assert fk in r.flows ==> IsChosenRoutes(r, vid, which, fk);
      }
    } else {
      assert forall q :: !RouteFlowOf(r.vlans[vid], o.value, q);
      RoutesKept(r, r', o.value, fk);
    }
  }

  lemma DeletedRoutesOk(r: Router, vid: Vid, which: Which, listed: seq<Stat>, byCookie: bool)
    requires RouterOk(r) && vid in r.vlans && which != One(0) && Lists(r.flows, listed, RouteFlows(vid, which))
    ensures RouterOk(DeletedRoutes(r, vid, listed, byCookie))
  {
    hide RouterOk, DeletedRoutes, FlowAfter, KeyOk, VlanOk;
    var r' := DeletedRoutes(r, vid, listed, byCookie);
    GoodRouter(r);
    DeleteRouteExactly(r, vid, which, listed, byCookie);
    forall fk ensures KeyOk(r', fk) { DeletedRoutesKey(r, r', vid, which, fk); }
    FewerRoutes(r.vlans[vid], which);
    IsGoodRouter(r');
  }

  lemma FewerRoutes(v: Vlan, which: Which)
    requires VlanOk(v)
    ensures VlanOk(WithoutChosen(v, which))
  {
    hide Within, Overlap, PrefixOf;
    var v' := WithoutChosen(v, which);
    forall p | p in v'.routes ensures RouteOk(v', p) { assert RouteOk(v, p); }
    forall p | p in v'.addrs ensures AddressOk(v', p) { assert AddressOk(v, p); }
  }

  /** Between requests a tagged VLAN's router exists only with an address. */
  ghost predicate Tidy(r: Router) {
    forall vid | vid in r.vlans :: vid == 0 || r.vlans[vid].addrs != map[]
  }

  /** Deleting a route by id keeps data and flows together exactly when the id is
      not 0, which is how the flows of addresses and the drop flow read. */
  lemma DeleteRouteKeeps(r: Router, vid: Vid, which: Which, listed: seq<Stat>, byCookie: bool)
    requires RouterOk(r) && Tidy(r) && vid in r.vlans && Lists(r.flows, listed, RouteFlows(vid, which))
    ensures RouterOk(DeleteRoute(r, vid, listed, byCookie)) <==> which != One(0)
  {
    hide RouterOk, DeleteListed, Cleanup, Lists;
    if which != One(0) {
      DeletedRoutesOk(r, vid, which, listed, byCookie);
      CleanupOk(DeletedRoutes(r, vid, listed, byCookie), vid);
    } else {
      RouteZeroBreaks(r, vid, listed, byCookie);
    }
  }

  lemma RoutesNeedAddresses(r: Router, vid: Vid)
    requires RouterOk(r) && vid in r.vlans
    ensures r.vlans[vid].routes != map[] ==> r.vlans[vid].addrs != map[]
  {
    if p :| p in r.vlans[vid].routes { assert RouteOk(r.vlans[vid], p); }
  }

  lemma RouteZeroBreaks(r: Router, vid: Vid, listed: seq<Stat>, byCookie: bool)
    requires RouterOk(r) && Tidy(r) && vid in r.vlans && Lists(r.flows, listed, RouteFlows(vid, One(0)))
    ensures !RouterOk(DeleteRoute(r, vid, listed, byCookie))
  {
    hide RouterOk, DeleteListed, CookieRoute, VlanOk, OriginOf, Within;
    var r', v := DeletedRoutes(r, vid, listed, byCookie), r.vlans[vid];
    GoodRouter(r);
    forall p | p in v.routes ensures v.routes[p].id !in ListedRoutes(listed) { NoRouteZero(v, p); }
    assert WithoutRoutes(v.routes, ListedRoutes(listed)) == v.routes;
    assert r'.vlans[vid] == v;
    var o := L2;
    if vid != 0 {
      var p :| p in v.addrs;
      o := Learn(vid, p);
    }
    ZeroFlowThere(r, vid, o);
    RemovedAreListed(r.flows, listed, RouteFlows(vid, One(0)), byCookie, KeyOf(o));
    GoneStaysGone(r.flows, vid, listed, byCookie, true, KeyOf(o));
    MissingBreaks(r', o);
  }

  lemma NoRouteZero(v: Vlan, p: Prefix)
    requires VlanOk(v) && p in v.routes
    ensures v.routes[p].id >= 1
  {
    hide Within, PrefixOf, Overlap;
    assert RouteOk(v, p);
  }

  /** Flows that read as belonging to route 0. */
  lemma ZeroFlowThere(r: Router, vid: Vid, o: Origin)
    requires RouterOk(r) && vid in r.vlans
    requires (vid == 0 && o == L2) || (o.Learn? && o.vid == vid && o.p in r.vlans[vid].addrs)
    ensures Due(r, o) && Proper(o) && KeyOf(o) in r.flows && KeyOf(o) != DefaultKey(vid)
    ensures Keeps(RouteFlows(vid, One(0)), r.flows[KeyOf(o)].cookie)
  {
    hide RouteCookie, AddressCookie, VlanCookie, CookieVid, CookieRoute, CookieAddress, Within, OriginOf;
    if o.Learn? { assert AddressOk(r.vlans[vid], o.p); }
    OneOriginPerKey(o, KeyOf(o));
    assert KeyOk(r, KeyOf(o));
    CookieTells(r, KeyOf(o));
  }

  lemma MissingBreaks(r: Router, o: Origin)
    requires Due(r, o) && Proper(o) && KeyOf(o) !in r.flows
    ensures !RouterOk(r)
  {
    hide VlanOk, OriginOf, KeyOf;
    OneOriginPerKey(o, KeyOf(o));
    assert !KeyOk(r, KeyOf(o));
  }

  // -------------------------------------------------------- deleting addresses

  ghost predicate AddressFlowOf(v: Vlan, vid: Vid, o: Origin, c: Cookie, p: Prefix) {
    p in v.addrs && TellsAddress(vid, v.addrs[p].id, c) && BelongsTo(v, o, p)
  }

  /** Which id requests are meant for addresses. */
  predicate Sound(which: Which) {
    which == All || 1 <= which.id <= UINT16_MAX
  }

  lemma KeepsDoomed(v: Vlan, vid: Vid, which: Which, id: nat, c: Cookie)
    requires TellsAddress(vid, id, c) && 1 <= id <= UINT16_MAX
    ensures Keeps(AddressFlowsBut(vid, which, Related(v, which)), c) <==> Doomed(v, which, id)
  {
    hide Related, AddressCookie, CookieVid, CookieRoute, CookieAddress;
  }

  lemma KeepsNoRoute(v: Vlan, vid: Vid, which: Which, id: nat, c: Cookie)
    requires TellsRoute(vid, id, c) && id >= 1
    requires Sound(which) || (which.id < 0 || (which.id != id * 0x1_0000))
    ensures !Keeps(AddressFlowsBut(vid, which, Related(v, which)), c)
  {
    hide Related, RouteCookie, CookieVid, CookieRoute, CookieAddress;
  }

  lemma KeepsNothing(v: Vlan, vid: Vid, which: Which, w: Vid, c: Cookie)
    requires TellsNothing(w, c) && which != One(0)
    ensures !Keeps(AddressFlowsBut(vid, which, Related(v, which)), c)
  {
    hide Related, VlanCookie, CookieVid, CookieRoute, CookieAddress;
  }

  lemma KeepsOwnVlan(v: Vlan, vid: Vid, which: Which, c: Cookie)
    requires Keeps(AddressFlowsBut(vid, which, Related(v, which)), c)
    ensures CookieVid(c) == vid
  {
    hide Related, CookieVid, CookieRoute, CookieAddress;
  }

  lemma AddressIds(v: Vlan, p: Prefix)
    requires VlanOk(v)
    ensures p in v.addrs ==> 1 <= v.addrs[p].id <= UINT16_MAX
    ensures p in v.routes ==> 1 <= v.routes[p].id <= UINT16_MAX
    ensures forall q | p in v.addrs && q in v.addrs && v.addrs[q].id == v.addrs[p].id :: q == p
  {
    hide Within, Overlap, PrefixOf;
    if p in v.addrs { assert AddressOk(v, p); }
    if p in v.routes { assert RouteOk(v, p); }
  }

  /** A filter on address ids keeps the flows of the chosen addresses that no
      gateway lies in, no others. */
  lemma AddressFilterKeeps(r: Router, vid: Vid, which: Which, fk: FlowKey)
    requires RouterOk(r) && vid in r.vlans && Sound(which) && fk in r.flows
    ensures OriginOf(fk).Some?
    ensures var o, c, v := OriginOf(fk).value, r.flows[fk].cookie, r.vlans[vid];
            Keeps(AddressFilter(r, vid, which), c) <==>
            VidOf(o) == vid && exists p :: AddressFlowOf(v, vid, o, c, p) && Doomed(v, which, v.addrs[p].id)
  {
    hide TellsAddress, TellsRoute, TellsNothing, CookieVid, Within, OriginOf, KeyOk, Related, KeyOf, Keeps, Doomed, VlanOk;
    CookieTells(r, fk);
    CookieVidOfFlow(r, fk);
    var o, c, v := OriginOf(fk).value, r.flows[fk].cookie, r.vlans[vid];
    assert VlanOk(v);
    match o
    case Arp => KeepsNothing(v, vid, which, 0, c);
    case L2 => KeepsNothing(v, vid, which, 0, c);
    case Default(w) =>
      AddressIds(v, DEFAULT);
      if vid == w && DefaultSet(v) { KeepsNoRoute(v, vid, which, v.routes[DEFAULT].id, c); }
      else if vid == w { KeepsNothing(v, vid, which, vid, c); }
      else if Keeps(AddressFilter(r, vid, which), c) { KeepsOwnVlan(v, vid, which, c); }
    case Static(w, p) =>
      AddressIds(v, p);
      if vid == w { KeepsNoRoute(v, vid, which, v.routes[p].id, c); }
      else if Keeps(AddressFilter(r, vid, which), c) { KeepsOwnVlan(v, vid, which, c); }
    case _ =>
      if vid == o.vid { HolderDoomed(v, vid, which, o, c); }
      else if Keeps(AddressFilter(r, vid, which), c) { KeepsOwnVlan(v, vid, which, c); }
  }

  lemma HolderDoomed(v: Vlan, vid: Vid, which: Which, o: Origin, c: Cookie)
    requires VlanOk(v) && TellsHolder(v, vid, o, c)
    ensures Keeps(AddressFlowsBut(vid, which, Related(v, which)), c) <==>
            exists p :: AddressFlowOf(v, vid, o, c, p) && Doomed(v, which, v.addrs[p].id)
  {
    hide TellsAddress, Related, Keeps, Doomed, VlanOk, BelongsTo;
    var p :| p in v.addrs && TellsAddress(vid, v.addrs[p].id, c) && BelongsTo(v, o, p);
    AddressIds(v, p);
    KeepsDoomed(v, vid, which, v.addrs[p].id, c);
    assert AddressFlowOf(v, vid, o, c, p);
    forall q | AddressFlowOf(v, vid, o, c, q) ensures q == p { OneTold(vid, v.addrs[q].id, v.addrs[p].id, c); }
  }

  lemma OneTold(vid: Vid, i: nat, j: nat, c: Cookie)
    requires TellsAddress(vid, i, c) && TellsAddress(vid, j, c)
    ensures i == j
  {
  }

  predicate Doomed(v: Vlan, which: Which, id: nat) {
    Chosen(which, id) && id !in Related(v, which)
  }

  function WithoutDoomed(v: Vlan, which: Which): Vlan {
    v.(addrs := map p | p in v.addrs && !Doomed(v, which, v.addrs[p].id) :: v.addrs[p])
  }

  function ListedAddresses(listed: seq<Stat>): set<nat> {
    set s | s in listed :: CookieAddress(s.cookie)
  }

  function DeletedAddresses(r: Router, vid: Vid, listed: seq<Stat>, byCookie: bool): Router
    requires vid in r.vlans
  {
    Router(r.vlans[vid := r.vlans[vid].(addrs := WithoutAddresses(r.vlans[vid].addrs, ListedAddresses(listed)))],
           DeleteListed(r.flows, vid, listed, byCookie, false))
  }

  lemma ListedAddressIds(r: Router, vid: Vid, which: Which, listed: seq<Stat>, p: Prefix)
    requires RouterOk(r) && vid in r.vlans && Sound(which) && Lists(r.flows, listed, AddressFilter(r, vid, which))
    requires p in r.vlans[vid].addrs
    ensures r.vlans[vid].addrs[p].id in ListedAddresses(listed) <==> Doomed(r.vlans[vid], which, r.vlans[vid].addrs[p].id)
  {
    hide RouterOk, AddressCookie, CookieVid, CookieRoute, CookieAddress, OriginOf, Keeps, AddressFilter, Doomed;
    var v, fk := r.vlans[vid], LearnKey(vid, p);
    var id := v.addrs[p].id;
    AddressHasFlow(r, vid, p);
    AddressFilterKeeps(r, vid, which, fk);
    if Doomed(v, which, id) {
      assert AddressFlowOf(v, vid, Learn(vid, p), r.flows[fk].cookie, p);
      assert Stat(fk, r.flows[fk].cookie) in listed;
    }
    if id in ListedAddresses(listed) {
      var s :| s in listed && CookieAddress(s.cookie) == id;
      AddressFilterKeeps(r, vid, which, s.key);
      var q :| AddressFlowOf(v, vid, OriginOf(s.key).value, s.cookie, q) && Doomed(v, which, v.addrs[q].id);
    }
  }

  lemma AddressHasFlow(r: Router, vid: Vid, p: Prefix)
    requires RouterOk(r) && vid in r.vlans && p in r.vlans[vid].addrs
    ensures var fk := LearnKey(vid, p);
            && fk in r.flows && OriginOf(fk) == Some(Learn(vid, p))
            && AddressFlowOf(r.vlans[vid], vid, Learn(vid, p), r.flows[fk].cookie, p)
  {
    hide RouteCookie, AddressCookie, VlanCookie, CookieVid, CookieRoute, CookieAddress, Within, OriginOf;
    assert AddressOk(r.vlans[vid], p);
    OneOriginPerKey(Learn(vid, p), LearnKey(vid, p));
    assert KeyOk(r, LearnKey(vid, p));
    CookieTells(r, LearnKey(vid, p));
  }

  ghost predicate IsDoomedFlow(r: Router, vid: Vid, which: Which, fk: FlowKey)
    requires vid in r.vlans && fk in r.flows
  {
    match OriginOf(fk)
    case Some(o) =>
      VidOf(o) == vid && exists p :: AddressFlowOf(r.vlans[vid], vid, o, r.flows[fk].cookie, p)
                                     && Doomed(r.vlans[vid], which, r.vlans[vid].addrs[p].id)
    case None => false
  }

  /** Exact deletion of addresses, for one id or all of them: the chosen ones go
      that no gateway lies in, with their flows and hosts, and nothing else. */
  lemma DeleteAddressExactly(r: Router, vid: Vid, which: Which, listed: seq<Stat>, byCookie: bool)
    requires RouterOk(r) && vid in r.vlans && Sound(which) && Lists(r.flows, listed, AddressFilter(r, vid, which))
    ensures var r', v := DeletedAddresses(r, vid, listed, byCookie), r.vlans[vid];
            && r' == Router(r.vlans[vid := WithoutDoomed(v, which)], r'.flows)
            && forall fk :: Lookup(r'.flows, fk) ==
                 if fk in r.flows && IsDoomedFlow(r, vid, which, fk) then None else Lookup(r.flows, fk)
  {
    hide RouterOk, CookieAddress, Doomed, AddressFilter, Keeps;
    var r', v := DeletedAddresses(r, vid, listed, byCookie), r.vlans[vid];
    forall p | p in v.addrs ensures v.addrs[p].id in ListedAddresses(listed) <==> Doomed(v, which, v.addrs[p].id) {
      ListedAddressIds(r, vid, which, listed, p);
    }
    assert WithoutAddresses(v.addrs, ListedAddresses(listed)) == WithoutDoomed(v, which).addrs;
    forall fk ensures Lookup(r'.flows, fk) ==
        if fk in r.flows && IsDoomedFlow(r, vid, which, fk) then None else Lookup(r.flows, fk) {
      WhatIsLeft(r.flows, vid, listed, byCookie, false, fk);
      if fk in r.flows {
        AddressFilterKeeps(r, vid, which, fk);
        RemovedAreListed(r.flows, listed, AddressFilter(r, vid, which), byCookie, fk);
      } else {
        NothingToRemove(r.flows, listed, AddressFilter(r, vid, which), byCookie, fk);
      }
    }
  }

  lemma NothingToRemove(flows: Table, listed: seq<Stat>, filter: Filter, byCookie: bool, fk: FlowKey)
    requires fk !in flows && Lists(flows, listed, filter)
    ensures !Removed(flows, listed, byCookie, fk)
  {
    hide Keeps;
  }

  /** No gateway loses its subnet. */
  lemma FewerAddresses(v: Vlan, which: Which)
    requires VlanOk(v)
    ensures VlanOk(WithoutDoomed(v, which))
  {
    hide Within, Overlap, PrefixOf;
    var v' := WithoutDoomed(v, which);
    forall p | p in v'.addrs ensures AddressOk(v', p) { assert AddressOk(v, p); }
    forall p | p in v'.routes ensures RouteOk(v', p) {
      assert RouteOk(v, p);
      var q :| q in v.addrs && Within(v.routes[p].gateway, q);
      GatewayKeepsSubnet(v, which, p, q);
      assert q in v'.addrs;
    }
  }

  lemma GatewayKeepsSubnet(v: Vlan, which: Which, p: Prefix, q: Prefix)
    requires p in v.routes && q in v.addrs && Within(v.routes[p].gateway, q)
    ensures !Doomed(v, which, v.addrs[q].id)
  {
    hide Within;
    if Chosen(which, v.addrs[q].id) { assert v.addrs[q].id in Related(v, which); }
  }

  lemma DeletedAddressesKey(r: Router, r': Router, vid: Vid, which: Which, fk: FlowKey)
    requires RouterOk(r) && vid in r.vlans
    requires r'.vlans == r.vlans[vid := WithoutDoomed(r.vlans[vid], which)]
    requires Lookup(r'.flows, fk) == if fk in r.flows && IsDoomedFlow(r, vid, which, fk) then None else Lookup(r.flows, fk)
    ensures KeyOk(r', fk)
  {
    hide VlanOk, RouteCookie, Within, OriginOf, VlanCookie, Doomed, TellsAddress, AddressCookie;
    GoodRouter(r);
    assert KeyOk(r, fk);
    if fk in r.flows { HolderKnown(r, fk); }
    var o := OriginOf(fk);
    if o == None || VidOf(o.value) != vid || o.value.Arp? || o.value.L2? || o.value.Static? || o.value.Default? {
      assert fk in r.flows ==> !IsDoomedFlow(r, vid, which, fk);
      KeptElsewhere(r, r', fk);
    } else {
      if fk in r.flows {
        var p :| AddressFlowOf(r.vlans[vid], vid, o.value, r.flows[fk].cookie, p);
        forall q | AddressFlowOf(r.vlans[vid], vid, o.value, r.flows[fk].cookie, q) ensures q == p {
          OneTold(vid, r.vlans[vid].addrs[q].id, r.vlans[vid].addrs[p].id, r.flows[fk].cookie);
          AddressIds(r.vlans[vid], p);
        }
        DoomedOrKept(r, r', which, o.value, fk, p);
      } else {
        AbsentStays(r, r', which, o.value, fk);
      }
    }
  }

  lemma KeptElsewhere(r: Router, r': Router, fk: FlowKey)
    requires KeyOk(r, fk) && Lookup(r'.flows, fk) == Lookup(r.flows, fk)
    requires OriginOf(fk).Some? ==>
               var o := OriginOf(fk).value;
               o.Arp? || o.L2? || ((o.vid in r.vlans <==> o.vid in r'.vlans) && (o.vid in r.vlans ==>
                 r'.vlans[o.vid] == r.vlans[o.vid]
                 || ((o.Static? || o.Default?) && r'.vlans[o.vid].routes == r.vlans[o.vid].routes)))
    ensures KeyOk(r', fk)
  {
    hide OriginOf, RouteCookie, AddressCookie, Within;
  }

  /** An address flow's holder, and that it is the only one with its cookie. */
  lemma HolderKnown(r: Router, fk: FlowKey)
    requires RouterOk(r) && fk in r.flows
    ensures OriginOf(fk).Some?
    ensures var o, c := OriginOf(fk).value, r.flows[fk].cookie;
            o.Learn? || o.Handle? || o.Switch? || o.Host? ==>
              o.vid in r.vlans && exists p :: AddressFlowOf(r.vlans[o.vid], o.vid, o, c, p)
  {
    hide Within, OriginOf, TellsAddress, KeyOk, VlanOk, TellsRoute, TellsNothing, BelongsTo;
    CookieTells(r, fk);
    var o, c := OriginOf(fk).value, r.flows[fk].cookie;
    if o.Learn? || o.Handle? || o.Switch? || o.Host? {
      var v := r.vlans[o.vid];
      var p :| p in v.addrs && TellsAddress(o.vid, v.addrs[p].id, c) && BelongsTo(v, o, p);
      assert AddressFlowOf(v, o.vid, o, c, p);
    }
  }

  /** An address flow goes if its holder goes, and stays as good otherwise. */
  lemma DoomedOrKept(r: Router, r': Router, which: Which, o: Origin, fk: FlowKey, p: Prefix)
    requires KeyOk(r, fk) && OriginOf(fk) == Some(o) && (o.Learn? || o.Handle? || o.Switch? || o.Host?)
    requires o.vid in r.vlans && VlanOk(r.vlans[o.vid]) && fk in r.flows
    requires r'.vlans == r.vlans[o.vid := WithoutDoomed(r.vlans[o.vid], which)]
    requires AddressFlowOf(r.vlans[o.vid], o.vid, o, r.flows[fk].cookie, p)
    requires Lookup(r'.flows, fk) == if Doomed(r.vlans[o.vid], which, r.vlans[o.vid].addrs[p].id) then None else Some(r.flows[fk])
    ensures KeyOk(r', fk)
  {
    hide RouteCookie, CookieVid, CookieAddress, CookieRoute, Within, OriginOf, Doomed, VlanOk, AddressOk;
    var v, v', c := r.vlans[o.vid], r'.vlans[o.vid], r.flows[fk].cookie;
    assert p in v'.addrs <==> !Doomed(v, which, v.addrs[p].id);
    if o.Handle? {
      forall q | q in v.addrs && v.addrs[q].gw == o.gw ensures q == p { SameGateway(v, p, q); }
    }
  }

  lemma AbsentStays(r: Router, r': Router, which: Which, o: Origin, fk: FlowKey)
    requires KeyOk(r, fk) && OriginOf(fk) == Some(o) && (o.Learn? || o.Handle? || o.Switch? || o.Host?)
    requires fk !in r.flows && fk !in r'.flows
    requires o.vid in r.vlans && r'.vlans == r.vlans[o.vid := WithoutDoomed(r.vlans[o.vid], which)]
    ensures KeyOk(r', fk)
  {
    hide OriginOf, Doomed, Within;
  }

  lemma SameGateway(v: Vlan, p: Prefix, q: Prefix)
    requires VlanOk(v) && p in v.addrs && q in v.addrs && v.addrs[p].gw == v.addrs[q].gw
    ensures p == q
  {
    hide ApplyMask, RouteOk;
    assert AddressOk(v, p) && AddressOk(v, q);
    PrefixHoldsItsSource(v.addrs[p].gw, p.mask);
    PrefixHoldsItsSource(v.addrs[q].gw, q.mask);
  }

  lemma DeletedAddressesOk(r: Router, vid: Vid, which: Which, listed: seq<Stat>, byCookie: bool)
    requires RouterOk(r) && vid in r.vlans && Sound(which) && Lists(r.flows, listed, AddressFilter(r, vid, which))
    ensures RouterOk(DeletedAddresses(r, vid, listed, byCookie))
  {
    hide RouterOk, DeletedAddresses, KeyOk, VlanOk, IsDoomedFlow, Lists, AddressFilter, Doomed;
    var r' := DeletedAddresses(r, vid, listed, byCookie);
    GoodRouter(r);
    DeleteAddressExactly(r, vid, which, listed, byCookie);
    forall fk ensures KeyOk(r', fk) { DeletedAddressesKey(r, r', vid, which, fk); }
    FewerAddresses(r.vlans[vid], which);
    IsGoodRouter(r');
  }

  /** An id that is not an address's own may still read as one: 0 as the drop
      flow (and, untagged, as the switch-wide flows), and multiples of 0x10000
      as routes. */
  predicate Misread(v: Vlan, vid: Vid, which: Which) {
    which.One? &&
    ((which.id == 0 && (vid == 0 || !DefaultSet(v))) || exists p | p in v.routes :: which.id == v.routes[p].id * 0x1_0000)
  }

  /** Deleting an address keeps data and flows together exactly when its id does
      not read as another flow's. */
  lemma DeleteAddressKeeps(r: Router, vid: Vid, which: Which, listed: seq<Stat>, byCookie: bool)
    requires RouterOk(r) && Tidy(r) && vid in r.vlans && Lists(r.flows, listed, AddressFilter(r, vid, which))
    ensures RouterOk(DeleteAddress(r, vid, listed, byCookie)) <==> !Misread(r.vlans[vid], vid, which)
  {
    hide RouterOk, DeleteListed, Cleanup, Lists, Misread, AddressFilter;
    var v := r.vlans[vid];
    if Misread(v, vid, which) {
      MisreadBreaks(r, vid, which, listed, byCookie);
    } else if Sound(which) {
      DeletedAddressesOk(r, vid, which, listed, byCookie);
      CleanupOk(DeletedAddresses(r, vid, listed, byCookie), vid);
    } else {
      NothingRead(r, vid, which, listed);
      assert WithoutAddresses(v.addrs, {}) == v.addrs;
      assert r.vlans[vid := v] == r.vlans;
      DeleteNothing(r.flows, vid, byCookie, false);
      assert DeletedAddresses(r, vid, listed, byCookie) == r;
      CleanupOk(r, vid);
    }
  }

  lemma DeleteNothing(flows: Table, vid: Vid, byCookie: bool, restore: bool)
    ensures DeleteListed(flows, vid, [], byCookie, restore) == flows
  {
  }

  /** Any other id out of range matches no flow. */
  lemma NothingRead(r: Router, vid: Vid, which: Which, listed: seq<Stat>)
    requires RouterOk(r) && vid in r.vlans && !Sound(which) && !Misread(r.vlans[vid], vid, which)
    requires Lists(r.flows, listed, AddressFilter(r, vid, which))
    ensures listed == [] && ListedAddresses(listed) == {}
  {
    hide Keeps, Tells;
    if listed != [] {
      assert listed[0] in listed;
      NotRead(r, vid, which, listed[0].key);
    }
  }

  lemma NotRead(r: Router, vid: Vid, which: Which, fk: FlowKey)
    requires RouterOk(r) && vid in r.vlans && !Sound(which) && !Misread(r.vlans[vid], vid, which) && fk in r.flows
    ensures !Keeps(AddressFilter(r, vid, which), r.flows[fk].cookie)
  {
    hide TellsAddress, TellsRoute, TellsNothing, CookieVid, Within, OriginOf, KeyOk, Related, KeyOf, Keeps, VlanOk, BelongsTo, Doomed;
    CookieTells(r, fk);
    CookieVidOfFlow(r, fk);
    var o, c, v := OriginOf(fk).value, r.flows[fk].cookie, r.vlans[vid];
    assert VlanOk(v);
    if Keeps(AddressFilter(r, vid, which), c) {
      KeepsOwnVlan(v, vid, which, c);
      match o
      case Arp => KeepsNothing(v, vid, which, 0, c);
      case L2 => KeepsNothing(v, vid, which, 0, c);
      case Default(w) =>
        AddressIds(v, DEFAULT);
        if DefaultSet(v) { KeepsNoRoute(v, vid, which, v.routes[DEFAULT].id, c); } else { KeepsNothing(v, vid, which, vid, c); }
      case Static(w, p) =>
        AddressIds(v, p);
        KeepsNoRoute(v, vid, which, v.routes[p].id, c);
      case _ =>
        var p :| p in v.addrs && TellsAddress(vid, v.addrs[p].id, c);
        AddressIds(v, p);
        KeepsDoomed(v, vid, which, v.addrs[p].id, c);
        DoomedInRange(v, which, v.addrs[p].id);
    }
  }

  lemma DoomedInRange(v: Vlan, which: Which, id: nat)
    requires !Sound(which) && 1 <= id <= UINT16_MAX
    ensures !Doomed(v, which, id)
  {
  }

  lemma MisreadBreaks(r: Router, vid: Vid, which: Which, listed: seq<Stat>, byCookie: bool)
    requires RouterOk(r) && Tidy(r) && vid in r.vlans && Misread(r.vlans[vid], vid, which)
    requires Lists(r.flows, listed, AddressFilter(r, vid, which))
    ensures !RouterOk(DeleteAddress(r, vid, listed, byCookie))
  {
    hide RouterOk, DeleteListed, VlanOk, OriginOf, Within, CookieAddress, Misread, Related, KeyOf;
    var r', v := DeletedAddresses(r, vid, listed, byCookie), r.vlans[vid];
    GoodRouter(r);
    ListedRead(r.flows, vid, which, Related(v, which), listed);
    forall p | p in v.addrs ensures v.addrs[p].id !in ListedAddresses(listed) { NoAddressMisread(v, vid, which, p); }
    assert WithoutAddresses(v.addrs, ListedAddresses(listed)) == v.addrs;
    assert r'.vlans[vid] == v;
    var o := MisreadFlow(r, vid, which);
    RemovedAreListed(r.flows, listed, AddressFilter(r, vid, which), byCookie, KeyOf(o));
    GoneStaysGone(r.flows, vid, listed, byCookie, false, KeyOf(o));
    assert r'.vlans == r.vlans;
    SameVlansDue(r, r', o);
    MissingBreaks(r', o);
  }

  lemma SameVlansDue(r: Router, r': Router, o: Origin)
    requires r'.vlans == r.vlans
    ensures Due(r', o) <==> Due(r, o)
  {
  }

  lemma ListedRead(flows: Table, vid: Vid, which: Which, skip: set<nat>, listed: seq<Stat>)
    requires Lists(flows, listed, AddressFlowsBut(vid, which, skip))
    ensures which.One? ==> forall id | id in ListedAddresses(listed) :: id == which.id
  {
  }

  lemma NoAddressMisread(v: Vlan, vid: Vid, which: Which, p: Prefix)
    requires VlanOk(v) && Misread(v, vid, which) && p in v.addrs
    ensures which.One? && v.addrs[p].id != which.id
  {
    hide Within, PrefixOf, Overlap;
    assert AddressOk(v, p);
    if which.id != 0 {
      var q :| q in v.routes && which.id == v.routes[q].id * 0x1_0000;
      assert RouteOk(v, q);
    }
  }

  lemma MisreadFlow(r: Router, vid: Vid, which: Which) returns (o: Origin)
    requires RouterOk(r) && vid in r.vlans && Misread(r.vlans[vid], vid, which)
    ensures Due(r, o) && Proper(o) && KeyOf(o) in r.flows
    ensures Keeps(AddressFilter(r, vid, which), r.flows[KeyOf(o)].cookie)
  {
    hide TellsAddress, TellsRoute, TellsNothing, Within, OriginOf, KeyOf, Related, Keeps, VlanOk, CookieVid;
    var v := r.vlans[vid];
    assert VlanOk(v);
    MisreadUnrelated(v, vid, which);
    if p :| p in v.routes && which.id == v.routes[p].id * 0x1_0000 {
      RouteOrigin(v, p);
      o := if v.routes[p].isStatic then Static(vid, p) else Default(vid);
      FlowThere(r, o);
      KeepsRoute(vid, which, v.routes[p].id, r.flows[KeyOf(o)].cookie);
    } else {
      o := if vid == 0 then L2 else Default(vid);
      FlowThere(r, o);
      KeepsZero(vid, which, r.flows[KeyOf(o)].cookie);
    }
  }

  lemma RouteOrigin(v: Vlan, p: Prefix)
    requires VlanOk(v) && p in v.routes
    ensures Legal(p.mask) && (!v.routes[p].isStatic ==> p == DEFAULT)
  {
    assert RouteOk(v, p);
  }

  lemma FlowThere(r: Router, o: Origin)
    requires RouterOk(r) && Due(r, o) && Proper(o)
    ensures KeyOf(o) in r.flows && OriginOf(KeyOf(o)) == Some(o) && Tells(r, o, r.flows[KeyOf(o)].cookie)
  {
    hide OriginOf, KeyOf, VlanOk, Tells, RowOk;
    OneOriginPerKey(o, KeyOf(o));
    assert KeyOk(r, KeyOf(o));
    CookieTells(r, KeyOf(o));
  }

  lemma KeepsRoute(vid: Vid, which: Which, id: nat, c: Cookie)
    requires TellsRoute(vid, id, c) && which == One(id * 0x1_0000)
    ensures Keeps(AddressFlowsBut(vid, which, {}), c)
  {
    hide RouteCookie, CookieVid, CookieRoute, CookieAddress;
  }

  lemma KeepsZero(vid: Vid, which: Which, c: Cookie)
    requires TellsNothing(vid, c) && which == One(0)
    ensures Keeps(AddressFlowsBut(vid, which, {}), c)
  {
    hide VlanCookie, CookieVid, CookieRoute, CookieAddress;
  }

  lemma MisreadIsOne(v: Vlan, vid: Vid, which: Which)
    requires Misread(v, vid, which)
    ensures which.One?
  {
  }

  lemma MisreadUnrelated(v: Vlan, vid: Vid, which: Which)
    requires VlanOk(v) && Misread(v, vid, which)
    ensures which.One? && Related(v, which) == {}
  {
    hide Within, Misread;
    MisreadIsOne(v, vid, which);
    forall p | p in v.addrs ensures which != One(v.addrs[p].id) { NoAddressMisread(v, vid, which, p); }
  }
}
