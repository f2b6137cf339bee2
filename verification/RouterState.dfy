/** The routers of one switch: addresses, routes and the flow table the requests
    and ARP packets turn them into (app/rest_router.py). */
module RouterState {
  import opened Wrappers
  import opened Prefixes
  import opened RouterFlows

  datatype Address = Address(id: nat, gw: Ip)

  /** `isStatic` tells a route added for a destination from the default route;
      both may sit under the key 0.0.0.0/0. */
  datatype Route = Route(id: nat, isStatic: bool, gateway: Ip, mac: Option<Mac>)

  type Addresses = map<Prefix, Address>
  type Routes = map<Prefix, Route>

  datatype Vlan = Vlan(addrs: Addresses, nextAddr: nat, routes: Routes, nextRoute: nat)

  datatype Router = Router(vlans: map<Vid, Vlan>, flows: Table)

  const FRESH := Vlan(map[], 1, map[], 1)

  const START := Router(map[0 := FRESH],
    map[ARP_KEY := Flow(0, PacketIn), NORMAL_KEY := Flow(0, Normal), DefaultKey(0) := DropFlow(0)])

  predicate ValidVid(vid: Vid) { vid == 0 || 2 <= vid <= 4094 }

  datatype Failure = ValueError | CommandFailure

  /** A destination as requested: the text 0.0.0.0/0, or any other text, which is
      canonical if it reads the same after parsing. */
  datatype Dest = DefaultRoute | Network(ip: Ip, mask: int, canonical: bool)

  datatype Which = One(id: int) | All

  // ---------------------------------------------------------------- lookups

  /** AddressData.get_data by IP. */
  ghost function SubnetOf(addrs: Addresses, ip: Ip): Option<Prefix> {
    if p :| p in addrs && Within(ip, p) then Some(p) else None
  }

  predicate Overlaps(addrs: Addresses, gw: Ip, mask: nat)
    requires Legal(mask)
  {
    exists p | p in addrs && Legal(p.mask) :: GatewayInside(gw, PrefixOf(gw, mask), addrs[p].gw, p)
  }

  function NextId(id: nat): nat {
    if (id + 1) % UINT32 == 0 then 1 else (id + 1) % UINT32
  }

  // ------------------------------------------------------------- VLAN routers

  function EnsureVlan(r: Router, vid: Vid): Router {
    if vid in r.vlans then r else Router(r.vlans[vid := FRESH], r.flows[DefaultKey(vid) := DropFlow(vid)])
  }

  /** _del_vlan_router: an empty router of a tagged VLAN goes, with its flows. */
  function Cleanup(r: Router, vid: Vid): Router {
    if vid == 0 || vid !in r.vlans || r.vlans[vid].addrs != map[] || r.vlans[vid].routes != map[] then r
    else Router(r.vlans - {vid}, map fk | fk in r.flows && CookieVid(r.flows[fk].cookie) != vid :: r.flows[fk])
  }

  // ------------------------------------------------------------- set requests

  function AddressFlows(flows: Table, vid: Vid, p: Prefix, a: Address): Table {
    var c := AddressCookie(vid, a.id);
    flows[LearnKey(vid, p) := Flow(c, PacketIn)]
         [HandleKey(vid, a.gw) := Flow(c, PacketIn)]
         [SwitchKey(vid, p) := Flow(c, Normal)]
  }

  function AddAddress(r: Router, vid: Vid, gw: Ip, mask: nat): Router
    requires vid in r.vlans && Legal(mask)
  {
    var v, p := r.vlans[vid], PrefixOf(gw, mask);
    var a := Address(v.nextAddr, gw);
    Router(r.vlans[vid := v.(addrs := v.addrs[p := a], nextAddr := NextId(v.nextAddr))],
           AddressFlows(r.flows, vid, p, a))
  }

  function SetAddress(r: Router, vid: Vid, gw: Ip, mask: int): (Router, Option<Failure>) {
    if !ValidVid(vid) then (r, Some(ValueError))
    else
      var r1 := EnsureVlan(r, vid);
      if !Legal(mask) then (Cleanup(r1, vid), Some(ValueError))
      else if Overlaps(r1.vlans[vid].addrs, gw, mask) then (Cleanup(r1, vid), Some(CommandFailure))
      else (AddAddress(r1, vid, gw, mask), None)
  }

  function DestPrefix(dest: Dest): Prefix
    requires dest.Network? ==> Legal(dest.mask)
  {
    if dest.DefaultRoute? then DEFAULT else PrefixOf(dest.ip, dest.mask)
  }

  /** RoutingTable.add looks the destination up by its text. */
  predicate Taken(routes: Routes, dest: Dest)
    requires dest.Network? ==> Legal(dest.mask)
  {
    DestPrefix(dest) in routes && (dest.DefaultRoute? || dest.canonical)
  }

  function AddRoute(r: Router, vid: Vid, dest: Dest, gateway: Ip): Router
    requires vid in r.vlans && (dest.Network? ==> Legal(dest.mask))
  {
    var v, p := r.vlans[vid], DestPrefix(dest);
    var route := Route(v.nextRoute, dest.Network?, gateway, None);
    Router(r.vlans[vid := v.(routes := v.routes[p := route], nextRoute := NextId(v.nextRoute))],
           r.flows[RouteKey(vid, p, route.isStatic) := Flow(RouteCookie(vid, route.id), PacketIn)])
  }

  ghost function SetRoute(r: Router, vid: Vid, dest: Dest, gateway: Ip): (Router, Option<Failure>) {
    if !ValidVid(vid) then (r, Some(ValueError))
    else
      var r1 := EnsureVlan(r, vid);
      var v := r1.vlans[vid];
      match SubnetOf(v.addrs, gateway)
      case None => (Cleanup(r1, vid), Some(CommandFailure))
      case Some(q) =>
        if v.addrs[q].gw == gateway then (Cleanup(r1, vid), Some(CommandFailure))
        else if dest.Network? && !Legal(dest.mask) then (Cleanup(r1, vid), Some(ValueError))
        else if Taken(v.routes, dest) then (Cleanup(r1, vid), Some(CommandFailure))
        else (AddRoute(r1, vid, dest, gateway), None)
  }

  // ---------------------------------------------------------- delete requests

  /** One flow of a statistics reply. */
  datatype Stat = Stat(key: FlowKey, cookie: Cookie)

  /** delete_flow: strictly by match and priority in OpenFlow 1.0, by the whole
      cookie from 1.2 on. */
  function DeleteFlow(flows: Table, s: Stat, byCookie: bool): Table {
    if byCookie then map fk | fk in flows && flows[fk].cookie != s.cookie :: flows[fk] else flows - {s.key}
  }

  /** Deleting the listed flows one by one; deleting a route's flow of default
      priority puts the drop flow back. */
  function DeleteListed(flows: Table, vid: Vid, listed: seq<Stat>, byCookie: bool, restore: bool): Table
    decreases |listed|
  {
    if listed == [] then flows
    else
      var rest := DeleteFlow(flows, listed[0], byCookie);
      var rest := if restore && GetPriorityType(listed[0].key.priority, vid) == PRIORITY_DEFAULT_ROUTING
                  then rest[DefaultKey(vid) := DropFlow(vid)] else rest;
      DeleteListed(rest, vid, listed[1..], byCookie, restore)
  }

  /** A reply lists every flow the filter keeps, in some order. */
  ghost predicate Lists(flows: Table, listed: seq<Stat>, filter: Filter) {
    && (forall s | s in listed :: s.key in flows && flows[s.key].cookie == s.cookie && Keeps(filter, s.cookie))
    && (forall fk | fk in flows && Keeps(filter, flows[fk].cookie) :: Stat(fk, flows[fk].cookie) in listed)
  }

  /** Which flows a delete request goes for, by their cookies alone. */
  datatype Filter = RouteFlows(vid: Vid, which: Which) | AddressFlowsBut(vid: Vid, which: Which, skip: set<nat>)

  predicate Keeps(f: Filter, c: Cookie) {
    CookieVid(c) == f.vid &&
    match f
    case RouteFlows(_, All) => CookieRoute(c) != 0
    case RouteFlows(_, One(id)) => CookieRoute(c) == id
    case AddressFlowsBut(_, All, skip) => CookieAddress(c) !in skip && 0 < CookieAddress(c) <= UINT16_MAX
    case AddressFlowsBut(_, One(id), skip) => CookieAddress(c) !in skip && CookieAddress(c) == id
  }

  function WithoutRoutes(routes: Routes, ids: set<nat>): Routes {
    map p | p in routes && routes[p].id !in ids :: routes[p]
  }

  function DeleteRoute(r: Router, vid: Vid, listed: seq<Stat>, byCookie: bool): Router {
    if vid !in r.vlans then r
    else
      var ids := set s | s in listed :: CookieRoute(s.cookie);
      var v := r.vlans[vid];
      Cleanup(Router(r.vlans[vid := v.(routes := WithoutRoutes(v.routes, ids))],
                     DeleteListed(r.flows, vid, listed, byCookie, true)), vid)
  }

  /** _chk_addr_relation_route: the addresses some gateway lies in. */
  function Related(v: Vlan, which: Which): set<nat> {
    set p, q | p in v.addrs && q in v.routes && Within(v.routes[q].gateway, p)
               && (which == All || which == One(v.addrs[p].id)) :: v.addrs[p].id
  }

  function AddressFilter(r: Router, vid: Vid, which: Which): Filter {
    AddressFlowsBut(vid, which, if vid in r.vlans then Related(r.vlans[vid], which) else {})
  }

  function WithoutAddresses(addrs: Addresses, ids: set<nat>): Addresses {
    map p | p in addrs && addrs[p].id !in ids :: addrs[p]
  }

  function DeleteAddress(r: Router, vid: Vid, listed: seq<Stat>, byCookie: bool): Router {
    if vid !in r.vlans then r
    else
      var ids := set s | s in listed :: CookieAddress(s.cookie);
      var v := r.vlans[vid];
      Cleanup(Router(r.vlans[vid := v.(addrs := WithoutAddresses(v.addrs, ids))],
                     DeleteListed(r.flows, vid, listed, byCookie, false)), vid)
  }

  // --------------------------------------------------------------- ARP packets

  predicate IsGateway(routes: Routes, ip: Ip) {
    exists p | p in routes :: routes[p].gateway == ip
  }

  function LearnRoutes(routes: Routes, ip: Ip, mac: Mac): Routes {
    map p | p in routes :: if routes[p].gateway == ip then routes[p].(mac := Some(mac)) else routes[p]
  }

  /** The flows an ARP from a gateway rewrites: those of its routes that did not
      know its MAC address yet. */
  function Relearned(vid: Vid, routes: Routes, ip: Ip, mac: Mac, port: nat): Table {
    map fk | fk in StaleKeys(vid, routes, ip, mac) && RoutedBy(fk) in routes ::
      Flow(RouteCookie(vid, routes[RoutedBy(fk)].id), Forward(port, mac))
  }

  function StaleKeys(vid: Vid, routes: Routes, ip: Ip, mac: Mac): set<FlowKey> {
    set p | p in routes && routes[p].gateway == ip && routes[p].mac != Some(mac) :: RouteKey(vid, p, routes[p].isStatic)
  }

  function RoutedBy(fk: FlowKey): Prefix {
    if fk.pattern.IpMatch? then fk.pattern.dst.GetOr(DEFAULT) else DEFAULT
  }

  /** _packetin_arp, as far as it changes routes and flows. */
  ghost function ArpPacket(r: Router, vid: Vid, ip: Ip, mac: Mac, port: nat): Router {
    if vid !in r.vlans || SubnetOf(r.vlans[vid].addrs, ip) == None then r
    else
      var v := r.vlans[vid];
      if IsGateway(v.routes, ip) then
        Router(r.vlans[vid := v.(routes := LearnRoutes(v.routes, ip, mac))],
               r.flows + Relearned(vid, v.routes, ip, mac, port))
      else
        var c := AddressCookie(vid, v.addrs[SubnetOf(v.addrs, ip).value].id);
        r.(flows := r.flows[HostKey(vid, ip) := Flow(c, Forward(port, mac))])
  }

  // -------------------------------------------------------------------- steps

  datatype Step =
    | SetAddr(vid: Vid, gw: Ip, mask: int)
    | SetRt(vid: Vid, dest: Dest, gateway: Ip)
    | DelAddr(vid: Vid, which: Which, listed: seq<Stat>, byCookie: bool)
    | DelRt(vid: Vid, which: Which, listed: seq<Stat>, byCookie: bool)
    | ArpSeen(vid: Vid, ip: Ip, mac: Mac, port: nat)
    | HostExpired(vid: Vid, ip: Ip)

  ghost function After(r: Router, step: Step): Router {
    match step
    case SetAddr(vid, gw, mask) => SetAddress(r, vid, gw, mask).0
    case SetRt(vid, dest, gateway) => SetRoute(r, vid, dest, gateway).0
    case DelAddr(vid, _, listed, byCookie) => DeleteAddress(r, vid, listed, byCookie)
    case DelRt(vid, _, listed, byCookie) => DeleteRoute(r, vid, listed, byCookie)
    case ArpSeen(vid, ip, mac, port) => ArpPacket(r, vid, ip, mac, port)
    case HostExpired(vid, ip) => r.(flows := r.flows - {HostKey(vid, ip)})
  }

  /** The statistics replies are complete. */
  ghost predicate Possible(r: Router, step: Step) {
    match step
    case DelAddr(vid, which, listed, _) => Lists(r.flows, listed, AddressFilter(r, vid, which))
    case DelRt(vid, which, listed, _) => Lists(r.flows, listed, RouteFlows(vid, which))
    case _ => true
  }

  // --------------------------------------------------------------- invariant

  /** The routers' data: canonical keys, distinct 16-bit ids, pairwise disjoint
      subnets, and every gateway inside one of them. */
  ghost predicate VlanOk(v: Vlan) {
    && (forall p | p in v.addrs :: AddressOk(v, p))
    && (forall p | p in v.routes :: RouteOk(v, p))
    && (forall p, q | p in v.addrs && q in v.addrs && p != q :: !Overlap(p, q) && v.addrs[p].id != v.addrs[q].id)
    && (forall p, q | p in v.routes && q in v.routes && p != q :: v.routes[p].id != v.routes[q].id)
    && 1 <= v.nextAddr <= UINT16_MAX + 1 && 1 <= v.nextRoute <= UINT16_MAX + 1
  }

  ghost predicate AddressOk(v: Vlan, p: Prefix)
    requires p in v.addrs
  {
    && Legal(p.mask) && p.mask >= 1 && p == PrefixOf(v.addrs[p].gw, p.mask)
    && 1 <= v.addrs[p].id < v.nextAddr
  }

  ghost predicate RouteOk(v: Vlan, p: Prefix)
    requires p in v.routes
  {
    && Legal(p.mask) && PrefixOf(p.nw, p.mask) == p && (!v.routes[p].isStatic ==> p == DEFAULT)
    && 1 <= v.routes[p].id < v.nextRoute
    && exists q :: q in v.addrs && Within(v.routes[p].gateway, q)
  }

  predicate RouteRow(vid: Vid, route: Route, f: Flow) {
    && f.cookie == RouteCookie(vid, route.id)
    && match route.mac
       case None => f.action == PacketIn
       case Some(mac) => f.action.Forward? && f.action.dstMac == mac
  }

  predicate DefaultSet(v: Vlan) {
    DEFAULT in v.routes && !v.routes[DEFAULT].isStatic
  }

  /** Flows that must be there. */
  predicate Due(r: Router, o: Origin) {
    match o
    case Arp => true
    case L2 => true
    case Default(vid) => vid in r.vlans
    case Static(vid, p) => vid in r.vlans && p in r.vlans[vid].routes && r.vlans[vid].routes[p].isStatic
    case Learn(vid, p) => vid in r.vlans && p in r.vlans[vid].addrs
    case Switch(vid, p) => vid in r.vlans && p in r.vlans[vid].addrs
    case Handle(vid, gw) => vid in r.vlans && exists p | p in r.vlans[vid].addrs :: r.vlans[vid].addrs[p].gw == gw
    case Host(_, _) => false
  }

  /** What a flow that is there must be. */
  ghost predicate RowOk(r: Router, o: Origin, f: Flow) {
    match o
    case Arp => f == Flow(0, PacketIn)
    case L2 => f == Flow(0, Normal)
    case Default(vid) =>
      vid in r.vlans &&
      if DefaultSet(r.vlans[vid]) then RouteRow(vid, r.vlans[vid].routes[DEFAULT], f) else f == DropFlow(vid)
    case Static(vid, p) => vid in r.vlans && p in r.vlans[vid].routes && RouteRow(vid, r.vlans[vid].routes[p], f)
    case Learn(vid, p) =>
      vid in r.vlans && p in r.vlans[vid].addrs && f == Flow(AddressCookie(vid, r.vlans[vid].addrs[p].id), PacketIn)
    case Switch(vid, p) =>
      vid in r.vlans && p in r.vlans[vid].addrs && f == Flow(AddressCookie(vid, r.vlans[vid].addrs[p].id), Normal)
    case Handle(vid, gw) =>
      vid in r.vlans &&
      (exists p :: p in r.vlans[vid].addrs && r.vlans[vid].addrs[p].gw == gw
                   && f == Flow(AddressCookie(vid, r.vlans[vid].addrs[p].id), PacketIn))
    case Host(vid, ip) =>
      vid in r.vlans && f.action.Forward? &&
      (exists p :: p in r.vlans[vid].addrs && Within(ip, p)
                   && f.cookie == AddressCookie(vid, r.vlans[vid].addrs[p].id))
  }

  /** One match and priority: nothing unexplained, nothing missing, nothing
      other than it should be. */
  ghost predicate KeyOk(r: Router, fk: FlowKey) {
    match OriginOf(fk)
    case None => fk !in r.flows
    case Some(o) => (o.Host? || (fk in r.flows <==> Due(r, o))) && (fk in r.flows ==> RowOk(r, o, r.flows[fk]))
  }

  ghost predicate RouterOk(r: Router) {
    && 0 in r.vlans
    && (forall vid | vid in r.vlans :: ValidVid(vid) && VlanOk(r.vlans[vid]))
    && (forall fk :: KeyOk(r, fk))
  }

  lemma StartOk()
    ensures RouterOk(START)
  {
    CookiesRoundTrip(0, 0);
  }

  // ------------------------------------------------------- small facts

  /** In good data an address has one subnet, so a lookup does not depend on the
      order of the dictionary. */
  lemma SubnetUnique(v: Vlan, ip: Ip, p: Prefix)
    requires VlanOk(v) && p in v.addrs && Within(ip, p)
    ensures SubnetOf(v.addrs, ip) == Some(p)
  {
    hide ApplyMask, AddressOk, RouteOk;
    var q := SubnetOf(v.addrs, ip).value;
    assert Overlap(p, q);
  }

  // -------------------------------------------------- what cookies give away

  ghost predicate TellsRoute(vid: Vid, id: nat, c: Cookie) {
    c == RouteCookie(vid, id) && CookieVid(c) == vid && CookieRoute(c) == id && CookieAddress(c) == id * 0x1_0000
  }

  ghost predicate TellsAddress(vid: Vid, id: nat, c: Cookie) {
    c == AddressCookie(vid, id) && CookieVid(c) == vid && CookieRoute(c) == 0 && CookieAddress(c) == id
  }

  ghost predicate TellsNothing(vid: Vid, c: Cookie) {
    c == VlanCookie(vid) && CookieVid(c) == vid && CookieRoute(c) == 0 && CookieAddress(c) == 0
  }

  ghost predicate TellsHolder(v: Vlan, vid: Vid, o: Origin, c: Cookie) {
    exists p :: p in v.addrs && TellsAddress(vid, v.addrs[p].id, c) && BelongsTo(v, o, p)
  }

  /** The flow is one of those of subnet `p`. */
  predicate BelongsTo(v: Vlan, o: Origin, p: Prefix)
    requires p in v.addrs
  {
    match o
    case Learn(_, q) => q == p
    case Switch(_, q) => q == p
    case Handle(_, gw) => v.addrs[p].gw == gw
    case Host(_, ip) => Within(ip, p)
    case _ => false
  }

  ghost predicate Tells(r: Router, o: Origin, c: Cookie) {
    match o
    case Arp => TellsNothing(0, c)
    case L2 => TellsNothing(0, c)
    case Default(vid) =>
      vid in r.vlans &&
      if DefaultSet(r.vlans[vid]) then TellsRoute(vid, r.vlans[vid].routes[DEFAULT].id, c) else TellsNothing(vid, c)
    case Static(vid, p) => vid in r.vlans && p in r.vlans[vid].routes && TellsRoute(vid, r.vlans[vid].routes[p].id, c)
    case _ => o.vid in r.vlans && TellsHolder(r.vlans[o.vid], o.vid, o, c)
  }

  /** Each flow's cookie gives away the VLAN, and which route or address. */
  lemma CookieTells(r: Router, fk: FlowKey)
    requires RouterOk(r) && fk in r.flows
    ensures OriginOf(fk).Some? && fk == KeyOf(OriginOf(fk).value) && Tells(r, OriginOf(fk).value, r.flows[fk].cookie)
  {
    hide ApplyMask, RouteCookie, AddressCookie, VlanCookie, CookieVid, CookieAddress, CookieRoute, OriginOf, KeyOf;
    assert KeyOk(r, fk);
    var o, f := OriginOf(fk).value, r.flows[fk];
    OriginsKey(fk);
    match o
    case Arp => NothingTold(0);
    case L2 => NothingTold(0);
    case Default(vid) =>
      if DefaultSet(r.vlans[vid]) { RouteTold(r.vlans[vid], vid, DEFAULT); } else { NothingTold(vid); }
    case Static(vid, p) => RouteTold(r.vlans[vid], vid, p);
    case _ =>
      var p :| p in r.vlans[o.vid].addrs && f.cookie == AddressCookie(o.vid, r.vlans[o.vid].addrs[p].id)
               && BelongsTo(r.vlans[o.vid], o, p);
      AddressTold(r.vlans[o.vid], o.vid, p);
  }

  lemma OriginsKey(fk: FlowKey)
    requires OriginOf(fk).Some?
    ensures fk == KeyOf(OriginOf(fk).value) && Proper(OriginOf(fk).value)
  {
  }

  lemma NothingTold(vid: Vid)
    ensures TellsNothing(vid, VlanCookie(vid)) && VlanCookie(0) == 0
  {
    CookiesRoundTrip(vid, 0);
  }

  lemma RouteTold(v: Vlan, vid: Vid, p: Prefix)
    requires VlanOk(v) && p in v.routes
    ensures TellsRoute(vid, v.routes[p].id, RouteCookie(vid, v.routes[p].id))
  {
    hide ApplyMask, AddressOk;
    assert RouteOk(v, p);
    CookiesRoundTrip(vid, v.routes[p].id);
    CookiesApart(vid, v.routes[p].id, vid, v.routes[p].id);
  }

  lemma AddressTold(v: Vlan, vid: Vid, p: Prefix)
    requires VlanOk(v) && p in v.addrs
    ensures TellsAddress(vid, v.addrs[p].id, AddressCookie(vid, v.addrs[p].id))
  {
    hide ApplyMask, RouteOk;
    assert AddressOk(v, p);
    CookiesRoundTrip(vid, v.addrs[p].id);
    CookiesApart(vid, v.addrs[p].id, vid, v.addrs[p].id);
  }
}
