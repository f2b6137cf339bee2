/** Priorities, cookies and flow rows of app/rest_router.py. */
module RouterFlows {
  import opened Wrappers
  import opened Prefixes

  type Vid = nat
  type Mac = nat
  type Cookie = nat

  const UINT16_MAX := 0xffff
  const UINT32 := 0x1_0000_0000

  // -------------------------------------------------------------- priorities

  const PRIORITY_VLAN_SHIFT := 1000
  const PRIORITY_NETMASK_SHIFT := 32
  const PRIORITY_NORMAL := 0
  const PRIORITY_ARP_HANDLING := 1
  const PRIORITY_DEFAULT_ROUTING := 1
  const PRIORITY_MAC_LEARNING := 2
  const PRIORITY_STATIC_ROUTING := 2
  const PRIORITY_IMPLICIT_ROUTING := 3
  const PRIORITY_L2_SWITCHING := 4
  const PRIORITY_IP_HANDLING := 5

  /** get_priority for every type but a route. */
  function GetPriority(kind: nat, vid: Vid): nat {
    kind + (if vid != 0 || kind == PRIORITY_IP_HANDLING then PRIORITY_VLAN_SHIFT else 0)
    + (if kind > PRIORITY_STATIC_ROUTING then PRIORITY_NETMASK_SHIFT else 0)
  }

  /** get_priority for a route: a static one adds its mask length. */
  function RoutePriority(isStatic: bool, mask: nat, vid: Vid): nat {
    (if isStatic then PRIORITY_STATIC_ROUTING + mask else PRIORITY_DEFAULT_ROUTING)
    + (if vid != 0 then PRIORITY_VLAN_SHIFT else 0)
  }

  /** get_priority_type. */
  function GetPriorityType(priority: nat, vid: Vid): int {
    if vid != 0 then priority - PRIORITY_VLAN_SHIFT else priority
  }

  // ----------------------------------------------------------------- cookies

  function AddressCookie(vid: Vid, id: nat): Cookie { vid * UINT32 + id }

  function RouteCookie(vid: Vid, id: nat): Cookie { vid * UINT32 + id * 0x1_0000 }

  function VlanCookie(vid: Vid): Cookie { vid * UINT32 }

  function CookieVid(c: Cookie): nat { c / UINT32 }

  function CookieAddress(c: Cookie): nat { c % UINT32 }

  function CookieRoute(c: Cookie): nat { c % UINT32 / 0x1_0000 }

  /** An address id comes back from its cookie exactly when it has 32 bits, a
      route id exactly when it has 16. */
  lemma CookiesRoundTrip(vid: Vid, id: nat)
    ensures CookieVid(AddressCookie(vid, id)) == vid && CookieAddress(AddressCookie(vid, id)) == id <==> id < UINT32
    ensures CookieVid(RouteCookie(vid, id)) == vid && CookieRoute(RouteCookie(vid, id)) == id <==> id <= UINT16_MAX
    ensures CookieVid(VlanCookie(vid)) == vid && CookieAddress(VlanCookie(vid)) == 0 && CookieRoute(VlanCookie(vid)) == 0
  {
    if id < UINT32 {
      QuotientAndRest(vid, id);
    }
    if id <= UINT16_MAX {
      QuotientAndRest(vid, id * 0x1_0000);
    } else {
      assert RouteCookie(vid, id) % UINT32 < UINT32;
    }
    QuotientAndRest(vid, 0);
  }

  lemma QuotientAndRest(q: nat, r: nat)
    requires r < UINT32
    ensures (q * UINT32 + r) / UINT32 == q && (q * UINT32 + r) % UINT32 == r
  {
  }

  /** Address, route and VLAN cookies never coincide, within one VLAN or across
      VLANs, while ids stay within 16 bits. */
  lemma CookiesApart(v: Vid, i: nat, w: Vid, j: nat)
    requires 1 <= i <= UINT16_MAX && 1 <= j <= UINT16_MAX
    ensures AddressCookie(v, i) == AddressCookie(w, j) ==> v == w && i == j
    ensures RouteCookie(v, i) == RouteCookie(w, j) ==> v == w && i == j
    ensures AddressCookie(v, i) != RouteCookie(w, j) && VlanCookie(w) != AddressCookie(v, i)
    ensures VlanCookie(w) != RouteCookie(v, i)
    ensures CookieRoute(AddressCookie(v, i)) == 0 && CookieAddress(RouteCookie(v, i)) == i * 0x1_0000
  {
    QuotientAndRest(v, i);
    QuotientAndRest(w, j);
    QuotientAndRest(v, i * 0x1_0000);
    QuotientAndRest(w, j * 0x1_0000);
    QuotientAndRest(w, 0);
  }

  /** One bit more and a cookie is read back as something else: address id
      0x10000 as route 1, route id 0x10000 as another VLAN. */
  lemma CookiesOverflow(vid: Vid)
    ensures AddressCookie(vid, 0x1_0000) == RouteCookie(vid, 1)
    ensures RouteCookie(vid, 0x1_0000) == VlanCookie(vid + 1)
  {
  }

  // -------------------------------------------------------------------- flows

  /** Ip matches carry dl_type IP; VLAN 0 leaves the tag a wildcard. */
  datatype Match = ArpMatch | AnyMatch | IpMatch(vid: Vid, src: Option<Prefix>, dst: Option<Prefix>)

  datatype FlowKey = FlowKey(pattern: Match, priority: nat)

  datatype Action = Drop | PacketIn | Normal | Forward(port: nat, dstMac: Mac)

  datatype Flow = Flow(cookie: Cookie, action: Action)

  type Table = map<FlowKey, Flow>

  const DEFAULT := Prefix(0, 0)

  function DefaultKey(vid: Vid): FlowKey {
    FlowKey(IpMatch(vid, None, None), GetPriority(PRIORITY_DEFAULT_ROUTING, vid))
  }

  /** The flow of a route; a default route matches every IP packet. */
  function RouteKey(vid: Vid, p: Prefix, isStatic: bool): FlowKey {
    FlowKey(IpMatch(vid, None, if isStatic then Some(p) else None), RoutePriority(isStatic, p.mask, vid))
  }

  function LearnKey(vid: Vid, p: Prefix): FlowKey {
    FlowKey(IpMatch(vid, None, Some(p)), GetPriority(PRIORITY_MAC_LEARNING, vid))
  }

  function HandleKey(vid: Vid, gw: Ip): FlowKey {
    FlowKey(IpMatch(vid, None, Some(Prefix(gw, 32))), GetPriority(PRIORITY_IP_HANDLING, vid))
  }

  function SwitchKey(vid: Vid, p: Prefix): FlowKey {
    FlowKey(IpMatch(vid, Some(p), Some(p)), GetPriority(PRIORITY_L2_SWITCHING, vid))
  }

  function HostKey(vid: Vid, ip: Ip): FlowKey {
    FlowKey(IpMatch(vid, None, Some(Prefix(ip, 32))), GetPriority(PRIORITY_IMPLICIT_ROUTING, vid))
  }

  const ARP_KEY := FlowKey(ArpMatch, PRIORITY_ARP_HANDLING)
  const NORMAL_KEY := FlowKey(AnyMatch, PRIORITY_NORMAL)

  function DropFlow(vid: Vid): Flow { Flow(VlanCookie(vid), Drop) }

  /** What a flow of the router is for, read off its match and priority. */
  datatype Origin =
    | Arp | L2
    | Default(vid: Vid) | Static(vid: Vid, p: Prefix)
    | Learn(vid: Vid, p: Prefix) | Handle(vid: Vid, gw: Ip) | Switch(vid: Vid, p: Prefix)
    | Host(vid: Vid, ip: Ip)

  function KeyOf(o: Origin): FlowKey {
    match o
    case Arp => ARP_KEY
    case L2 => NORMAL_KEY
    case Default(v) => DefaultKey(v)
    case Static(v, p) => RouteKey(v, p, true)
    case Learn(v, p) => LearnKey(v, p)
    case Handle(v, gw) => HandleKey(v, gw)
    case Switch(v, p) => SwitchKey(v, p)
    case Host(v, ip) => HostKey(v, ip)
  }

  predicate Proper(o: Origin) {
    match o
    case Static(_, p) => Legal(p.mask)
    case Learn(_, p) => Legal(p.mask) && p.mask >= 1
    case Switch(_, p) => Legal(p.mask)
    case _ => true
  }

  function OriginOf(fk: FlowKey): Option<Origin> {
    match fk.pattern
    case ArpMatch => if fk == ARP_KEY then Some(Arp) else None
    case AnyMatch => if fk == NORMAL_KEY then Some(L2) else None
    case IpMatch(v, src, None) => if fk == DefaultKey(v) then Some(Default(v)) else None
    case IpMatch(v, src, Some(p)) =>
      if !Legal(p.mask) then None
      else if fk == RouteKey(v, p, true) then Some(Static(v, p))
      else if p.mask >= 1 && fk == LearnKey(v, p) then Some(Learn(v, p))
      else if fk == SwitchKey(v, p) then Some(Switch(v, p))
      else if p.mask == 32 && fk == HandleKey(v, p.nw) then Some(Handle(v, p.nw))
      else if p.mask == 32 && fk == HostKey(v, p.nw) then Some(Host(v, p.nw))
      else None
  }

  /** No two purposes share a match and priority, so an ADD for one never
      overwrites another's flow. */
  lemma OneOriginPerKey(o: Origin, fk: FlowKey)
    requires Proper(o)
    ensures KeyOf(o) == fk <==> OriginOf(fk) == Some(o)
  {
  }
}
