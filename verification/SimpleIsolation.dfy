/** MAC isolation by packet-in (app/simple_isolation.py, with
    controller/mac_to_network.py, controller/mac_to_port.py and the two lookups
    of controller/network.py). */
module SimpleIsolation {
  import opened Wrappers
  import opened TenantStore

  /** Which network each known port is in; the port's own entry in the store. */
  type Nets = map<PortId, NetworkId>

  /** In-port, source, destination. */
  datatype Match = Match(inPort: PortNo, src: Mac, dst: Mac)

  /** A flow outputs to a set of ports; none means drop. */
  type Table = map<Match, set<PortNo>>

  type MacNets = map<Mac, NetworkId>
  type MacPorts = map<Dpid, map<Mac, PortNo>>

  /** Every switch that has joined has an entry in `macPorts` and in `flows`. */
  datatype World = World(nets: Nets, macNets: MacNets, macPorts: MacPorts, flows: map<Dpid, Table>)

  const START := World(map[], map[], map[], map[])

  function NetAt(nets: Nets, d: Dpid, p: PortNo): NetworkId {
    if PortId(d, p) in nets then nets[PortId(d, p)] else Unknown
  }

  function NetOf(macNets: MacNets, m: Mac): NetworkId {
    if m in macNets then macNets[m] else Unknown
  }

  // ------------------------------------------------------------- MAC tables

  /** MacToNetwork.add_mac; None is MacAddressDuplicated. */
  function BindMac(macNets: MacNets, m: Mac, n: NetworkId): Option<MacNets> {
    if m in macNets && macNets[m] == n then Some(macNets)
    else if m !in macNets || macNets[m] == External then Some(macNets[m := n])
    else if n == External then Some(macNets)
    else None
  }

  /** same_network with the external network let through. */
  predicate SameNetwork(nets: Nets, d: Dpid, n: NetworkId, out: PortNo) {
    NetAt(nets, d, out) == n || n == External || NetAt(nets, d, out) == External
  }

  /** filter_ports: the switch's ports of a network or the external one. */
  function FilterPorts(nets: Nets, d: Dpid, inPort: PortNo, n: NetworkId): set<PortNo> {
    set at | at in nets && at.dpid == d && at.port != inPort && (nets[at] == n || nets[at] == External) :: at.port
  }

  // -------------------------------------------------------------- packet-in

  /** What the handler's branches lead to.  `Impossible` is an assertion that
      fails or a branch for a source of no network. */
  datatype Verdict = Flood | ToLearned(port: PortNo) | InstallDrop | DropPacket | Impossible

  function Learned(out: Option<PortNo>): Verdict {
    match out case Some(p) => ToLearned(p) case None => Flood
  }

  function Decide(portNet: NetworkId, srcNet: NetworkId, dstNet: NetworkId, broadcast: bool, out: Option<PortNo>): Verdict {
    if portNet != External && portNet != Unknown then
      if broadcast then (if srcNet == Unknown then Impossible else Flood)
      else if srcNet == External || srcNet == Unknown then Impossible
      else Learned(out)
    else if portNet == External then
      if srcNet != External && srcNet != Unknown then
        if broadcast then Flood
        else if dstNet != External && dstNet != Unknown then (if srcNet == dstNet then Learned(out) else DropPacket)
        else if dstNet == External then Learned(out)
        else DropPacket
      else if srcNet == External then InstallDrop
      else Impossible
    else DropPacket
  }

  /** The stale flows towards a MAC that moved to another port. */
  function Unlearn(t: Table, m: Mac, oldPort: Option<PortNo>, inPort: PortNo): Table {
    if oldPort == None || oldPort == Some(inPort) then t
    else map k | k in t && !(k.dst == m && oldPort.value in t[k]) :: t[k]
  }

  /** MacToPortTable.port_add. */
  function Place(ports: map<Mac, PortNo>, m: Mac, p: PortNo): map<Mac, PortNo> { ports[m := p] }

  /** The handler up to its branches; None is a packet dropped for a MAC in use
      elsewhere. */
  function Learn(w: World, d: Dpid, inPort: PortNo, src: Mac): Option<World>
    requires d in w.macPorts && d in w.flows
  {
    var portNet := NetAt(w.nets, d, inPort);
    var added := if portNet != Unknown then BindMac(w.macNets, src, portNet) else Some(w.macNets);
    if added == None then None
    else
      var was := if src in w.macPorts[d] then Some(w.macPorts[d][src]) else None;
      Some(w.(macNets := added.value,
              macPorts := w.macPorts[d := Place(w.macPorts[d], src, inPort)],
              flows := w.flows[d := Unlearn(w.flows[d], src, was, inPort)]))
  }

  function VerdictOf(w: World, d: Dpid, inPort: PortNo, src: Mac, dst: Mac, broadcast: bool): Verdict
    requires d in w.macPorts
  {
    Decide(NetAt(w.nets, d, inPort), NetOf(w.macNets, src), NetOf(w.macNets, dst), broadcast,
           if dst in w.macPorts[d] then Some(w.macPorts[d][dst]) else None)
  }

  /** The flow that is installed, if any. */
  function Installed(w: World, d: Dpid, inPort: PortNo, src: Mac, dst: Mac, broadcast: bool): Option<set<PortNo>>
    requires d in w.macPorts
  {
    var n := NetOf(w.macNets, src);
    match VerdictOf(w, d, inPort, src, dst, broadcast)
    case Flood => Some(FilterPorts(w.nets, d, inPort, n))
    case ToLearned(p) => if SameNetwork(w.nets, d, n, p) then Some({p}) else None
    case InstallDrop => Some({})
    case _ => None
  }

  function PacketIn(w: World, d: Dpid, inPort: PortNo, src: Mac, dst: Mac, broadcast: bool): World {
    if d !in w.macPorts || d !in w.flows then w
    else match Learn(w, d, inPort, src)
         case None => w
         case Some(w') =>
           match Installed(w', d, inPort, src, dst, broadcast)
           case None => w'
           case Some(outs) => w'.(flows := w'.flows[d := w'.flows[d][Match(inPort, src, dst) := outs]])
  }

  // -------------------------------------------------------------- port status

  /** _port_add: all flows of the switch go. */
  function PortAdd(w: World, d: Dpid, p: PortNo): World {
    var nets := if p == 0 || p >= OFPP_MAX || PortId(d, p) in w.nets then w.nets else w.nets[PortId(d, p) := Unknown];
    w.(nets := nets, flows := if d in w.flows then w.flows[d := map[]] else w.flows)
  }

  function WithoutPort(t: Table, p: PortNo): Table {
    map k | k in t && k.inPort != p && p !in t[k] :: t[k]
  }

  function WithoutMac(t: Table, m: Mac): Table {
    map k | k in t && k.src != m && k.dst != m :: t[k]
  }

  /** Forgetting a MAC on every switch that had learned it. */
  function ForgetMac(w: World, m: Mac): World {
    w.(flows := map d | d in w.flows :: if d in w.macPorts && m in w.macPorts[d] then WithoutMac(w.flows[d], m) else w.flows[d],
       macPorts := map d | d in w.macPorts :: w.macPorts[d] - {m})
  }

  /** The loop of _port_del over the MACs on the port; it raises, and leaves the
      rest undone, at a MAC that never got a network. */
  function ForgetMacs(w: World, ms: seq<Mac>): (World, bool)
    decreases |ms|
  {
    if ms == [] then (w, true)
    else
      var w := ForgetMac(w, ms[0]);
      if ms[0] !in w.macNets then (w, false) else ForgetMacs(w.(macNets := w.macNets - {ms[0]}), ms[1..])
  }

  function PortDel(w: World, d: Dpid, p: PortNo, ms: seq<Mac>): World {
    if d !in w.flows then w
    else
      var w := w.(flows := w.flows[d := WithoutPort(w.flows[d], p)]);
      if PortId(d, p) in w.nets && (w.nets[PortId(d, p)] == Unknown || w.nets[PortId(d, p)] == External) then w
      else
        var (w, ok) := ForgetMacs(w, ms);
        if ok then w.(nets := w.nets - {PortId(d, p)}) else w
  }

  /** The real ports the store has not seen. */
  function NewPorts(nets: Nets, d: Dpid, ports: set<PortNo>): set<PortId> {
    set p | p in ports && p != 0 && p < OFPP_MAX && PortId(d, p) !in nets :: PortId(d, p)
  }

  function JoinedNets(nets: Nets, d: Dpid, ports: set<PortNo>): Nets {
    nets + map at | at in NewPorts(nets, d, ports) :: Unknown
  }

  lemma JoinedAt(nets: Nets, d: Dpid, ports: set<PortNo>, at: PortId)
    ensures var joined := JoinedNets(nets, d, ports);
            && (at in joined <==> at in nets || (at.dpid == d && at.port in ports && at.port != 0 && at.port < OFPP_MAX))
            && (at in joined ==> joined[at] == if at in nets then nets[at] else Unknown)
  {
    assert at == PortId(at.dpid, at.port);
    assert at in NewPorts(nets, d, ports) <==> at.dpid == d && at.port in ports && at.port != 0 && at.port < OFPP_MAX && at !in nets;
  }

  lemma OnePortJoins(nets: Nets, d: Dpid, ports: set<PortNo>, p: PortNo)
    ensures JoinedNets(nets, d, {}) == nets
    ensures var joined := JoinedNets(nets, d, ports);
            JoinedNets(nets, d, ports + {p}) ==
              if p != 0 && p < OFPP_MAX && PortId(d, p) !in joined then joined[PortId(d, p) := Unknown] else joined
  {
    hide JoinedNets;
    var none, joined, more := JoinedNets(nets, d, {}), JoinedNets(nets, d, ports), JoinedNets(nets, d, ports + {p});
    var expected := if p != 0 && p < OFPP_MAX && PortId(d, p) !in joined then joined[PortId(d, p) := Unknown] else joined;
    JoinedAt(nets, d, ports, PortId(d, p));
    forall at ensures at in none <==> at in nets
              ensures at in nets ==> none[at] == nets[at] { JoinedAt(nets, d, {}, at); }
    forall at ensures at in more <==> at in expected
              ensures at in more ==> more[at] == expected[at]
    {
      JoinedAt(nets, d, ports, at);
      JoinedAt(nets, d, ports + {p}, at);
      assert at == PortId(at.dpid, at.port);
    }
  }

  /** switch_features_handler. */
  function SwitchJoins(w: World, d: Dpid, ports: set<PortNo>): World {
    World(JoinedNets(w.nets, d, ports), w.macNets,
          if d in w.macPorts then w.macPorts else w.macPorts[d := map[]], w.flows[d := map[]])
  }

  // ------------------------------------------------------------------- steps

  /** Bind and Unbind are what requests to the store do to a port. */
  datatype Step =
    | Packet(d: Dpid, inPort: PortNo, src: Mac, dst: Mac, broadcast: bool)
    | Appears(d: Dpid, p: PortNo)
    | Vanishes(d: Dpid, p: PortNo, ms: seq<Mac>)
    | Joins(d: Dpid, ports: set<PortNo>)
    | Bind(at: PortId, n: NetworkId)
    | Unbind(at: PortId)

  function After(w: World, step: Step): World {
    match step
    case Packet(d, inPort, src, dst, broadcast) => PacketIn(w, d, inPort, src, dst, broadcast)
    case Appears(d, p) => PortAdd(w, d, p)
    case Vanishes(d, p, ms) => PortDel(w, d, p, ms)
    case Joins(d, ports) => SwitchJoins(w, d, ports)
    case Bind(at, n) => w.(nets := w.nets[at := n])
    case Unbind(at) => w.(nets := w.nets - {at})
  }

  /** The MACs a switch has learned on a port. */
  function MacList(macPorts: MacPorts, d: Dpid, p: PortNo): set<Mac> {
    if d in macPorts then set m | m in macPorts[d] && macPorts[d][m] == p else {}
  }

  /** No flow outputs to the port for a source of another network. */
  predicate Bindable(w: World, at: PortId, n: NetworkId) {
    n == External || (at.dpid in w.flows ==>
      forall k | k in w.flows[at.dpid] && at.port in w.flows[at.dpid][k] :: NetOf(w.macNets, k.src) == n)
  }

  /** A port gets a network only when no flow is in the way, and a port's deletion
      goes through the MACs learned on it. */
  predicate Allowed(w: World, step: Step) {
    match step
    case Bind(at, n) => Bindable(w, at, n)
    case Vanishes(d, p, ms) => multiset(ms) == multiset(MacList(w.macPorts, d, p))
    case _ => true
  }

  // -------------------------------------------------------------- invariants

  /** A flow outputs only to ports of the source MAC's network or the external
      one (or to a port that is gone from the store but not yet from the switch),
      and the switch knows the source. */
  predicate FlowSafe(w: World, d: Dpid, k: Match, outs: set<PortNo>) {
    outs != {} ==>
      && NetOf(w.macNets, k.src) != Unknown && NetOf(w.macNets, k.src) != External
      && (forall p | p in outs :: PortId(d, p) in w.nets ==> w.nets[PortId(d, p)] == NetOf(w.macNets, k.src) || w.nets[PortId(d, p)] == External)
  }

  predicate RowSafe(w: World, d: Dpid, k: Match) {
    d in w.flows && k in w.flows[d] ==>
      FlowSafe(w, d, k, w.flows[d][k]) && d in w.macPorts && k.src in w.macPorts[d]
  }

  ghost predicate FlowsSafe(w: World) {
    && w.flows.Keys == w.macPorts.Keys
    && (forall d, k :: RowSafe(w, d, k))
    && (forall m | m in w.macNets :: w.macNets[m] != Unknown)
  }

  lemma StartSafe()
    ensures FlowsSafe(START)
  {
  }

  /** Learning binds the source unless its port has no network. */
  lemma LearnBinds(w: World, d: Dpid, inPort: PortNo, src: Mac)
    requires FlowsSafe(w) && d in w.flows && Learn(w, d, inPort, src).Some?
    ensures var w', n := Learn(w, d, inPort, src).value, NetAt(w.nets, d, inPort);
            && (n == Unknown ==> w'.macNets == w.macNets)
            && (n == External ==> NetOf(w'.macNets, src) != Unknown)
            && (n != Unknown && n != External ==> NetOf(w'.macNets, src) == n)
  {
  }

  /** No assertion fails and no branch for a source of no network is taken. */
  lemma NothingImpossible(w: World, d: Dpid, inPort: PortNo, src: Mac, dst: Mac, broadcast: bool)
    requires FlowsSafe(w) && d in w.flows && Learn(w, d, inPort, src).Some?
    ensures VerdictOf(Learn(w, d, inPort, src).value, d, inPort, src, dst, broadcast) != Impossible
  {
    hide Learn;
    var w' := Learn(w, d, inPort, src).value;
    LearnBinds(w, d, inPort, src);
    LearnSame(w, d, inPort, src);
  }

  lemma LearnSame(w: World, d: Dpid, inPort: PortNo, src: Mac)
    requires d in w.macPorts && d in w.flows && Learn(w, d, inPort, src).Some?
    ensures var w' := Learn(w, d, inPort, src).value;
            && w'.nets == w.nets && w'.macPorts.Keys == w.macPorts.Keys && w'.flows.Keys == w.flows.Keys
            && src in w'.macPorts[d]
  {
  }

  /** The flow a packet-in installs outputs only to ports of the source MAC's
      network or the external one. */
  lemma InstalledIsSafe(w: World, d: Dpid, inPort: PortNo, src: Mac, dst: Mac, broadcast: bool)
    requires FlowsSafe(w) && d in w.flows && Learn(w, d, inPort, src).Some?
    requires Installed(Learn(w, d, inPort, src).value, d, inPort, src, dst, broadcast).Some?
    ensures var w' := Learn(w, d, inPort, src).value;
            FlowSafe(w', d, Match(inPort, src, dst), Installed(w', d, inPort, src, dst, broadcast).value)
  {
    hide Learn;
    NothingImpossible(w, d, inPort, src, dst, broadcast);
    LearnBinds(w, d, inPort, src);
    LearnSame(w, d, inPort, src);
  }

  // --------------------------------------------- what a packet-in installs

  /** Neither external nor unknown. */
  predicate IsTenant(n: NetworkId) { n != External && n != Unknown }

  /** The source is bound to another tenant than its port's. */
  predicate InUse(w: World, d: Dpid, inPort: PortNo, src: Mac) {
    IsTenant(NetAt(w.nets, d, inPort)) && IsTenant(NetOf(w.macNets, src))
    && NetOf(w.macNets, src) != NetAt(w.nets, d, inPort)
  }

  /** The network the source is in once the packet has been looked at. */
  function SourceNet(w: World, d: Dpid, inPort: PortNo, src: Mac): NetworkId {
    if IsTenant(NetAt(w.nets, d, inPort)) then NetAt(w.nets, d, inPort)
    else if src in w.macNets then w.macNets[src]
    else NetAt(w.nets, d, inPort)
  }

  /** The port the destination was heard on, the packet's own source included. */
  function HeardOn(w: World, d: Dpid, inPort: PortNo, src: Mac, dst: Mac): Option<PortNo>
    requires d in w.macPorts
  {
    if dst == src then Some(inPort) else if dst in w.macPorts[d] then Some(w.macPorts[d][dst]) else None
  }

  function DestNet(w: World, d: Dpid, inPort: PortNo, src: Mac, dst: Mac): NetworkId {
    if dst == src then SourceNet(w, d, inPort, src) else NetOf(w.macNets, dst)
  }

  /** A packet of a tenant's source that may go on: from the tenant's own port, or
      from an external one to everybody, to the tenant, or to the outside. */
  predicate GoesOn(w: World, d: Dpid, inPort: PortNo, src: Mac, dst: Mac, broadcast: bool) {
    !InUse(w, d, inPort, src) &&
    (|| IsTenant(NetAt(w.nets, d, inPort))
     || (NetAt(w.nets, d, inPort) == External && IsTenant(SourceNet(w, d, inPort, src))
         && (broadcast || DestNet(w, d, inPort, src, dst) in {SourceNet(w, d, inPort, src), External})))
  }

  /** The port may carry packets of the network. */
  predicate Carries(w: World, d: Dpid, p: PortNo, n: NetworkId) {
    NetAt(w.nets, d, p) == n || NetAt(w.nets, d, p) == External
  }

  /** A flow that sends to a port the source is no longer on. */
  predicate Stale(w: World, d: Dpid, inPort: PortNo, src: Mac, k: Match)
    requires d in w.macPorts && d in w.flows && k in w.flows[d]
  {
    k.dst == src && src in w.macPorts[d] && w.macPorts[d][src] != inPort && w.macPorts[d][src] in w.flows[d][k]
  }

  /** What the learning part leaves. */
  lemma LearnIs(w: World, d: Dpid, inPort: PortNo, src: Mac)
    requires FlowsSafe(w) && d in w.flows
    ensures Learn(w, d, inPort, src) == None <==> InUse(w, d, inPort, src)
    ensures Learn(w, d, inPort, src).Some? ==>
              var w' := Learn(w, d, inPort, src).value;
              && w'.nets == w.nets && d in w'.macPorts && d in w'.flows
              && w'.macPorts[d] == w.macPorts[d][src := inPort]
              && NetOf(w'.macNets, src) == SourceNet(w, d, inPort, src)
              && (forall m | m != src :: NetOf(w'.macNets, m) == NetOf(w.macNets, m))
  {
  }

  /** The flows of a switch after a packet has been looked at: stale ones towards
      the source are gone, and at most the packet's own is new. */
  lemma PacketInChanges(w: World, d: Dpid, inPort: PortNo, src: Mac, dst: Mac, broadcast: bool)
    requires FlowsSafe(w) && d in w.flows && d in w.macPorts
    ensures var w' := PacketIn(w, d, inPort, src, dst, broadcast);
            if InUse(w, d, inPort, src) then w' == w
            else
              && w'.nets == w.nets && w'.flows.Keys == w.flows.Keys && d in w'.macPorts
              && w'.macPorts[d] == w.macPorts[d][src := inPort]
              && NetOf(w'.macNets, src) == SourceNet(w, d, inPort, src)
              && (forall x | x in w.flows && x != d :: w'.flows[x] == w.flows[x])
              && (forall k | k != Match(inPort, src, dst) ::
                    k in w'.flows[d] <==> k in w.flows[d] && !Stale(w, d, inPort, src, k))
              && (forall k | k != Match(inPort, src, dst) && k in w'.flows[d] :: w'.flows[d][k] == w.flows[d][k])
  {
    hide FlowsSafe, VerdictOf;
    LearnFlows(w, d, inPort, src);
    if !InUse(w, d, inPort, src) {
      var w1 := Learn(w, d, inPort, src).value;
      assert w1.flows.Keys == w.flows.Keys;
    }
  }

  lemma LearnFlows(w: World, d: Dpid, inPort: PortNo, src: Mac)
    requires FlowsSafe(w) && d in w.flows && d in w.macPorts
    ensures Learn(w, d, inPort, src) == None <==> InUse(w, d, inPort, src)
    ensures Learn(w, d, inPort, src).Some? ==>
              var w' := Learn(w, d, inPort, src).value;
              && w'.nets == w.nets && w'.flows.Keys == w.flows.Keys && d in w'.macPorts
              && w'.macPorts[d] == w.macPorts[d][src := inPort]
              && NetOf(w'.macNets, src) == SourceNet(w, d, inPort, src)
              && (forall x | x in w.flows && x != d :: w'.flows[x] == w.flows[x])
              && (forall k :: k in w'.flows[d] <==> k in w.flows[d] && !Stale(w, d, inPort, src, k))
              && (forall k | k in w'.flows[d] :: w'.flows[d][k] == w.flows[d][k])
  {
    LearnIs(w, d, inPort, src);
  }

  /** The flow for a packet to a destination heard before: it outputs to that port
      alone, if the port may carry the source's network. */
  lemma ToHeardPort(w: World, d: Dpid, inPort: PortNo, src: Mac, dst: Mac, p: PortNo)
    requires FlowsSafe(w) && d in w.flows && d in w.macPorts
    requires GoesOn(w, d, inPort, src, dst, false) && HeardOn(w, d, inPort, src, dst) == Some(p)
    ensures var t', k := PacketIn(w, d, inPort, src, dst, false).flows[d], Match(inPort, src, dst);
            && (Carries(w, d, p, SourceNet(w, d, inPort, src)) ==> k in t' && t'[k] == {p})
            && (!Carries(w, d, p, SourceNet(w, d, inPort, src)) ==>
                  (k in t' ==> k in w.flows[d] && t'[k] == w.flows[d][k]))
  {
    LearnIs(w, d, inPort, src);
    LearnFlows(w, d, inPort, src);
  }

  /** The flow for a broadcast, or for a destination not heard of: it outputs to
      every other port of the source's network and to the external ones. */
  lemma ToAllPorts(w: World, d: Dpid, inPort: PortNo, src: Mac, dst: Mac, broadcast: bool)
    requires FlowsSafe(w) && d in w.flows && d in w.macPorts && GoesOn(w, d, inPort, src, dst, broadcast)
    requires broadcast || HeardOn(w, d, inPort, src, dst) == None
    ensures var t', k := PacketIn(w, d, inPort, src, dst, broadcast).flows[d], Match(inPort, src, dst);
            && k in t'
            && forall q :: q in t'[k] <==>
                 q != inPort && PortId(d, q) in w.nets && Carries(w, d, q, SourceNet(w, d, inPort, src))
  {
    LearnIs(w, d, inPort, src);
    var w1 := Learn(w, d, inPort, src).value;
    var outs := FilterPorts(w1.nets, d, inPort, SourceNet(w, d, inPort, src));
    forall q ensures q in outs <==> q != inPort && PortId(d, q) in w.nets && Carries(w, d, q, SourceNet(w, d, inPort, src)) {
      if PortId(d, q) in w.nets { assert PortId(d, q).port == q; }
    }
  }

  /** No other packet installs a flow with an output: only what an external source
      sends on an external port gets one, which drops. */
  lemma NothingElse(w: World, d: Dpid, inPort: PortNo, src: Mac, dst: Mac, broadcast: bool)
    requires FlowsSafe(w) && d in w.flows && d in w.macPorts && !GoesOn(w, d, inPort, src, dst, broadcast)
    ensures var t', k := PacketIn(w, d, inPort, src, dst, broadcast).flows[d], Match(inPort, src, dst);
            if NetAt(w.nets, d, inPort) == External && SourceNet(w, d, inPort, src) == External
            then k in t' && t'[k] == {}
            else k in t' ==> k in w.flows[d] && t'[k] == w.flows[d][k]
  {
    LearnIs(w, d, inPort, src);
    LearnFlows(w, d, inPort, src);
  }

  // ------------------------------------------------------- a MAC's life cycle

  /** Unbound, then external, then a tenant's; a tenant's for good. */
  predicate Onward(macNets: MacNets, macNets': MacNets, m: Mac) {
    && (m in macNets ==> m in macNets')
    && (m in macNets && macNets[m] != External ==> macNets'[m] == macNets[m])
  }

  lemma BindMacOnward(macNets: MacNets, src: Mac, n: NetworkId, m: Mac)
    requires BindMac(macNets, src, n).Some?
    ensures Onward(macNets, BindMac(macNets, src, n).value, m)
  {
  }

  /** The step deletes a port that the MAC was learned on. */
  predicate Forgets(w: World, step: Step, m: Mac) {
    step.Vanishes? && m in MacList(w.macPorts, step.d, step.p)
  }

  /** A MAC's network only moves onward, except that deleting a port forgets the
      MACs on it. */
  lemma MacMovesOnward(w: World, step: Step, m: Mac)
    requires Allowed(w, step) && !Forgets(w, step, m)
    ensures Onward(w.macNets, After(w, step).macNets, m)
  {
    hide BindMac, MacList, Installed;
    match step
    case Packet(d, inPort, src, _, _) =>
      var n := NetAt(w.nets, d, inPort);
      if d in w.macPorts && d in w.flows && n != Unknown && BindMac(w.macNets, src, n).Some? {
        BindMacOnward(w.macNets, src, n, m);
      }
    case Vanishes(d, p, ms) =>
      assert m in multiset(ms) <==> m in ms;
      if d in w.flows { ForgetOnward(w.(flows := w.flows[d := WithoutPort(w.flows[d], p)]), ms, m); }
    case _ =>
  }

  lemma {:induction false} ForgetOnward(w: World, ms: seq<Mac>, m: Mac)
    requires m !in ms
    ensures Onward(w.macNets, ForgetMacs(w, ms).0.macNets, m)
    decreases |ms|
  {
    if ms != [] && ms[0] in w.macNets {
      ForgetOnward(ForgetMac(w, ms[0]).(macNets := w.macNets - {ms[0]}), ms[1..], m);
    }
  }

  // -------------------------------------------------------------- steps keep it

  lemma PacketKeepsSafe(w: World, d: Dpid, inPort: PortNo, src: Mac, dst: Mac, broadcast: bool)
    requires FlowsSafe(w)
    ensures FlowsSafe(PacketIn(w, d, inPort, src, dst, broadcast))
  {
    hide Learn, Installed, VerdictOf, FlowsSafe;
    SafeKeys(w);
    if d in w.macPorts && Learn(w, d, inPort, src).Some? {
      LearnKeepsSafe(w, d, inPort, src);
      LearnSame(w, d, inPort, src);
      var w' := Learn(w, d, inPort, src).value;
      if Installed(w', d, inPort, src, dst, broadcast).Some? {
        InstalledIsSafe(w, d, inPort, src, dst, broadcast);
        OneFlowMore(w', d, Match(inPort, src, dst), Installed(w', d, inPort, src, dst, broadcast).value);
      }
    }
  }

  lemma SafeKeys(w: World)
    requires FlowsSafe(w)
    ensures w.flows.Keys == w.macPorts.Keys
  {
  }

  lemma OneFlowMore(w: World, d: Dpid, k: Match, outs: set<PortNo>)
    requires FlowsSafe(w) && d in w.flows && FlowSafe(w, d, k, outs) && k.src in w.macPorts[d]
    ensures FlowsSafe(w.(flows := w.flows[d := w.flows[d][k := outs]]))
  {
    hide FlowSafe;
    var w' := w.(flows := w.flows[d := w.flows[d][k := outs]]);
    assert w'.flows.Keys == w.flows.Keys;
    forall x, l ensures RowSafe(w', x, l) {
      assert RowSafe(w, x, l);
      if x == d && l == k { SameFlowSafe(w, w', d, k, outs); }
      else if x in w.flows && l in w.flows[x] { SameFlowSafe(w, w', x, l, w.flows[x][l]); }
    }
  }

  lemma SameFlowSafe(w: World, w': World, d: Dpid, k: Match, outs: set<PortNo>)
    requires FlowSafe(w, d, k, outs) && Onward(w.macNets, w'.macNets, k.src)
    requires forall p | p in outs :: PortId(d, p) in w'.nets ==> PortId(d, p) in w.nets && w'.nets[PortId(d, p)] == w.nets[PortId(d, p)]
    ensures FlowSafe(w', d, k, outs)
  {
  }

  lemma LearnKeepsSafe(w: World, d: Dpid, inPort: PortNo, src: Mac)
    requires FlowsSafe(w) && d in w.flows && Learn(w, d, inPort, src).Some?
    ensures FlowsSafe(Learn(w, d, inPort, src).value)
  {
    hide FlowSafe;
    var w' := Learn(w, d, inPort, src).value;
    assert w'.flows.Keys == w.flows.Keys && w'.macPorts.Keys == w.macPorts.Keys;
    forall x, l ensures RowSafe(w', x, l) {
      assert RowSafe(w, x, l);
      if x in w'.flows && l in w'.flows[x] {
        assert l in w.flows[x] && w'.flows[x][l] == w.flows[x][l];
        SameFlowSafe(w, w', x, l, w.flows[x][l]);
      }
    }
  }

  /** Steps that only take flows away and leave MACs and the networks of
      remaining ports as they are. */
  lemma FewerFlowsSafe(w: World, w': World)
    requires FlowsSafe(w) && w'.flows.Keys == w'.macPorts.Keys && w'.macNets == w.macNets
    requires forall d | d in w'.flows && w'.flows[d] != map[] :: d in w.flows && d in w.macPorts && w'.macPorts[d] == w.macPorts[d]
    requires forall d, k | d in w'.flows && k in w'.flows[d] ::
               d in w.flows && k in w.flows[d] && w'.flows[d][k] == w.flows[d][k]
               && forall p | p in w.flows[d][k] :: PortId(d, p) in w'.nets ==> PortId(d, p) in w.nets && w'.nets[PortId(d, p)] == w.nets[PortId(d, p)]
    ensures FlowsSafe(w')
  {
    hide FlowSafe;
    forall d, k ensures RowSafe(w', d, k) {
      assert RowSafe(w, d, k);
      if d in w'.flows && k in w'.flows[d] { SameFlowSafe(w, w', d, k, w.flows[d][k]); }
    }
  }

  /** Forgetting a MAC takes every flow from it: only switches that learned it
      have any. */
  lemma ForgetKeepsSafe(w: World, m: Mac)
    requires FlowsSafe(w)
    ensures FlowsSafe(ForgetMac(w, m))
    ensures forall d, k | d in ForgetMac(w, m).flows && k in ForgetMac(w, m).flows[d] :: k.src != m
  {
    hide FlowSafe;
    var w' := ForgetMac(w, m);
    forall d, k ensures RowSafe(w', d, k) && (d in w'.flows && k in w'.flows[d] ==> k.src != m) {
      assert RowSafe(w, d, k);
      if d in w'.flows && k in w'.flows[d] {
        assert k in w.flows[d] && w'.flows[d][k] == w.flows[d][k];
        SameFlowSafe(w, w', d, k, w.flows[d][k]);
      }
    }
  }

  lemma UnbindMacSafe(w: World, m: Mac)
    requires FlowsSafe(w) && forall d, k | d in w.flows && k in w.flows[d] :: k.src != m
    ensures FlowsSafe(w.(macNets := w.macNets - {m}))
  {
    hide FlowSafe;
    var w' := w.(macNets := w.macNets - {m});
    forall d, k ensures RowSafe(w', d, k) {
      assert RowSafe(w, d, k);
      if d in w.flows && k in w.flows[d] { SameFlowSafe(w, w', d, k, w.flows[d][k]); }
    }
  }

  lemma {:induction false} ForgetMacsSafe(w: World, ms: seq<Mac>)
    requires FlowsSafe(w)
    ensures FlowsSafe(ForgetMacs(w, ms).0) && ForgetMacs(w, ms).0.nets == w.nets
    ensures forall d, k | d in ForgetMacs(w, ms).0.flows && k in ForgetMacs(w, ms).0.flows[d] ::
              d in w.flows && k in w.flows[d] && ForgetMacs(w, ms).0.flows[d][k] == w.flows[d][k]
    decreases |ms|
  {
    hide FlowsSafe;
    if ms != [] {
      ForgetKeepsSafe(w, ms[0]);
      var w1 := ForgetMac(w, ms[0]);
      if ms[0] in w1.macNets {
        UnbindMacSafe(w1, ms[0]);
        ForgetMacsSafe(w1.(macNets := w1.macNets - {ms[0]}), ms[1..]);
      }
    }
  }

  /** Deleting a port gets through exactly when every MAC learned on it has a
      network; one learned while the port had none, and not heard again after,
      makes the handler raise and the port stay in the store. */
  lemma {:induction false} ForgetsAllExactly(w: World, ms: seq<Mac>)
    requires forall i, j | 0 <= i < j < |ms| :: ms[i] != ms[j]
    ensures ForgetMacs(w, ms).1 <==> forall m | m in ms :: m in w.macNets
    decreases |ms|
  {
    if ms != [] {
      var rest := ms[1..];
      assert ms == [ms[0]] + rest;
      forall i, j | 0 <= i < j < |rest| ensures rest[i] != rest[j] { assert ms[i + 1] != ms[j + 1]; }
      assert ms[0] !in rest by {
        forall i | 0 <= i < |rest| ensures rest[i] != ms[0] { assert ms[i + 1] != ms[0]; }
      }
      ForgetsAllExactly(ForgetMac(w, ms[0]).(macNets := w.macNets - {ms[0]}), rest);
    }
  }

  /** A flow from or to one of the MACs, on a switch that had learned it. */
  predicate Concerns(w: World, x: Dpid, k: Match, ms: seq<Mac>)
    requires x in w.macPorts
  {
    (k.src in ms && k.src in w.macPorts[x]) || (k.dst in ms && k.dst in w.macPorts[x])
  }

  /** Forgetting several MACs that all have a network: they are gone everywhere,
      with the flows from and to them, and nothing else is. */
  lemma {:induction false} ForgottenExactly(w: World, ms: seq<Mac>)
    requires w.flows.Keys == w.macPorts.Keys && ForgetMacs(w, ms).1
    ensures var w' := ForgetMacs(w, ms).0;
            && w'.flows.Keys == w.flows.Keys == w'.macPorts.Keys && w'.nets == w.nets
            && (forall m :: m in w'.macNets <==> m in w.macNets && m !in ms)
            && (forall m | m in w'.macNets :: w'.macNets[m] == w.macNets[m])
            && (forall x | x in w.flows :: ForgottenOn(w, w', x, ms))
    decreases |ms|
  {
    if ms != [] {
      var w1 := ForgetMac(w, ms[0]);
      var w2 := w1.(macNets := w1.macNets - {ms[0]});
      ForgottenExactly(w2, ms[1..]);
      assert ms == [ms[0]] + ms[1..];
      forall x | x in w.flows ensures ForgottenOn(w, ForgetMacs(w, ms).0, x, ms) {
        assert ForgottenOn(w2, ForgetMacs(w2, ms[1..]).0, x, ms[1..]);
        ForgottenFirst(w, w2, ForgetMacs(w2, ms[1..]).0, x, ms);
      }
    } else {
      forall x | x in w.flows ensures ForgottenOn(w, w, x, ms) {}
    }
  }

  ghost predicate ForgottenOn(w: World, w': World, x: Dpid, ms: seq<Mac>)
    requires x in w.flows && x in w.macPorts && x in w'.flows && x in w'.macPorts
  {
    && (forall m :: m in w'.macPorts[x] <==> m in w.macPorts[x] && m !in ms)
    && (forall m | m in w'.macPorts[x] :: w'.macPorts[x][m] == w.macPorts[x][m])
    && (forall k :: k in w'.flows[x] <==> k in w.flows[x] && !Concerns(w, x, k, ms))
    && (forall k | k in w'.flows[x] :: w'.flows[x][k] == w.flows[x][k])
  }

  lemma ForgottenFirst(w: World, w2: World, w': World, x: Dpid, ms: seq<Mac>)
    requires ms != [] && x in w.flows && x in w.macPorts && x in w2.flows && x in w2.macPorts && x in w'.flows && x in w'.macPorts
    requires w2.flows[x] == ForgetMac(w, ms[0]).flows[x] && w2.macPorts[x] == ForgetMac(w, ms[0]).macPorts[x]
    requires ForgottenOn(w2, w', x, ms[1..])
    ensures ForgottenOn(w, w', x, ms)
  {
    assert ms == [ms[0]] + ms[1..];
    forall k ensures k in w'.flows[x] <==> k in w.flows[x] && !Concerns(w, x, k, ms) {
      assert k in w2.flows[x] <==> k in w.flows[x] && !Concerns(w, x, k, [ms[0]]);
      assert Concerns(w, x, k, ms) <==> Concerns(w, x, k, [ms[0]]) || Concerns(w2, x, k, ms[1..]);
    }
  }

  /** What the deletion of a port leaves, if it gets through: of the flows those
      that neither enter or leave the switch by the port nor concern a MAC learned
      on it, of the MACs those not learned on it. */
  lemma PortDelExactly(w: World, d: Dpid, p: PortNo, ms: seq<Mac>)
    requires w.flows.Keys == w.macPorts.Keys && d in w.flows && multiset(ms) == multiset(MacList(w.macPorts, d, p))
    requires PortId(d, p) in w.nets ==> w.nets[PortId(d, p)] != Unknown && w.nets[PortId(d, p)] != External
    requires forall m | m in MacList(w.macPorts, d, p) :: m in w.macNets
    ensures var w', gone := PortDel(w, d, p, ms), MacList(w.macPorts, d, p);
            && w'.flows.Keys == w.flows.Keys == w'.macPorts.Keys && w'.nets == w.nets - {PortId(d, p)}
            && (forall m :: m in w'.macNets <==> m in w.macNets && m !in gone)
            && (forall m | m in w'.macNets :: w'.macNets[m] == w.macNets[m])
            && (forall x | x in w.flows :: PortGoneOn(w, w', x, d, p))
  {
    hide ForgetMacs, ForgottenOn, PortGoneOn, WithoutPort;
    var w1 := w.(flows := w.flows[d := WithoutPort(w.flows[d], p)]);
    assert forall m :: m in ms <==> m in multiset(ms);
    assert forall i, j | 0 <= i < j < |ms| :: ms[i] != ms[j] by { OnceEach(ms, MacList(w.macPorts, d, p)); }
    ForgetsAllExactly(w1, ms);
    assert w1.flows.Keys == w1.macPorts.Keys;
    ForgottenExactly(w1, ms);
    forall x | x in w.flows ensures PortGoneOn(w, PortDel(w, d, p, ms), x, d, p) {
      assert ForgottenOn(w1, ForgetMacs(w1, ms).0, x, ms);
      GoneOn(w, ForgetMacs(w1, ms).0, PortDel(w, d, p, ms), x, d, p, ms);
    }
  }

  ghost predicate PortGoneOn(w: World, w': World, x: Dpid, d: Dpid, p: PortNo)
    requires x in w.flows && x in w.macPorts && x in w'.flows && x in w'.macPorts
  {
    && (forall m :: m in w'.macPorts[x] <==> m in w.macPorts[x] && m !in MacList(w.macPorts, d, p))
    && (forall m | m in w'.macPorts[x] :: w'.macPorts[x][m] == w.macPorts[x][m])
    && (forall k :: k in w'.flows[x] <==> k in w.flows[x] && !Departs(w, x, k, d, p))
    && (forall k | k in w'.flows[x] :: w'.flows[x][k] == w.flows[x][k])
  }

  lemma GoneOn(w: World, w2: World, w': World, x: Dpid, d: Dpid, p: PortNo, ms: seq<Mac>)
    requires d in w.flows && x in w.flows && x in w.macPorts && x in w2.flows && x in w2.macPorts
    requires forall m :: m in ms <==> m in MacList(w.macPorts, d, p)
    requires ForgottenOn(w.(flows := w.flows[d := WithoutPort(w.flows[d], p)]), w2, x, ms)
    requires w'.flows == w2.flows && w'.macPorts == w2.macPorts
    ensures PortGoneOn(w, w', x, d, p)
  {
    hide MacList;
    var w1 := w.(flows := w.flows[d := WithoutPort(w.flows[d], p)]);
    forall k ensures k in w1.flows[x] && !Concerns(w1, x, k, ms) <==> k in w.flows[x] && !Departs(w, x, k, d, p) {}
  }

  /** The flow goes with port `p` of switch `d`. */
  predicate Departs(w: World, x: Dpid, k: Match, d: Dpid, p: PortNo)
    requires x in w.flows && x in w.macPorts && k in w.flows[x]
  {
    || (x == d && (k.inPort == p || p in w.flows[x][k]))
    || (k.src in MacList(w.macPorts, d, p) && k.src in w.macPorts[x])
    || (k.dst in MacList(w.macPorts, d, p) && k.dst in w.macPorts[x])
  }

  lemma OnceEach(ms: seq<Mac>, s: set<Mac>)
    requires multiset(ms) == multiset(s)
    ensures forall i, j | 0 <= i < j < |ms| :: ms[i] != ms[j]
  {
    forall i, j | 0 <= i < j < |ms| ensures ms[i] != ms[j] {
      var a, b := ms[..j], ms[j..];
      assert ms == a + b && a[i] == ms[i] && b[0] == ms[j];
      assert multiset(ms)[ms[i]] == multiset(a)[ms[i]] + multiset(b)[ms[i]];
      assert ms[i] in a && ms[j] in b;
    }
  }

  lemma PortDelKeepsSafe(w: World, d: Dpid, p: PortNo, ms: seq<Mac>)
    requires FlowsSafe(w)
    ensures FlowsSafe(PortDel(w, d, p, ms))
  {
    hide FlowSafe;
    if d in w.flows {
      var w1 := w.(flows := w.flows[d := WithoutPort(w.flows[d], p)]);
      FewerFlowsSafe(w, w1);
      ForgetMacsSafe(w1, ms);
      var w2 := ForgetMacs(w1, ms).0;
      FewerFlowsSafe(w2, w2.(nets := w2.nets - {PortId(d, p)}));
    }
  }

  /** Binding a port keeps every flow safe exactly if no flow is in the way. */
  lemma BindExactly(w: World, at: PortId, n: NetworkId)
    requires FlowsSafe(w)
    ensures FlowsSafe(After(w, Bind(at, n))) <==> Bindable(w, at, n)
  {
    var w' := After(w, Bind(at, n));
    forall d, k ensures RowSafe(w', d, k) <==> !(d == at.dpid && InTheWay(w, at, n, k)) {
      assert RowSafe(w, d, k);
      assert at == PortId(at.dpid, at.port);
    }
    if !Bindable(w, at, n) {
      var k :| k in w.flows[at.dpid] && at.port in w.flows[at.dpid][k] && NetOf(w.macNets, k.src) != n;
      assert InTheWay(w, at, n, k) && !RowSafe(w', at.dpid, k);
    } else {
      forall d, k ensures RowSafe(w', d, k) { assert d == at.dpid ==> !InTheWay(w, at, n, k); }
    }
  }

  predicate InTheWay(w: World, at: PortId, n: NetworkId, k: Match) {
    n != External && at.dpid in w.flows && k in w.flows[at.dpid] && at.port in w.flows[at.dpid][k]
    && NetOf(w.macNets, k.src) != n
  }

  lemma StepKeepsSafe(w: World, step: Step)
    requires FlowsSafe(w) && Allowed(w, step)
    ensures FlowsSafe(After(w, step))
  {
    hide FlowSafe;
    match step
    case Packet(d, inPort, src, dst, broadcast) => PacketKeepsSafe(w, d, inPort, src, dst, broadcast);
    case Vanishes(d, p, ms) => PortDelKeepsSafe(w, d, p, ms);
    case Bind(at, n) => BindExactly(w, at, n);
    case _ => FewerFlowsSafe(w, After(w, step));
  }

  function RunAll(w: World, steps: seq<Step>): World
    decreases |steps|
  {
    if steps == [] then w else RunAll(After(w, steps[0]), steps[1..])
  }

  predicate AllAllowed(w: World, steps: seq<Step>)
    decreases |steps|
  {
    steps == [] || (Allowed(w, steps[0]) && AllAllowed(After(w, steps[0]), steps[1..]))
  }

  /** Over every run, every flow in every switch is safe. */
  lemma {:induction false} RunKeepsSafe(w: World, steps: seq<Step>)
    requires FlowsSafe(w) && AllAllowed(w, steps)
    ensures FlowsSafe(RunAll(w, steps))
    decreases |steps|
  {
    hide FlowsSafe, Allowed, After;
    if steps != [] {
      StepKeepsSafe(w, steps[0]);
      RunKeepsSafe(After(w, steps[0]), steps[1..]);
    }
  }

  lemma EveryRunIsSafe(steps: seq<Step>)
    requires AllAllowed(START, steps)
    ensures FlowsSafe(RunAll(START, steps))
  {
    StartSafe();
    RunKeepsSafe(START, steps);
  }

  ghost predicate NeverForgets(w: World, steps: seq<Step>, m: Mac)
    decreases |steps|
  {
    steps == [] || (!Forgets(w, steps[0], m) && NeverForgets(After(w, steps[0]), steps[1..], m))
  }

  /** Over every run that deletes no port the MAC is on: once a tenant's, always
      that tenant's. */
  lemma {:induction false} OnwardOverRuns(w: World, steps: seq<Step>, m: Mac)
    requires AllAllowed(w, steps) && NeverForgets(w, steps, m)
    ensures Onward(w.macNets, RunAll(w, steps).macNets, m)
    decreases |steps|
  {
    hide After, Allowed, Forgets;
    if steps != [] {
      MacMovesOnward(w, steps[0], m);
      OnwardOverRuns(After(w, steps[0]), steps[1..], m);
    }
  }

  /** A MAC heard on a port before the port had a network. */
  function TooEarly(): seq<Step> {
    [Joins(1, {3}), Packet(1, 3, 7, 8, false), Bind(PortId(1, 3), Tenant(0)), Vanishes(1, 3, [7])]
  }

  const UNHEARD := World(map[PortId(1, 3) := Unknown], map[], map[1 := map[]], map[1 := map[]])
  const HEARD := World(map[PortId(1, 3) := Unknown], map[], map[1 := map[7 := 3]], map[1 := map[]])
  const BOUND := World(map[PortId(1, 3) := Tenant(0)], map[], map[1 := map[7 := 3]], map[1 := map[]])

  lemma JoinsUnheard()
    ensures After(START, Joins(1, {3})) == UNHEARD
  {
    assert NewPorts(map[], 1, {3}) == {PortId(1, 3)};
    assert JoinedNets(map[], 1, {3}) == UNHEARD.nets;
  }

  lemma HeardUnbound()
    ensures After(UNHEARD, Packet(1, 3, 7, 8, false)) == HEARD
  {
    assert Place(map[], 7, 3) == map[7 := 3];
    assert UNHEARD.flows[1 := map[]] == UNHEARD.flows;
    assert UNHEARD.macPorts[1 := map[7 := 3]] == HEARD.macPorts;
    assert Learn(UNHEARD, 1, 3, 7) == Some(HEARD);
  }

  lemma BoundLater()
    ensures After(HEARD, Bind(PortId(1, 3), Tenant(0))) == BOUND
    ensures Allowed(HEARD, Bind(PortId(1, 3), Tenant(0))) && Allowed(BOUND, Vanishes(1, 3, [7]))
  {
    assert HEARD.nets[PortId(1, 3) := Tenant(0)] == BOUND.nets;
    assert MacList(BOUND.macPorts, 1, 3) == {7};
  }

  lemma StaysBehind()
    ensures PortId(1, 3) in After(BOUND, Vanishes(1, 3, [7])).nets
  {
    ForgetsAllExactly(BOUND.(flows := BOUND.flows[1 := WithoutPort(map[], 3)]), [7]);
    assert 7 in [7];
  }

  /** From the start: the deletion breaks off and the port stays in the store. */
  lemma BreaksOffFromStart()
    ensures AllAllowed(START, TooEarly()) && PortId(1, 3) in RunAll(START, TooEarly()).nets
  {
    hide After, Allowed;
    var steps := TooEarly();
    JoinsUnheard();
    HeardUnbound();
    BoundLater();
    StaysBehind();
    OtherStepsAllowed();
    FirstStep(START, steps[0], steps[1..]);
    FirstStep(UNHEARD, steps[1], steps[2..]);
    FirstStep(HEARD, steps[2], steps[3..]);
    FirstStep(BOUND, steps[3], []);
    assert steps == [steps[0]] + steps[1..] && steps[1..] == [steps[1]] + steps[2..]
           && steps[2..] == [steps[2]] + steps[3..] && steps[3..] == [steps[3]] + [];
  }

  lemma FirstStep(w: World, step: Step, rest: seq<Step>)
    ensures RunAll(w, [step] + rest) == RunAll(After(w, step), rest)
    ensures AllAllowed(w, [step] + rest) <==> Allowed(w, step) && AllAllowed(After(w, step), rest)
  {
    hide After, Allowed;
    assert ([step] + rest)[1..] == rest;
  }

  lemma OtherStepsAllowed()
    ensures Allowed(START, Joins(1, {3})) && Allowed(UNHEARD, Packet(1, 3, 7, 8, false))
  {
  }

  // ------------------------------------------------------------------ object

  class SimpleIsolationApp {
    var nets: Nets
    var macNets: MacNets
    var macPorts: MacPorts
    var flows: map<Dpid, Table>

    ghost function Value(): World
      reads this
    {
      World(nets, macNets, macPorts, flows)
    }

    constructor ()
      ensures Value() == START
    {
      nets, macNets, macPorts, flows := map[], map[], map[], map[];
    }

    /** MacToNetwork.add_mac: false is MacAddressDuplicated. */
    method AddMac(m: Mac, n: NetworkId) returns (ok: bool)
      modifies this`macNets
      ensures ok <==> BindMac(old(macNets), m, n).Some?
      ensures macNets == if ok then BindMac(old(macNets), m, n).value else old(macNets)
    {
      if m in macNets && macNets[m] == n { return true; }
      if m !in macNets || macNets[m] == External {
        macNets := macNets[m := n];
        return true;
      }
      ok := n == External;
    }

    /** filter_ports' loop. */
    method Filter(d: Dpid, inPort: PortNo, n: NetworkId) returns (outs: set<PortNo>)
      requires n != Unknown
      ensures outs == FilterPorts(nets, d, inPort, n)
    {
      var todo := nets.Keys;
      outs := {};
      while todo != {}
        invariant todo <= nets.Keys
        invariant outs == set at | at in nets && at !in todo && at.dpid == d && at.port != inPort
                                   && (nets[at] == n || nets[at] == External) :: at.port
        decreases todo
      {
        var at :| at in todo;
        todo := todo - {at};
        if at.dpid == d && at.port != inPort && (nets[at] == n || nets[at] == External) { outs := outs + {at.port}; }
      }
    }

    method InstallFlow(d: Dpid, k: Match, outs: set<PortNo>)
      requires d in flows
      modifies this`flows
      ensures flows == old(flows)[d := old(flows)[d][k := outs]]
    {
      flows := flows[d := flows[d][k := outs]];
    }

    method FloodTo(d: Dpid, k: Match, n: NetworkId)
      requires d in flows && n != Unknown
      modifies this`flows
      ensures flows == old(flows)[d := old(flows)[d][k := FilterPorts(nets, d, k.inPort, n)]]
    {
      var outs := Filter(d, k.inPort, n);
      InstallFlow(d, k, outs);
    }

    /** _learned_mac_or_flood_to_nw_id. */
    method LearnedOrFlood(d: Dpid, k: Match, n: NetworkId, out: Option<PortNo>)
      requires d in flows && n != Unknown
      modifies this`flows
      ensures flows == match out
                       case None => old(flows)[d := old(flows)[d][k := FilterPorts(nets, d, k.inPort, n)]]
                       case Some(p) => if SameNetwork(nets, d, n, p) then old(flows)[d := old(flows)[d][k := {p}]] else old(flows)
    {
      match out
      case None => FloodTo(d, k, n);
      case Some(p) => if SameNetwork(nets, d, n, p) { InstallFlow(d, k, {p}); }
    }

    /** packet_in_handler.  The assertions are the source's own. */
    method PacketInHandler(d: Dpid, inPort: PortNo, src: Mac, dst: Mac, broadcast: bool)
      requires FlowsSafe(Value()) && d in flows
      modifies this
      ensures Value() == PacketIn(old(Value()), d, inPort, src, dst, broadcast)
    {
      hide FlowsSafe, Decide, FlowSafe, FilterPorts, SameNetwork;
      SafeKeys(Value());
      ghost var w := Value();
      var learned := LearnSource(d, inPort, src);
      if !learned { return; }
      NothingImpossible(w, d, inPort, src, dst, broadcast);
      Dispatch(d, inPort, src, dst, broadcast);
    }

    /** The part up to the branches: false is a MAC in use elsewhere. */
    method LearnSource(d: Dpid, inPort: PortNo, src: Mac) returns (ok: bool)
      requires d in macPorts && d in flows
      modifies this
      ensures ok <==> Learn(old(Value()), d, inPort, src).Some?
      ensures Value() == if ok then Learn(old(Value()), d, inPort, src).value else old(Value())
    {
      var portNet := NetAt(nets, d, inPort);
      if portNet != Unknown {
        var added := AddMac(src, portNet);
        if !added { return false; }
      }
      var oldPort := if src in macPorts[d] then Some(macPorts[d][src]) else None;
      macPorts := macPorts[d := Place(macPorts[d], src, inPort)];
      if oldPort.Some? && oldPort.value != inPort {
        flows := flows[d := map k | k in flows[d] && !(k.dst == src && oldPort.value in flows[d][k]) :: flows[d][k]];
      } else {
        assert flows[d := flows[d]] == flows;
      }
      ok := true;
    }

    /** The branches. */
    method Dispatch(d: Dpid, inPort: PortNo, src: Mac, dst: Mac, broadcast: bool)
      requires d in macPorts && d in flows
      requires VerdictOf(Value(), d, inPort, src, dst, broadcast) != Impossible
      modifies this`flows
      ensures flows == match Installed(old(Value()), d, inPort, src, dst, broadcast)
                       case None => old(flows)
                       case Some(outs) => old(flows)[d := old(flows)[d][Match(inPort, src, dst) := outs]]
    {
      hide FilterPorts, SameNetwork;
      var portNet, srcNet, dstNet := NetAt(nets, d, inPort), NetOf(macNets, src), NetOf(macNets, dst);
      var out, k := if dst in macPorts[d] then Some(macPorts[d][dst]) else None, Match(inPort, src, dst);
      if portNet != External && portNet != Unknown {
        if broadcast {
          FloodTo(d, k, srcNet);
        } else {
          assert srcNet != External && srcNet != Unknown;
          LearnedOrFlood(d, k, srcNet, out);
        }
      } else if portNet == External {
        if srcNet != External && srcNet != Unknown {
          if broadcast {
            FloodTo(d, k, srcNet);
          } else if dstNet != External && dstNet != Unknown {
            if srcNet == dstNet { LearnedOrFlood(d, k, srcNet, out); }
          } else if dstNet == External {
            LearnedOrFlood(d, k, srcNet, out);
          } else {
            assert dstNet == Unknown;
          }
        } else {
          assert srcNet == External;
          InstallFlow(d, k, {});
        }
      } else {
        assert portNet == Unknown;
      }
    }

    /** switch_features_handler. */
    method SwitchFeaturesHandler(d: Dpid, ports: set<PortNo>)
      modifies this
      ensures Value() == SwitchJoins(old(Value()), d, ports)
    {
      hide JoinedNets;
      flows := flows[d := map[]];
      if d !in macPorts { macPorts := macPorts[d := map[]]; }
      AddPorts(d, ports);
    }

    /** add_datapath's loop over the ports. */
    method AddPorts(d: Dpid, ports: set<PortNo>)
      modifies this`nets
      ensures nets == JoinedNets(old(nets), d, ports)
    {
      hide JoinedNets;
      var todo := ports;
      ghost var was := nets;
      OnePortJoins(was, d, {}, 0);
      assert ports - todo == {};
      while todo != {}
        invariant todo <= ports && nets == JoinedNets(was, d, ports - todo)
        decreases todo
      {
        var p :| p in todo;
        OnePortJoins(was, d, ports - todo, p);
        assert ports - (todo - {p}) == ports - todo + {p};
        todo := todo - {p};
        if p != 0 && p < OFPP_MAX && PortId(d, p) !in nets { nets := nets[PortId(d, p) := Unknown]; }
      }
      assert ports - {} == ports;
    }

    /** _port_add. */
    method PortAddHandler(d: Dpid, p: PortNo)
      modifies this
      ensures Value() == PortAdd(old(Value()), d, p)
    {
      if d in flows { flows := flows[d := map[]]; }
      if p != 0 && p < OFPP_MAX && PortId(d, p) !in nets { nets := nets[PortId(d, p) := Unknown]; }
    }

    /** _port_del: the flows of the port, then the MACs learned on it. */
    method PortDelHandler(d: Dpid, p: PortNo) returns (ghost ms: seq<Mac>)
      requires flows.Keys == macPorts.Keys && d in flows
      modifies this
      ensures multiset(ms) == multiset(MacList(old(macPorts), d, p))
      ensures Value() == PortDel(old(Value()), d, p, ms)
    {
      hide WithoutPort;
      flows := flows[d := WithoutPort(flows[d], p)];
      var order := Enumerate(MacList(macPorts, d, p));
      ms := order;
      if PortId(d, p) in nets && (nets[PortId(d, p)] == Unknown || nets[PortId(d, p)] == External) { return; }
      var ok := ForgetAll(order);
      if ok { nets := nets - {PortId(d, p)}; }
    }

    method ForgetAll(ms: seq<Mac>) returns (ok: bool)
      requires flows.Keys == macPorts.Keys
      modifies this`flows, this`macPorts, this`macNets
      ensures (Value(), ok) == ForgetMacs(old(Value()), ms) && flows.Keys == macPorts.Keys
    {
      hide ForgetMac;
      for i := 0 to |ms|
        invariant flows.Keys == macPorts.Keys && nets == old(nets)
        invariant ForgetMacs(Value(), ms[i..]) == ForgetMacs(old(Value()), ms)
      {
        assert ms[i..][0] == ms[i] && ms[i..][1..] == ms[i + 1..];
        ForgetEverywhere(ms[i]);
        if ms[i] !in macNets { return false; }
        macNets := macNets - {ms[i]};
      }
      ok := true;
    }

    /** The loop over the switches. */
    method ForgetEverywhere(m: Mac)
      requires flows.Keys == macPorts.Keys
      modifies this`flows, this`macPorts
      ensures Value() == ForgetMac(old(Value()), m) && flows.Keys == macPorts.Keys
    {
      hide ForgetMac, Forgotten;
      var todo := flows.Keys;
      ghost var w := Value();
      while todo != {}
        invariant todo <= flows.Keys == macPorts.Keys == w.flows.Keys
        invariant nets == w.nets && macNets == w.macNets
        invariant forall d | d in todo :: flows[d] == w.flows[d] && macPorts[d] == w.macPorts[d]
        invariant forall d | d in flows && d !in todo :: (flows[d], macPorts[d]) == Forgotten(w.flows[d], w.macPorts[d], m)
        decreases todo
      {
        var d :| d in todo;
        todo := todo - {d};
        ForgetOn(d, m);
      }
      ForgottenAll(w, m, Value());
    }

    method ForgetOn(d: Dpid, m: Mac)
      requires d in flows && d in macPorts
      modifies this`flows, this`macPorts
      ensures flows == old(flows)[d := Forgotten(old(flows)[d], old(macPorts)[d], m).0]
      ensures macPorts == old(macPorts)[d := Forgotten(old(flows)[d], old(macPorts)[d], m).1]
    {
      hide WithoutMac;
      if m in macPorts[d] {
        flows := flows[d := WithoutMac(flows[d], m)];
        macPorts := macPorts[d := macPorts[d] - {m}];
      } else {
        assert flows[d := flows[d]] == flows && macPorts[d := macPorts[d]] == macPorts;
      }
    }
  }

  /** What one switch keeps when a MAC is forgotten. */
  function Forgotten(t: Table, ports: map<Mac, PortNo>, m: Mac): (Table, map<Mac, PortNo>) {
    if m in ports then (WithoutMac(t, m), ports - {m}) else (t, ports)
  }

  lemma ForgottenAll(w: World, m: Mac, w': World)
    requires w.flows.Keys == w.macPorts.Keys == w'.flows.Keys == w'.macPorts.Keys && w'.nets == w.nets && w'.macNets == w.macNets
    requires forall d | d in w'.flows :: (w'.flows[d], w'.macPorts[d]) == Forgotten(w.flows[d], w.macPorts[d], m)
    ensures w' == ForgetMac(w, m)
  {
    hide WithoutMac;
    forall d | d in w.macPorts ensures w'.macPorts[d] == w.macPorts[d] - {m} {
      assert d in w'.flows && (w'.flows[d], w'.macPorts[d]) == Forgotten(w.flows[d], w.macPorts[d], m);
      if m !in w.macPorts[d] { assert w.macPorts[d] - {m} == w.macPorts[d]; }
    }
  }

  /** A dictionary's keys in some order. */
  method Enumerate(s: set<Mac>) returns (order: seq<Mac>)
    ensures multiset(order) == multiset(s)
  {
    var todo := s;
    order := [];
    while todo != {}
      invariant todo <= s && multiset(order) == multiset(s - todo)
      decreases todo
    {
      var m :| m in todo;
      assert s - (todo - {m}) == s - todo + {m};
      todo := todo - {m};
      order := order + [m];
    }
    assert s - {} == s;
  }
}
