/** The tenant store of controller/network.py: which port belongs to which
    tenant network, and which MAC address sits on it.

    The store keeps three indexes over the same facts.  Every call updates them
    one after the other, and some calls raise half way; `Apply` keeps exactly
    what is written before the exception.  The main result says, call by call
    and for every input, when the indexes still agree afterwards. */
module TenantStore {
  import opened Wrappers

  type Dpid = nat
  type PortNo = nat
  type Mac = nat

  /** Network ids: four reserved ones and the tenants' own. */
  datatype NetworkId = Unknown | External | Reserved | VportGre | Tenant(id: nat)

  datatype PortId = PortId(dpid: Dpid, port: PortNo)

  datatype Port = Port(network: NetworkId, mac: Option<Mac>)

  datatype Event =
    | NetworkDel(network: NetworkId)
    | NetworkPort(network: NetworkId, at: PortId, add: bool)
    | MacAddress(network: NetworkId, at: PortId, mac: Mac, add: bool)

  datatype Error =
    | NetworkNotFound | NetworkAlreadyExist
    | PortNotFound | PortAlreadyExist | MacAddressAlreadyExist

  type DpidIndex = map<Dpid, map<PortNo, Port>>
  type NetworkIndex = map<NetworkId, set<PortId>>
  type MacIndex = map<NetworkId, map<Mac, set<PortId>>>

  datatype Store = Store(networks: NetworkIndex, dpids: DpidIndex, macs: MacIndex)

  const EMPTY := Store(map[], map[], map[])

  // ---------------------------------------------------------------- lookups

  function PortAt(dpids: DpidIndex, at: PortId): Option<Port> {
    if at.dpid in dpids && at.port in dpids[at.dpid] then Some(dpids[at.dpid][at.port]) else None
  }

  predicate InNetwork(networks: NetworkIndex, n: NetworkId, at: PortId) {
    n in networks && at in networks[n]
  }

  function MacPorts(macs: MacIndex, n: NetworkId, m: Mac): set<PortId> {
    if n in macs && m in macs[n] then macs[n][m] else {}
  }

  /** get_dpids: the switches that have a port in network `n`. */
  function GetDpids(s: Store, n: NetworkId): set<Dpid> {
    if n in s.networks then set at | at in s.networks[n] :: at.dpid else {}
  }

  /** get_network_safe: a port the store has never seen is in the unknown network. */
  function NetworkOf(dpids: DpidIndex, at: PortId): NetworkId {
    match PortAt(dpids, at)
    case Some(port) => port.network
    case None => Unknown
  }

  // ------------------------------------------------- writes to single indexes

  function SetPort(dpids: DpidIndex, at: PortId, port: Port): DpidIndex {
    dpids[at.dpid := (if at.dpid in dpids then dpids[at.dpid] else map[])[at.port := port]]
  }

  function PopPort(dpids: DpidIndex, at: PortId): DpidIndex
    requires at.dpid in dpids
  {
    dpids[at.dpid := dpids[at.dpid] - {at.port}]
  }

  lemma OnlyThatPort(dpids: DpidIndex)
    ensures forall at: PortId, port, x {:trigger PortAt(SetPort(dpids, at, port), x)} ::
              PortAt(SetPort(dpids, at, port), x) == if x == at then Some(port) else PortAt(dpids, x)
    ensures forall at: PortId, x {:trigger PortAt(PopPort(dpids, at), x)} :: at.dpid in dpids ==>
              PortAt(PopPort(dpids, at), x) == if x == at then None else PortAt(dpids, x)
  {
  }

  function AddMac(macs: MacIndex, n: NetworkId, at: PortId, m: Mac): MacIndex {
    var perMac := if n in macs then macs[n] else map[];
    macs[n := perMac[m := MacPorts(macs, n, m) + {at}]]
  }

  function RemoveMac(macs: MacIndex, n: NetworkId, at: PortId, m: Mac): MacIndex {
    if n !in macs then macs
    else
      var ports := MacPorts(macs, n, m) - {at};
      var perMac := if ports == {} then macs[n] - {m} else macs[n][m := ports];
      if perMac == map[] then macs - {n} else macs[n := perMac]
  }

  function RemoveMember(networks: NetworkIndex, n: NetworkId, at: PortId): NetworkIndex {
    if InNetwork(networks, n, at) then networks[n := networks[n] - {at}] else networks
  }

  // ------------------------------------------------------------ store calls

  /** The public calls of `Network` that change the store. */
  datatype Op =
    | CreateNetwork(n: NetworkId)
    | UpdateNetwork(n: NetworkId)
    | RemoveNetwork(n: NetworkId)
    | CreatePort(n: NetworkId, at: PortId)
    | UpdatePort(n: NetworkId, at: PortId)
    | RemovePort(n: NetworkId, at: PortId)
    | CreateMac(n: NetworkId, at: PortId, m: Mac)
    | UpdateMac(n: NetworkId, at: PortId, m: Mac)
    | PortAdded(at: PortId)
    | PortDeleted(at: PortId)

  /** What a call leaves behind: the store, the exception if it raised one, and
      the events it sent, oldest first. */
  datatype Outcome = Outcome(store: Store, error: Option<Error>, events: seq<Event>)

  const OFPP_MAX: PortNo := 0xff00

  function Raise(s: Store, e: Error): Outcome { Outcome(s, Some(e), []) }

  function ApplyUpdatePort(s: Store, n: NetworkId, at: PortId, mayExist: bool): Outcome {
    var was := NetworkOf(s.dpids, at);
    if n == Unknown then Raise(s, NetworkAlreadyExist)
    else if n !in s.networks then Raise(s, NetworkNotFound)
    else if (InNetwork(s.networks, n, at) || was != Unknown) && !mayExist then Raise(s, PortAlreadyExist)
    else
      var mac := match PortAt(s.dpids, at) case Some(port) => port.mac case None => None;
      var dpids := SetPort(s.dpids, at, Port(n, mac));
      if was == n then Outcome(s.(dpids := dpids), None, [])
      else
        var added := s.networks[n := s.networks[n] + {at}];
        if was == Unknown then
          Outcome(s.(networks := added, dpids := dpids), None, [NetworkPort(n, at, true)])
        else if was !in added then
          Outcome(s.(networks := added), Some(NetworkNotFound), [])
        else
          Outcome(s.(networks := RemoveMember(added, was, at), dpids := dpids), None,
                  (if InNetwork(added, was, at) then [NetworkPort(was, at, false)] else [])
                  + [NetworkPort(n, at, true)])
  }

  function ApplyRemovePort(s: Store, n: NetworkId, at: PortId): Outcome {
    if at.dpid !in s.dpids then Raise(s, PortNotFound)
    else
      var port := PortAt(s.dpids, at);
      var networks := RemoveMember(s.networks, n, at);
      var macs := match port
                  case Some(Port(net, Some(m))) => if net == n then RemoveMac(s.macs, n, at, m) else s.macs
                  case _ => s.macs;
      Outcome(Store(networks, PopPort(s.dpids, at), macs), None,
              MacGone(port, at)
              + (if InNetwork(s.networks, n, at) then [NetworkPort(n, at, false)] else []))
  }

  /** DPIDs.remove_port announces the MAC address of the port it drops. */
  function MacGone(port: Option<Port>, at: PortId): seq<Event> {
    match port
    case Some(Port(net, Some(m))) => [MacAddress(net, at, m, false)]
    case _ => []
  }

  function ApplyCreateMac(s: Store, n: NetworkId, at: PortId, m: Mac): Outcome {
    var macs := AddMac(s.macs, n, at, m);
    match PortAt(s.dpids, at)
    case None => Raise(s.(macs := macs), PortNotFound)
    case Some(port) =>
      if port.mac.Some? then Raise(s.(macs := macs), MacAddressAlreadyExist)
      else if port.network != n && port.network != Unknown then Raise(s.(macs := macs), PortNotFound)
      else Outcome(s.(macs := macs, dpids := SetPort(s.dpids, at, Port(n, Some(m)))), None,
                   [MacAddress(n, at, m, true)])
  }

  function ApplyUpdateMac(s: Store, n: NetworkId, at: PortId, m: Mac): Outcome {
    match PortAt(s.dpids, at)
    case None => Raise(s, PortNotFound)
    case Some(Port(net, None)) =>
      if net != n && net != Unknown then Raise(s, PortNotFound)
      else Outcome(s.(macs := AddMac(s.macs, n, at, m), dpids := SetPort(s.dpids, at, Port(n, Some(m)))), None,
                   [MacAddress(n, at, m, true)])
    case Some(Port(net, Some(was))) =>
      if was != m then Raise(s, MacAddressAlreadyExist)
      else
        var macs := if net == n then RemoveMac(s.macs, n, at, was) else s.macs;
        Outcome(s.(macs := AddMac(macs, n, at, m)), None, [])
  }

  function ApplyPortAdded(s: Store, at: PortId): Outcome {
    if at.port == 0 || at.port >= OFPP_MAX || PortAt(s.dpids, at).Some? then Outcome(s, None, [])
    else Outcome(s.(dpids := SetPort(s.dpids, at, Port(Unknown, None))), None, [])
  }

  function ApplyPortDeleted(s: Store, at: PortId): Outcome {
    if at.dpid !in s.dpids then Raise(s, PortNotFound)
    else Outcome(s.(dpids := PopPort(s.dpids, at)), None, MacGone(PortAt(s.dpids, at), at))
  }

  /** One call.  `order` is the order in which remove_network pops the ports of
      a network that still has some; Python leaves it open. */
  function Apply(s: Store, op: Op, order: seq<PortId>): Outcome {
    match op
    case CreateNetwork(n) =>
      if n == Unknown || n in s.networks then Raise(s, NetworkAlreadyExist)
      else Outcome(s.(networks := s.networks[n := {}]), None, [])
    case UpdateNetwork(n) =>
      if n == Unknown then Raise(s, NetworkAlreadyExist)
      else if n in s.networks then Outcome(s, None, [])
      else Outcome(s.(networks := s.networks[n := {}]), None, [])
    case RemoveNetwork(n) =>
      if n !in s.networks then Raise(s, NetworkNotFound)
      else Outcome(s.(networks := s.networks - {n}), None, Drained(n, order) + [NetworkDel(n)])
    case CreatePort(n, at) => ApplyUpdatePort(s, n, at, false)
    case UpdatePort(n, at) => ApplyUpdatePort(s, n, at, true)
    case RemovePort(n, at) => ApplyRemovePort(s, n, at)
    case CreateMac(n, at, m) => ApplyCreateMac(s, n, at, m)
    case UpdateMac(n, at, m) => ApplyUpdateMac(s, n, at, m)
    case PortAdded(at) => ApplyPortAdded(s, at)
    case PortDeleted(at) => ApplyPortDeleted(s, at)
  }

  function Drained(n: NetworkId, order: seq<PortId>): seq<Event> {
    seq(|order|, i requires 0 <= i < |order| => NetworkPort(n, order[i], false))
  }

  // -------------------------------------------------------- index agreement

  /** The three indexes tell the same story: a network lists exactly the ports
      whose own entry names it, and a MAC lists exactly the ports that carry it.
      (An empty set of ports and a missing one are the same thing.) */
  ghost predicate Agree(s: Store) {
    && Unknown !in s.networks
    && (forall n, at :: MemberAgrees(s, n, at))
    && (forall n, m, at :: MacAgrees(s, n, m, at))
  }

  predicate MemberAgrees(s: Store, n: NetworkId, at: PortId) {
    InNetwork(s.networks, n, at) <==> n != Unknown && NetworkOf(s.dpids, at) == n
  }

  predicate MacAgrees(s: Store, n: NetworkId, m: Mac, at: PortId) {
    at in MacPorts(s.macs, n, m) <==> PortAt(s.dpids, at) == Some(Port(n, Some(m)))
  }

  /** What a caller has to check before the call. */
  predicate Safe(s: Store, op: Op) {
    match op
    case CreateNetwork(_) => true
    case UpdateNetwork(_) => true
    case RemoveNetwork(n) => n !in s.networks || s.networks[n] == {}
    case CreatePort(n, at) => n == Unknown || n !in s.networks || NetworkOf(s.dpids, at) != Unknown || SafeMove(s, n, at)
    case UpdatePort(n, at) => n == Unknown || n !in s.networks || SafeMove(s, n, at)
    case RemovePort(n, at) =>
      (match PortAt(s.dpids, at)
       case None => true
       case Some(port) => port.network == n || port == Port(Unknown, None))
    case CreateMac(n, at, m) =>
      (match PortAt(s.dpids, at)
       case None => false
       case Some(port) => port.network == n && (port.mac == None || port.mac == Some(m)))
    case UpdateMac(n, at, m) =>
      (match PortAt(s.dpids, at)
       case None => true
       case Some(port) =>
         if port.mac == None then port.network != Unknown || n == Unknown
         else port.mac == Some(m) ==> port.network == n)
    case PortAdded(_) => true
    case PortDeleted(at) => PortAt(s.dpids, at) == None || PortAt(s.dpids, at) == Some(Port(Unknown, None))
  }

  /** A port may change network only before it has a MAC address. */
  predicate SafeMove(s: Store, n: NetworkId, at: PortId) {
    match PortAt(s.dpids, at)
    case None => true
    case Some(port) => port.network == n || port.mac == None
  }

  /** Each call keeps the three indexes in agreement exactly when it is safe. */
  lemma AgreementExactlyWhenSafe(s: Store, op: Op, order: seq<PortId>)
    requires Agree(s)
    ensures Agree(Apply(s, op, order).store) <==> Safe(s, op)
  {
    if Safe(s, op) {
      SafeKeepsMembers(s, op, order);
      SafeKeepsMacs(s, op, order);
    } else {
      UnsafeBreaksAgreement(s, op, order);
    }
  }

  lemma SafeKeepsMembers(s: Store, op: Op, order: seq<PortId>)
    requires Agree(s) && Safe(s, op)
    ensures var s' := Apply(s, op, order).store;
            Unknown !in s'.networks && forall n, at :: MemberAgrees(s', n, at)
  {
    var s' := Apply(s, op, order).store;
    forall n, at ensures MemberAgrees(s', n, at) {
      if op.CreatePort? || op.UpdatePort? {
        MemberKeptByMove(s, op, order, n, at);
      } else {
        MemberKept(s, op, order, n, at);
      }
    }
  }

  lemma MemberKeptByMove(s: Store, op: Op, order: seq<PortId>, n: NetworkId, at: PortId)
    requires (op.CreatePort? || op.UpdatePort?) && Safe(s, op)
    requires MemberAgrees(s, n, at) && MemberAgrees(s, NetworkOf(s.dpids, op.at), op.at)
    ensures MemberAgrees(Apply(s, op, order).store, n, at)
  {
    hide PortAt, SetPort, PopPort;
    OnlyThatPort(s.dpids);
  }

  lemma MemberKept(s: Store, op: Op, order: seq<PortId>, n: NetworkId, at: PortId)
    requires !op.CreatePort? && !op.UpdatePort? && Safe(s, op) && MemberAgrees(s, n, at)
    ensures MemberAgrees(Apply(s, op, order).store, n, at)
  {
    hide PortAt, SetPort, PopPort, AddMac, RemoveMac;
    OnlyThatPort(s.dpids);
  }

  lemma SafeKeepsMacs(s: Store, op: Op, order: seq<PortId>)
    requires Agree(s) && Safe(s, op)
    ensures var s' := Apply(s, op, order).store; forall n, m, at :: MacAgrees(s', n, m, at)
  {
    forall n, m, at ensures MacAgrees(Apply(s, op, order).store, n, m, at) {
      MacKept(s, op, order, n, m, at);
    }
  }

  lemma MacKept(s: Store, op: Op, order: seq<PortId>, n: NetworkId, m: Mac, at: PortId)
    requires Safe(s, op) && MacAgrees(s, n, m, at)
    ensures MacAgrees(Apply(s, op, order).store, n, m, at)
  {
    hide PortAt, SetPort, PopPort, AddMac, RemoveMac, MacPorts, RemoveMember, InNetwork, ApplyRemovePort, ApplyUpdateMac;
    OnlyThatPort(s.dpids);
    match op
    case CreateMac(n', at', m') => MacPortsAddMac(s.macs, n', at', m', n, m);
    case RemovePort(n', at') => MacKeptByRemoval(s, n', at', n, m, at);
    case UpdateMac(n', at', m') => MacKeptByUpdate(s, n', at', m', n, m, at);
    case _ =>
  }

  lemma MacKeptByRemoval(s: Store, n': NetworkId, at': PortId, n: NetworkId, m: Mac, at: PortId)
    requires Safe(s, RemovePort(n', at')) && MacAgrees(s, n, m, at)
    ensures MacAgrees(ApplyRemovePort(s, n', at').store, n, m, at)
  {
    hide PortAt, PopPort, RemoveMac, RemoveMember, InNetwork;
    OnlyThatPort(s.dpids);
    if PortAt(s.dpids, at').Some? && PortAt(s.dpids, at').value.mac.Some? {
      MacPortsRemoveMac(s.macs, n', at', PortAt(s.dpids, at').value.mac.value, n, m);
    } else if PortAt(s.dpids, at').Some? {
      assert PortAt(s.dpids, at').value.mac == None;
    }
  }

  lemma MacKeptByUpdate(s: Store, n': NetworkId, at': PortId, m': Mac, n: NetworkId, m: Mac, at: PortId)
    requires Safe(s, UpdateMac(n', at', m')) && MacAgrees(s, n, m, at)
    ensures MacAgrees(ApplyUpdateMac(s, n', at', m').store, n, m, at)
  {
    hide PortAt, SetPort, AddMac, RemoveMac, MacPorts;
    OnlyThatPort(s.dpids);
    MacPortsRemoveMac(s.macs, n', at', m', n, m);
    MacPortsAddMac(s.macs, n', at', m', n, m);
    MacPortsAddMac(RemoveMac(s.macs, n', at', m'), n', at', m', n, m);
  }

  lemma MacPortsAddMac(macs: MacIndex, n: NetworkId, at: PortId, m: Mac, n': NetworkId, m': Mac)
    ensures MacPorts(AddMac(macs, n, at, m), n', m') ==
            MacPorts(macs, n', m') + (if n' == n && m' == m then {at} else {})
  {
  }

  lemma MacPortsRemoveMac(macs: MacIndex, n: NetworkId, at: PortId, m: Mac, n': NetworkId, m': Mac)
    ensures MacPorts(RemoveMac(macs, n, at, m), n', m') ==
            MacPorts(macs, n', m') - (if n' == n && m' == m then {at} else {})
  {
    if n in macs {
      var ports := MacPorts(macs, n, m) - {at};
      var perMac := if ports == {} then macs[n] - {m} else macs[n][m := ports];
      assert n' == n && m' in perMac ==> perMac[m'] == if m' == m then ports else macs[n][m'];
      assert n' == n && m' in macs[n] && m' !in perMac ==> m' == m && ports == {};
    }
  }

  /** A port that moves with its MAC is still listed under the old network's. */
  lemma UnsafeMoveBreaks(s: Store, n: NetworkId, at: PortId, mayExist: bool)
    requires Agree(s) && n != Unknown && n in s.networks && !SafeMove(s, n, at)
    requires mayExist || NetworkOf(s.dpids, at) == Unknown
    ensures !Agree(ApplyUpdatePort(s, n, at, mayExist).store)
  {
    hide PortAt, SetPort;
    var s', was := ApplyUpdatePort(s, n, at, mayExist).store, PortAt(s.dpids, at).value;
    OnlyThatPort(s.dpids);
    assert MemberAgrees(s, was.network, at) && MemberAgrees(s, n, at);
    assert MacAgrees(s, was.network, was.mac.value, at);
    assert s'.macs == s.macs && PortAt(s'.dpids, at) == Some(Port(n, was.mac));
    assert !MacAgrees(s', was.network, was.mac.value, at);
  }

  /** An unsafe call leaves a witness: a port that one index still has, or
      already has, and its own entry does not. */
  lemma UnsafeBreaksAgreement(s: Store, op: Op, order: seq<PortId>)
    requires Agree(s) && !Safe(s, op)
    ensures !Agree(Apply(s, op, order).store)
  {
    var s' := Apply(s, op, order).store;
    if op.RemoveNetwork? {
      var at :| at in s.networks[op.n];
      assert MemberAgrees(s, op.n, at) && !MemberAgrees(s', op.n, at);
    } else if op.CreatePort? || op.UpdatePort? {
      UnsafeMoveBreaks(s, op.n, op.at, op.UpdatePort?);
    } else {
      var at := op.at;
      var was := PortAt(s.dpids, at);
      if was.Some? {
        assert MemberAgrees(s, was.value.network, at);
        if op.CreateMac? || op.UpdateMac? { assert MemberAgrees(s, op.n, at); }
        if was.value.mac.Some? {
          assert MacAgrees(s, was.value.network, was.value.mac.value, at);
          assert !MacAgrees(s', was.value.network, was.value.mac.value, at)
                 || !MemberAgrees(s', was.value.network, at)
                 || ((op.CreateMac? || op.UpdateMac?) && !MacAgrees(s', op.n, op.m, at));
        } else {
          assert !MemberAgrees(s', was.value.network, at)
                 || ((op.CreateMac? || op.UpdateMac?) && (!MemberAgrees(s', op.n, at) || !MacAgrees(s', op.n, op.m, at)));
        }
      } else {
        assert !MacAgrees(s', op.n, op.m, at);
      }
    }
  }

  /** Under a safe call a port joins a network only by being put there, gets a
      MAC only by being given it, and loses that only by being removed. */
  lemma HowPortsChange(s: Store, op: Op, order: seq<PortId>, x: PortId)
    requires Safe(s, op)
    ensures var dpids' := Apply(s, op, order).store.dpids;
            && (NetworkOf(dpids', x) != NetworkOf(s.dpids, x) && NetworkOf(dpids', x) != Unknown ==>
                  (op == CreatePort(NetworkOf(dpids', x), x) || op == UpdatePort(NetworkOf(dpids', x), x))
                  && (PortAt(dpids', x).value.mac == None || PortAt(s.dpids, x) == None))
            && (PortAt(dpids', x) != PortAt(s.dpids, x) && PortAt(dpids', x).Some? && PortAt(dpids', x).value.mac.Some? ==>
                  var Port(n, mac) := PortAt(dpids', x).value;
                  op == CreateMac(n, x, mac.value) || op == UpdateMac(n, x, mac.value))
            && (PortAt(dpids', x) != PortAt(s.dpids, x) && PortAt(s.dpids, x).Some? && PortAt(s.dpids, x).value.mac.Some? ==>
                  op == RemovePort(PortAt(s.dpids, x).value.network, x) && PortAt(dpids', x) == None)
  {
    hide PortAt, SetPort, PopPort, AddMac, RemoveMac, RemoveMember, InNetwork;
    OnlyThatPort(s.dpids);
  }

  /** What the events of a safe call say about the store they are handled in:
      a port that changed network has no MAC, a MAC that was announced is there,
      and a MAC that was withdrawn was there before. */
  lemma WhatEventsSay(s: Store, op: Op, order: seq<PortId>, ev: Event)
    requires Safe(s, op) && ev in Apply(s, op, order).events
    requires op.RemoveNetwork? ==> order == []
    ensures var dpids' := Apply(s, op, order).store.dpids;
            match ev
            case NetworkDel(_) => true
            case NetworkPort(_, at, _) => PortAt(dpids', at) == None || PortAt(dpids', at).value.mac == None
            case MacAddress(n, at, m, true) => PortAt(dpids', at) == Some(Port(n, Some(m)))
            case MacAddress(n, at, m, false) =>
              op == RemovePort(n, at) && PortAt(s.dpids, at) == Some(Port(n, Some(m)))
  {
  }

  /** A port is never in two networks. */
  lemma OneNetworkPerPort(s: Store, n: NetworkId, n': NetworkId, at: PortId)
    requires Agree(s) && InNetwork(s.networks, n, at) && InNetwork(s.networks, n', at)
    ensures n == n'
  {
    assert MemberAgrees(s, n, at) && MemberAgrees(s, n', at);
  }

  /** Who joins or leaves a network is announced, and nobody else: with one event
      for each, by every call that does not raise, guarded or not. */
  lemma MembershipAnnounced(s: Store, op: Op, order: seq<PortId>, n: NetworkId, at: PortId, add: bool)
    requires Agree(s) && Apply(s, op, order).error == None
    requires op.RemoveNetwork? && op.n in s.networks ==> multiset(order) == multiset(s.networks[op.n])
    ensures NetworkPort(n, at, add) in Apply(s, op, order).events
            <==> InNetwork(s.networks, n, at) == !add && InNetwork(Apply(s, op, order).store.networks, n, at) == add
  {
    assert MemberAgrees(s, n, at);
    if op.RemoveNetwork? { DrainedAll(s.networks[op.n], op.n, order, n, at, add); }
    hide SetPort, PopPort, AddMac, RemoveMac;
  }

  lemma DrainedAll(ports: set<PortId>, n: NetworkId, order: seq<PortId>, n': NetworkId, at: PortId, add: bool)
    requires multiset(order) == multiset(ports)
    ensures NetworkPort(n', at, add) in Drained(n, order) <==> n' == n && at in ports && !add
  {
    assert at in ports <==> at in multiset(order);
    if at in order {
      var i :| 0 <= i < |order| && order[i] == at;
      assert Drained(n, order)[i] == NetworkPort(n, at, false);
    }
  }

  /** The event tells that a port of network `n` got or lost MAC `m`. */
  predicate TellsMac(s: Store, op: Op, order: seq<PortId>, n: NetworkId, at: PortId, m: Mac, add: bool) {
    var carried, carries := PortAt(s.dpids, at) == Some(Port(n, Some(m))),
                            PortAt(Apply(s, op, order).store.dpids, at) == Some(Port(n, Some(m)));
    carried == !add && carries == add
  }

  /** Likewise every MAC that is set or goes, by every guarded call. */
  lemma MacsAnnounced(s: Store, op: Op, order: seq<PortId>, n: NetworkId, at: PortId, m: Mac, add: bool)
    requires Safe(s, op)
    ensures MacAddress(n, at, m, add) in Apply(s, op, order).events <==> TellsMac(s, op, order, n, at, m, add)
  {
    if op.CreatePort? || op.UpdatePort? {
      MovesTellNoMac(s, op, order, n, at, m, add);
    } else if op.CreateMac? || op.UpdateMac? {
      MacCallsTell(s, op, order, n, at, m, add);
    } else {
      OthersTellMac(s, op, order, n, at, m, add);
    }
  }

  lemma MovesTellNoMac(s: Store, op: Op, order: seq<PortId>, n: NetworkId, at: PortId, m: Mac, add: bool)
    requires Safe(s, op) && (op.CreatePort? || op.UpdatePort?)
    ensures MacAddress(n, at, m, add) in Apply(s, op, order).events <==> TellsMac(s, op, order, n, at, m, add)
  {
    hide SetPort, PortAt, InNetwork;
    OnlyThatPort(s.dpids);
  }

  lemma MacCallsTell(s: Store, op: Op, order: seq<PortId>, n: NetworkId, at: PortId, m: Mac, add: bool)
    requires Safe(s, op) && (op.CreateMac? || op.UpdateMac?)
    ensures MacAddress(n, at, m, add) in Apply(s, op, order).events <==> TellsMac(s, op, order, n, at, m, add)
  {
    hide SetPort, PortAt, AddMac, RemoveMac;
    OnlyThatPort(s.dpids);
  }

  lemma OthersTellMac(s: Store, op: Op, order: seq<PortId>, n: NetworkId, at: PortId, m: Mac, add: bool)
    requires Safe(s, op) && !op.CreatePort? && !op.UpdatePort? && !op.CreateMac? && !op.UpdateMac?
    ensures MacAddress(n, at, m, add) in Apply(s, op, order).events <==> TellsMac(s, op, order, n, at, m, add)
  {
    hide SetPort, PopPort, PortAt, RemoveMac, InNetwork;
    OnlyThatPort(s.dpids);
    if op.RemoveNetwork? { NoMacDrained(op.n, order, n, at, m, add); }
  }

  lemma NoMacDrained(n: NetworkId, order: seq<PortId>, n': NetworkId, at: PortId, m: Mac, add: bool)
    ensures MacAddress(n', at, m, add) !in Drained(n, order)
  {
  }

  // ------------------------------------------------------------------- runs

  datatype Call = Call(op: Op, order: seq<PortId>)

  function Run(s: Store, calls: seq<Call>): Store
    decreases |calls|
  {
    if calls == [] then s
    else Run(Apply(s, calls[0].op, calls[0].order).store, calls[1..])
  }

  predicate SafeRun(s: Store, calls: seq<Call>)
    decreases |calls|
  {
    calls == [] ||
    (Safe(s, calls[0].op) && SafeRun(Apply(s, calls[0].op, calls[0].order).store, calls[1..]))
  }

  /** Over every run of safe calls, failing ones included, the indexes agree. */
  lemma {:induction false} RunKeepsAgreement(s: Store, calls: seq<Call>)
    requires Agree(s) && SafeRun(s, calls)
    ensures Agree(Run(s, calls))
    decreases |calls|
  {
    if calls != [] {
      AgreementExactlyWhenSafe(s, calls[0].op, calls[0].order);
      RunKeepsAgreement(Apply(s, calls[0].op, calls[0].order).store, calls[1..]);
    }
  }

  // -------------------------------------------------------------- the object

  /** The object other applications hold.  `sent` is what it has put on its
      observers' queues so far. */
  class Network {
    var networks: NetworkIndex
    var dpids: DpidIndex
    var macs: MacIndex
    var sent: seq<Event>

    constructor ()
      ensures Contents() == EMPTY && sent == []
    {
      networks, dpids, macs, sent := map[], map[], map[], [];
    }

    ghost function Contents(): Store
      reads this
    {
      Store(networks, dpids, macs)
    }

    /** What a call returns or raises, leaves in the store and sends. */
    twostate predicate Did(op: Op, new order: seq<PortId>, new error: Option<Error>)
      reads this
    {
      var out := Apply(old(Contents()), op, order);
      Contents() == out.store && error == out.error && sent == old(sent) + out.events
    }

    method CreateNetwork(n: NetworkId) returns (error: Option<Error>)
      modifies this
      ensures Did(Op.CreateNetwork(n), [], error)
    {
      if n == Unknown || n in networks { return Some(NetworkAlreadyExist); }
      networks := networks[n := {}];
      return None;
    }

    method UpdateNetwork(n: NetworkId) returns (error: Option<Error>)
      modifies this
      ensures Did(Op.UpdateNetwork(n), [], error)
    {
      if n == Unknown { return Some(NetworkAlreadyExist); }
      if n !in networks { networks := networks[n := {}]; }
      return None;
    }

    /** Drains the network port by port, then drops it.  `order` is the order
        in which the ports were popped: each exactly once. */
    method RemoveNetwork(n: NetworkId) returns (error: Option<Error>, ghost order: seq<PortId>)
      modifies this
      ensures Did(Op.RemoveNetwork(n), order, error)
      ensures multiset(order) == if n in old(networks) then multiset(old(networks[n])) else multiset{}
    {
      order := [];
      if n !in networks { return Some(NetworkNotFound), order; }
      var ports := networks[n];
      while ports != {}
        invariant ports <= old(networks[n])
        invariant n in networks && networks == old(networks)[n := ports]
        invariant dpids == old(dpids) && macs == old(macs)
        invariant multiset(order) + multiset(ports) == multiset(old(networks[n]))
        invariant sent == old(sent) + Drained(n, order)
        decreases ports
      {
        var at :| at in ports;
        ports := ports - {at};
        networks := networks[n := ports];
        sent := sent + [NetworkPort(n, at, false)];
        assert Drained(n, order + [at]) == Drained(n, order) + [NetworkPort(n, at, false)];
        order := order + [at];
      }
      networks := networks - {n};
      sent := sent + [NetworkDel(n)];
      return None, order;
    }

    method CreatePort(n: NetworkId, at: PortId) returns (error: Option<Error>)
      modifies this
      ensures Did(Op.CreatePort(n, at), [], error)
    {
      error := MovePort(n, at, false);
    }

    method UpdatePort(n: NetworkId, at: PortId) returns (error: Option<Error>)
      modifies this
      ensures Did(Op.UpdatePort(n, at), [], error)
    {
      error := MovePort(n, at, true);
    }

    /** _update_port. */
    method MovePort(n: NetworkId, at: PortId, mayExist: bool) returns (error: Option<Error>)
      modifies this
      ensures Did(if mayExist then Op.UpdatePort(n, at) else Op.CreatePort(n, at), [], error)
    {
      if n == Unknown { return Some(NetworkAlreadyExist); }
      var was := NetworkOf(dpids, at);
      if n !in networks { return Some(NetworkNotFound); }
      if (at in networks[n] || was != Unknown) && !mayExist { return Some(PortAlreadyExist); }
      var queueAdd := false;
      if was != n {
        queueAdd := true;
        networks := networks[n := networks[n] + {at}];
        if was != Unknown {
          if was !in networks { return Some(NetworkNotFound); }
          if at in networks[was] {
            networks := networks[was := networks[was] - {at}];
            sent := sent + [NetworkPort(was, at, false)];
          }
        }
      }
      var port := PortAt(dpids, at);
      dpids := SetPort(dpids, at, Port(n, if port.Some? then port.value.mac else None));
      if queueAdd { sent := sent + [NetworkPort(n, at, true)]; }
      return None;
    }

    method RemovePort(n: NetworkId, at: PortId) returns (error: Option<Error>)
      modifies this
      ensures Did(Op.RemovePort(n, at), [], error)
    {
      var port := PortAt(dpids, at);
      var oldMac := if port.Some? && port.value.network == n then port.value.mac else None;
      if at.dpid !in dpids { return Some(PortNotFound); }
      dpids := PopPort(dpids, at);
      if port.Some? && port.value.mac.Some? {
        sent := sent + [MacAddress(port.value.network, at, port.value.mac.value, false)];
      }
      if n in networks && at in networks[n] {
        networks := networks[n := networks[n] - {at}];
        sent := sent + [NetworkPort(n, at, false)];
      }
      if oldMac.Some? { macs := RemoveMac(macs, n, at, oldMac.value); }
      return None;
    }

    method CreateMac(n: NetworkId, at: PortId, m: Mac) returns (error: Option<Error>)
      modifies this
      ensures Did(Op.CreateMac(n, at, m), [], error)
    {
      macs := AddMac(macs, n, at, m);
      var port := PortAt(dpids, at);
      if port == None { return Some(PortNotFound); }
      if port.value.mac.Some? { return Some(MacAddressAlreadyExist); }
      error := SetMac(n, at, m, port.value);
    }

    method UpdateMac(n: NetworkId, at: PortId, m: Mac) returns (error: Option<Error>)
      modifies this
      ensures Did(Op.UpdateMac(n, at, m), [], error)
    {
      var port := PortAt(dpids, at);
      if port == None { return Some(PortNotFound); }
      var oldMac := if port.value.network == n then port.value.mac else None;
      if port.value.mac == None {
        error := SetMac(n, at, m, port.value);
        if error.Some? { return; }
      } else if port.value.mac != Some(m) {
        return Some(MacAddressAlreadyExist);
      }
      if oldMac.Some? { macs := RemoveMac(macs, n, at, oldMac.value); }
      macs := AddMac(macs, n, at, m);
      return None;
    }

    /** DPIDs._set_mac on a port that has no MAC address yet. */
    method SetMac(n: NetworkId, at: PortId, m: Mac, port: Port) returns (error: Option<Error>)
      modifies this`dpids, this`sent
      ensures port.network != n && port.network != Unknown ==>
              error == Some(PortNotFound) && dpids == old(dpids) && sent == old(sent)
      ensures port.network == n || port.network == Unknown ==>
              && error == None && dpids == SetPort(old(dpids), at, Port(n, Some(m)))
              && sent == old(sent) + [MacAddress(n, at, m, true)]
    {
      if port.network != n && port.network != Unknown { return Some(PortNotFound); }
      dpids := SetPort(dpids, at, Port(n, Some(m)));
      sent := sent + [MacAddress(n, at, m, true)];
      return None;
    }

    method PortAdded(at: PortId)
      modifies this
      ensures Did(Op.PortAdded(at), [], None)
    {
      if at.port == 0 || at.port >= OFPP_MAX { return; }
      if PortAt(dpids, at) == None { dpids := SetPort(dpids, at, Port(Unknown, None)); }
    }

    method PortDeleted(at: PortId) returns (error: Option<Error>)
      modifies this
      ensures Did(Op.PortDeleted(at), [], error)
    {
      if at.dpid !in dpids { return Some(PortNotFound); }
      sent := sent + MacGone(PortAt(dpids, at), at);
      dpids := PopPort(dpids, at);
      return None;
    }
  }
}
