/** Whole runs of the overlay: store calls, tunnel registrations, link changes
    and joining switches, each followed at once by the flow modifications it
    leads to. */
module OverlaySystem {
  import opened Wrappers
  import opened TenantStore
  import opened TunnelStore
  import opened Overlay
  import TunnelMesh

  datatype Step =
    | StoreCall(call: Call)
    | SetKey(n: NetworkId, k: Key, update: bool, order: seq<PortId>)
    | SetTunnel(at: PortId, remote: Dpid, update: bool)
    | DropTunnel(at: PortId)
    | PortUp(at: PortId)
    | PortDown(at: PortId)
    | SwitchEnter(d: Dpid, ports: set<PortNo>, order: seq<PortId>)

  /** `ever` remembers every port that has been a tunnel port and has not been
      given to a VM since. */
  datatype World = World(env: Env, flows: Flows, ever: set<PortId>)

  const START := World(Env(EMPTY, Tunnels(map[], map[]), {}, {}), map[], {})

  function KeyCall(t: Tunnels, step: Step): Changed
    requires step.SetKey?
  {
    if step.update then UpdateKey(t, step.n, step.k) else RegisterKey(t, step.n, step.k)
  }

  function TunnelCall(t: Tunnels, step: Step): Changed
    requires step.SetTunnel?
  {
    if step.update then TunnelStore.UpdateRemote(t, step.at, step.remote) else RegisterPort(t, step.at, step.remote)
  }

  function OrSame(t: Tunnels, c: Changed): Tunnels {
    if c.Ok? then c.value else t
  }

  function EnvAfter(env: Env, step: Step): Env {
    match step
    case StoreCall(call) => env.(nw := Apply(env.nw, call.op, call.order).store)
    case SetKey(_, _, _, _) => env.(tun := OrSame(env.tun, KeyCall(env.tun, step)))
    case SetTunnel(_, _, _) => env.(tun := OrSame(env.tun, TunnelCall(env.tun, step)))
    case DropTunnel(at) => env.(tun := OrSame(env.tun, TunnelStore.DeletePort(env.tun, at)))
    case PortUp(at) => env.(up := env.up + {at})
    case PortDown(at) => env.(up := env.up - {at})
    case SwitchEnter(d, ports, _) =>
      env.(connected := env.connected + {d}, up := env.up + (set p | p in ports :: PortId(d, p)))
  }

  /** The events PortSet passes on, with the environment as the step left it.
      A deleted tunnel port is gone before its event is looked at. */
  function EventsOf(env: Env, step: Step): seq<GreEvent> {
    var env' := EnvAfter(env, step);
    match step
    case StoreCall(call) => StoreEvents(env', Apply(env.nw, call.op, call.order).events)
    case SetKey(n, _, _, order) =>
      if KeyCall(env.tun, step).Ok? && n !in env.tun.keys then NetworkPortEvents(env', order, n) else []
    case SetTunnel(at, _, _) =>
      if TunnelCall(env.tun, step).Ok? && at !in env.tun.remotes then PortEvent(env', at, true) else []
    case DropTunnel(at) => if at in env.tun.remotes then PortEvent(env', at, false) else []
    case PortUp(at) => PortEvent(env', at, true)
    case PortDown(at) => PortEvent(env', at, false)
    case SwitchEnter(_, _, order) => PortEvents(env', order)
  }

  function After(w: World, step: Step): World {
    var env' := EnvAfter(w.env, step);
    var flows := if step.SwitchEnter? then w.flows[step.d := map[]] else w.flows;
    World(env', HandleAll(env', flows, EventsOf(w.env, step)), EverAfter(w, step))
  }

  function EverAfter(w: World, step: Step): set<PortId> {
    match step
    case SetTunnel(at, _, _) => if TunnelCall(w.env.tun, step).Ok? then w.ever + {at} else w.ever
    case StoreCall(call) => if GivesToVm(w, call) then w.ever - {call.op.at} else w.ever
    case _ => w.ever
  }

  predicate GivesToVm(w: World, call: Call) {
    (call.op.CreatePort? || call.op.UpdatePort?) && call.op.n.Tenant?
    && NetworkOf(Apply(w.env.nw, call.op, call.order).store.dpids, call.op.at) == call.op.n
  }

  /** What the rest of the system owes the overlay. */
  predicate Allowed(w: World, step: Step) {
    match step
    case StoreCall(call) =>
      Safe(w.env.nw, call.op) && TunnelMesh.PopOrder(w.env.nw, call) && AllowedCall(w, call.op)
    case SetKey(n, _, _, order) =>
      multiset(order) == if n in w.env.nw.networks then multiset(w.env.nw.networks[n]) else multiset{}
    case SetTunnel(at, remote, _) =>
      PortsTo(w.env.tun, at.dpid, remote) <= {at.port} && !NetworkOf(w.env.nw.dpids, at).Tenant?
    case DropTunnel(_) => true
    case PortUp(at) => at.dpid in w.env.connected
    case PortDown(_) => true
    case SwitchEnter(d, ports, order) =>
      d !in w.env.connected &&
      multiset(order) == multiset(set p | p in ports + PortsOf(w.env.nw, d).Keys :: PortId(d, p))
  }

  /** A former tunnel port becomes a VM port only once no row uses it as a tunnel,
      VM ports have real port numbers, and a MAC sits on at most two ports, of
      different switches. */
  predicate AllowedCall(w: World, op: Op) {
    match op
    case CreatePort(n, at) => n.Tenant? ==> FreeForVm(w, at) && at.port <= OFPP_MAX
    case UpdatePort(n, at) => n.Tenant? ==> FreeForVm(w, at) && at.port <= OFPP_MAX
    case CreateMac(n, at, m) => RareMac(w.env.nw.macs, n, at, m)
    case UpdateMac(n, at, m) => RareMac(w.env.nw.macs, n, at, m)
    case _ => true
  }

  predicate FreeForVm(w: World, at: PortId) {
    at !in w.ever || (at !in w.env.tun.remotes && Unused(w.flows, at))
  }

  /** No row of the switch outputs to the port in TUNNEL_OUT, and none lets its
      packets through to LOCAL_OUT. */
  predicate Unused(flows: Flows, at: PortId) {
    at.dpid in flows ==> forall fk | fk in flows[at.dpid] :: !UsesTunnel(fk, flows[at.dpid][fk], at.port)
  }

  predicate UsesTunnel(fk: FlowKey, a: Actions, p: PortNo) {
    || (fk.table == TUNNEL_OUT_TABLE && p in a.outputs)
    || (fk.table == SRC_TABLE && fk.rule.inPort == Some(p) && a.resubmit == Some(LOCAL_OUT_TABLE))
  }

  predicate RareMac(macs: MacIndex, n: NetworkId, at: PortId, m: Mac) {
    && |MacPorts(macs, n, m) - {at}| <= 1
    && forall other | other in MacPorts(macs, n, m) - {at} :: other.dpid != at.dpid
  }

  ghost predicate EnvOk(w: World) {
    && Agree(w.env.nw)
    && Injective(w.env.tun.keys)
    && OnePortEach(w.env.tun)
    && w.env.tun.remotes.Keys <= w.ever
    && w.flows.Keys == w.env.connected
    && (forall at :: NetworkOf(w.env.nw.dpids, at).Tenant? ==> at !in w.ever && at.port <= OFPP_MAX)
    && (forall n, m, at :: at in MacPorts(w.env.nw.macs, n, m) ==> RareMac(w.env.nw.macs, n, at, m))
  }

  lemma {:induction false} HandleAllKeys(env: Env, flows: Flows, evs: seq<GreEvent>)
    ensures HandleAll(env, flows, evs).Keys == flows.Keys
    decreases |evs|
  {
    if evs != [] {
      assert Handle(env, flows, evs[0]).Keys == flows.Keys;
      HandleAllKeys(env, Handle(env, flows, evs[0]), evs[1..]);
    }
  }

  lemma AllowedKeepsEnv(w: World, step: Step)
    requires EnvOk(w) && Allowed(w, step)
    ensures EnvOk(After(w, step))
  {
    var w' := After(w, step);
    HandleAllKeys(w'.env, if step.SwitchEnter? then w.flows[step.d := map[]] else w.flows, EventsOf(w.env, step));
    match step
    case StoreCall(call) => AllowedCallKeepsEnv(w, call);
    case SetKey(n, k, _, _) => KeysStayInjective(w.env.tun, n, k);
    case SetTunnel(at, remote, _) => PortRegistrationKeepsOnePort(w.env.tun, at, remote);
    case _ =>
  }

  lemma AllowedCallKeepsEnv(w: World, call: Call)
    requires EnvOk(w) && Allowed(w, StoreCall(call))
    ensures var s' := Apply(w.env.nw, call.op, call.order).store;
            && Agree(s')
            && w.env.tun.remotes.Keys <= EverAfter(w, StoreCall(call))
            && (forall at :: NetworkOf(s'.dpids, at).Tenant? ==> at !in EverAfter(w, StoreCall(call)) && at.port <= OFPP_MAX)
            && (forall n, m, at :: at in MacPorts(s'.macs, n, m) ==> RareMac(s'.macs, n, at, m))
  {
    var s, s' := w.env.nw, Apply(w.env.nw, call.op, call.order).store;
    AgreementExactlyWhenSafe(s, call.op, call.order);
    forall at | NetworkOf(s'.dpids, at).Tenant? ensures at !in EverAfter(w, StoreCall(call)) && at.port <= OFPP_MAX {
      HowPortsChange(s, call.op, call.order, at);
      if NetworkOf(s.dpids, at) == NetworkOf(s'.dpids, at) { assert NetworkOf(s.dpids, at).Tenant?; }
    }
    forall n, m, at | at in MacPorts(s'.macs, n, m) ensures RareMac(s'.macs, n, at, m) {
      MacHoldersRare(w, call, n, m, at);
    }
  }

  lemma NewHolder(s: Store, call: Call, n: NetworkId, m: Mac, x: PortId)
    requires Agree(s) && Safe(s, call.op) && Agree(Apply(s, call.op, call.order).store)
    requires x in MacPorts(Apply(s, call.op, call.order).store.macs, n, m) && x !in MacPorts(s.macs, n, m)
    ensures call.op == CreateMac(n, x, m) || call.op == UpdateMac(n, x, m)
  {
    hide Apply, MacPorts, Safe;
    assert MacAgrees(s, n, m, x) && MacAgrees(Apply(s, call.op, call.order).store, n, m, x);
    HowPortsChange(s, call.op, call.order, x);
  }

  lemma RareHolders(macs: MacIndex, n: NetworkId, at: PortId, m: Mac)
    ensures var others := MacPorts(macs, n, m) - {at};
            RareMac(macs, n, at, m) <==> |others| <= 1 && forall other | other in others :: other.dpid != at.dpid
  {
  }

  predicate GivesMac(op: Op, n: NetworkId, m: Mac) {
    (op.CreateMac? || op.UpdateMac?) && op.n == n && op.m == m
  }

  /** The holders of a MAC after a call: at most the new one joins. */
  lemma HoldersGrow(s: Store, call: Call, n: NetworkId, m: Mac)
    requires Agree(s) && Safe(s, call.op) && Agree(Apply(s, call.op, call.order).store)
    ensures MacPorts(Apply(s, call.op, call.order).store.macs, n, m)
            <= MacPorts(s.macs, n, m) + (if GivesMac(call.op, n, m) then {call.op.at} else {})
  {
    hide Apply, MacPorts, Safe, Agree;
    var was, now := MacPorts(s.macs, n, m), MacPorts(Apply(s, call.op, call.order).store.macs, n, m);
    forall x | x in now && x !in was ensures GivesMac(call.op, n, m) && call.op.at == x {
      NewHolder(s, call, n, m, x);
    }
  }

  lemma GivenMacRare(w: World, call: Call, n: NetworkId, m: Mac)
    requires Allowed(w, StoreCall(call)) && GivesMac(call.op, n, m)
    ensures RareMac(w.env.nw.macs, n, call.op.at, m)
  {
  }

  lemma HeldMacRare(w: World, n: NetworkId, m: Mac, at: PortId)
    requires EnvOk(w) && at in MacPorts(w.env.nw.macs, n, m)
    ensures RareMac(w.env.nw.macs, n, at, m)
  {
  }

  lemma MacHoldersRare(w: World, call: Call, n: NetworkId, m: Mac, at: PortId)
    requires EnvOk(w) && Allowed(w, StoreCall(call))
    requires Agree(Apply(w.env.nw, call.op, call.order).store)
    requires at in MacPorts(Apply(w.env.nw, call.op, call.order).store.macs, n, m)
    ensures RareMac(Apply(w.env.nw, call.op, call.order).store.macs, n, at, m)
  {
    var s, s' := w.env.nw, Apply(w.env.nw, call.op, call.order).store;
    var was, now := MacPorts(s.macs, n, m), MacPorts(s'.macs, n, m);
    HoldersGrow(s, call, n, m);
    hide *;
    if GivesMac(call.op, n, m) && call.op.at !in was {
      GivenMacRare(w, call, n, m);
      RareHolders(s.macs, n, call.op.at, m);
      JoinStaysRare(was, now, call.op.at, at);
    } else {
      assert now <= was;
      HeldMacRare(w, n, m, at);
      RareHolders(s.macs, n, at, m);
      SubsetSmaller(now - {at}, was - {at});
    }
    RareHolders(s'.macs, n, at, m);
  }

  lemma JoinStaysRare(was: set<PortId>, now: set<PortId>, joined: PortId, at: PortId)
    requires joined !in was && now <= was + {joined} && at in now
    requires |was - {joined}| <= 1 && forall other | other in was - {joined} :: other.dpid != joined.dpid
    ensures |now - {at}| <= 1 && forall other | other in now - {at} :: other.dpid != at.dpid
  {
    assert was - {joined} == was;
    if at == joined {
      SubsetSmaller(now - {at}, was);
    } else {
      forall x | x in was ensures x == at { if x != at { SubsetSmaller({x, at}, was); } }
      SubsetSmaller(now - {at}, {joined});
    }
  }

  lemma {:induction false} SubsetSmaller<T>(a: set<T>, b: set<T>)
    requires a <= b
    ensures |a| <= |b|
    decreases |b|
  {
    if x :| x in a { SubsetSmaller(a - {x}, b - {x}); }
  }
}
