/** Concrete runs of the overlay from the empty system, in which what the other
    modules guard against happens. */
module OverlayExamples {
  import opened Wrappers
  import opened TenantStore
  import opened TunnelStore
  import opened Overlay
  import opened OverlaySystem
  import opened OverlayIsolation
  import opened OverlayLocal
  import opened OverlayCompiled
  import opened OverlayDelivery
  import opened OverlayCrossing

  const MINE := Tenant(0)
  const YOURS := Tenant(1)
  const KEY: Key := 100

  // ----------------------------------------------------- building up a state

  /** Allowed steps that lead from one state to another. */
  ghost predicate Leads(w: World, steps: seq<Step>, w': World) {
    AllAllowed(w, steps) && RunAll(w, steps) == w'
  }

  lemma LeadsNowhere(w: World)
    ensures Leads(w, [], w)
  {
  }

  lemma LeadsFirst(w: World, step: Step, rest: seq<Step>, w': World)
    requires Allowed(w, step) && Leads(After(w, step), rest, w')
    ensures Leads(w, [step] + rest, w')
  {
    hide Allowed, After;
    assert ([step] + rest)[1..] == rest;
  }

  lemma {:induction false} LeadsOn(w: World, steps: seq<Step>, w': World, step: Step)
    requires Leads(w, steps, w') && Allowed(w', step)
    ensures Leads(w, steps + [step], After(w', step))
    decreases |steps|
  {
    hide Allowed, After;
    if steps == [] {
      assert steps + [step] == [step] && [step][1..] == [];
      LeadsNowhere(After(w', step));
      LeadsFirst(w, step, [], After(w', step));
      assert [step] + [] == [step];
    } else {
      LeadsOn(After(w, steps[0]), steps[1..], w', step);
      LeadsFirst(w, steps[0], steps[1..] + [step], After(w', step));
      assert [steps[0]] + (steps[1..] + [step]) == steps + [step];
    }
  }

  lemma LeadsFromStart(steps: seq<Step>, w: World)
    requires Leads(START, steps, w)
    ensures WorldOk(w)
  {
    OverlayIsolation.StartOk();
    RunKeepsWorld(START, steps);
  }

  /** No switch has joined yet. */
  function Offline(s: Store, t: Tunnels, ever: set<PortId>): World {
    World(Env(s, t, {}, {}), map[], ever)
  }

  function Call0(op: Op): Step { StoreCall(Call(op, [])) }

  /** A call on an offline store: what it leaves, and that it is allowed while no
      port has been a tunnel port. */
  ghost predicate Moves(s: Store, op: Op, s': Store) {
    && (op.CreateNetwork? || op.CreatePort? || op.CreateMac?)
    && Apply(s, op, []).store == s' && |Apply(s, op, []).events| <= 1
    && Safe(s, op)
    && (op.CreatePort? ==> op.at.port <= OFPP_MAX)
    && (op.CreateMac? ==> RareMac(s.macs, op.n, op.at, op.m))
  }

  /** A new port joins a network. */
  lemma PortMoves(s: Store, n: NetworkId, at: PortId, s': Store)
    requires n != Unknown && n in s.networks && at !in s.networks[n] && PortAt(s.dpids, at) == None && at.port <= OFPP_MAX
    requires s' == Store(s.networks[n := s.networks[n] + {at}], SetPort(s.dpids, at, Port(n, None)), s.macs)
    ensures Moves(s, CreatePort(n, at), s')
  {
  }

  /** A port of a network gets a MAC nobody else has. */
  lemma MacMoves(s: Store, n: NetworkId, at: PortId, m: Mac, s': Store)
    requires PortAt(s.dpids, at) == Some(Port(n, None)) && MacPorts(s.macs, n, m) == {}
    requires s' == Store(s.networks, SetPort(s.dpids, at, Port(n, Some(m))), AddMac(s.macs, n, at, m))
    ensures Moves(s, CreateMac(n, at, m), s')
  {
    hide SetPort, AddMac;
    assert MacPorts(s.macs, n, m) - {at} == {};
  }

  lemma OfflineStore(s: Store, t: Tunnels, op: Op, s': Store)
    requires Moves(s, op, s')
    ensures Allowed(Offline(s, t, {}), Call0(op)) && After(Offline(s, t, {}), Call0(op)) == Offline(s', t, {})
  {
    var env', sent := EnvAfter(Offline(s, t, {}).env, Call0(op)), Apply(s, op, []).events;
    hide Apply, RareMac, Safe;
    if sent != [] {
      assert sent[1..] == [];
      assert StoreEvents(env', sent) == StoreEvent(env', sent[0]) + StoreEvents(env', []) == [];
    }
    assert EventsOf(Offline(s, t, {}).env, Call0(op)) == [];
  }

  lemma StoreLeads(s: Store, t: Tunnels, op: Op, s': Store, rest: seq<Step>, w: World)
    requires Moves(s, op, s') && Leads(Offline(s', t, {}), rest, w)
    ensures Leads(Offline(s, t, {}), [Call0(op)] + rest, w)
  {
    hide *;
    OfflineStore(s, t, op, s');
    LeadsFirst(Offline(s, t, {}), Call0(op), rest, w);
  }

  // --------------------------------- a tunnel port closed while it is in use

  const MINE_HERE := PortId(1, 1)
  const MINE_THERE := PortId(2, 1)
  const TUNNEL := PortId(1, 9)

  const HERE_EMPTY := Store(map[MINE := {}, YOURS := {}, VportGre := {}], map[], map[])

  const HERE_PORT := Store(map[MINE := {MINE_HERE}, YOURS := {}, VportGre := {}], map[1 := map[1 := Port(MINE, None)]], map[])

  const HERE_MAC := Store(map[MINE := {MINE_HERE}, YOURS := {}, VportGre := {}],
                          map[1 := map[1 := Port(MINE, Some(11))]], map[MINE := map[11 := {MINE_HERE}]])

  const THERE_PORT := Store(map[MINE := {MINE_HERE, MINE_THERE}, YOURS := {}, VportGre := {}],
                            map[1 := map[1 := Port(MINE, Some(11))], 2 := map[1 := Port(MINE, None)]],
                            map[MINE := map[11 := {MINE_HERE}]])

  const THERE_MAC := Store(map[MINE := {MINE_HERE, MINE_THERE}, YOURS := {}, VportGre := {}],
                           map[1 := map[1 := Port(MINE, Some(11))], 2 := map[1 := Port(MINE, Some(12))]],
                           map[MINE := map[11 := {MINE_HERE}, 12 := {MINE_THERE}]])

  const BOTH := Store(map[MINE := {MINE_HERE, MINE_THERE}, YOURS := {}, VportGre := {TUNNEL}],
                      map[1 := map[1 := Port(MINE, Some(11)), 9 := Port(VportGre, None)], 2 := map[1 := Port(MINE, Some(12))]],
                      map[MINE := map[11 := {MINE_HERE}, 12 := {MINE_THERE}]])

  const KEYED := Tunnels(map[MINE := KEY], map[])
  const WIRED := Tunnels(map[MINE := KEY], map[TUNNEL := 2])

  lemma NetworksMove()
    ensures Moves(EMPTY, CreateNetwork(MINE), Store(map[MINE := {}], map[], map[]))
    ensures Moves(Store(map[MINE := {}], map[], map[]), CreateNetwork(YOURS), Store(map[MINE := {}, YOURS := {}], map[], map[]))
    ensures Moves(Store(map[MINE := {}, YOURS := {}], map[], map[]), CreateNetwork(VportGre), HERE_EMPTY)
  {
  }

  lemma HerePortMoves()
    ensures Moves(HERE_EMPTY, CreatePort(MINE, MINE_HERE), HERE_PORT)
  {
    hide Moves;
    assert {} + {MINE_HERE} == {MINE_HERE};
    assert HERE_EMPTY.networks[MINE := {MINE_HERE}] == HERE_PORT.networks;
    assert SetPort(HERE_EMPTY.dpids, MINE_HERE, Port(MINE, None)) == HERE_PORT.dpids;
    PortMoves(HERE_EMPTY, MINE, MINE_HERE, HERE_PORT);
  }

  lemma HereMacMoves()
    ensures Moves(HERE_PORT, CreateMac(MINE, MINE_HERE, 11), HERE_MAC)
  {
    hide Moves;
    assert {} + {MINE_HERE} == {MINE_HERE} && MacPorts(HERE_PORT.macs, MINE, 11) == {};
    assert AddMac(HERE_PORT.macs, MINE, MINE_HERE, 11) == HERE_MAC.macs;
    assert HERE_PORT.dpids[1][1 := Port(MINE, Some(11))] == HERE_MAC.dpids[1];
    assert SetPort(HERE_PORT.dpids, MINE_HERE, Port(MINE, Some(11))) == HERE_MAC.dpids;
    MacMoves(HERE_PORT, MINE, MINE_HERE, 11, HERE_MAC);
  }

  lemma TherePortIndexes()
    ensures HERE_MAC.networks[MINE := {MINE_HERE} + {MINE_THERE}] == THERE_PORT.networks
    ensures SetPort(HERE_MAC.dpids, MINE_THERE, Port(MINE, None)) == THERE_PORT.dpids
  {
    assert {MINE_HERE} + {MINE_THERE} == {MINE_HERE, MINE_THERE};
  }

  lemma TherePortMoves()
    ensures Moves(HERE_MAC, CreatePort(MINE, MINE_THERE), THERE_PORT)
  {
    hide Moves, SetPort;
    TherePortIndexes();
    PortMoves(HERE_MAC, MINE, MINE_THERE, THERE_PORT);
  }

  lemma ThereMacMoves()
    ensures Moves(THERE_PORT, CreateMac(MINE, MINE_THERE, 12), THERE_MAC)
  {
    hide Moves;
    assert {} + {MINE_THERE} == {MINE_THERE} && MacPorts(THERE_PORT.macs, MINE, 12) == {};
    assert AddMac(THERE_PORT.macs, MINE, MINE_THERE, 12) == THERE_MAC.macs;
    assert THERE_PORT.dpids[2][1 := Port(MINE, Some(12))] == THERE_MAC.dpids[2];
    assert SetPort(THERE_PORT.dpids, MINE_THERE, Port(MINE, Some(12))) == THERE_MAC.dpids;
    MacMoves(THERE_PORT, MINE, MINE_THERE, 12, THERE_MAC);
  }

  lemma TunnelNetworks()
    ensures THERE_MAC.networks[VportGre := {} + {TUNNEL}] == BOTH.networks
  {
    assert {} + {TUNNEL} == {TUNNEL};
  }

  lemma TunnelDpids()
    ensures SetPort(THERE_MAC.dpids, TUNNEL, Port(VportGre, None)) == BOTH.dpids
  {
    assert THERE_MAC.dpids[1][9 := Port(VportGre, None)] == BOTH.dpids[1];
  }

  lemma TunnelMoves()
    ensures Moves(THERE_MAC, CreatePort(VportGre, TUNNEL), BOTH)
  {
    hide Moves, SetPort;
    TunnelNetworks();
    TunnelDpids();
    PortMoves(THERE_MAC, VportGre, TUNNEL, BOTH);
  }

  function SetUp(): seq<Step> {
    [Call0(CreateNetwork(MINE))] + ([Call0(CreateNetwork(YOURS))] + ([Call0(CreateNetwork(VportGre))] + ([SetKey(MINE, KEY, false, [])]
    + ([Call0(CreatePort(MINE, MINE_HERE))] + ([Call0(CreateMac(MINE, MINE_HERE, 11))]
    + ([Call0(CreatePort(MINE, MINE_THERE))] + ([Call0(CreateMac(MINE, MINE_THERE, 12))]
    + ([Call0(CreatePort(VportGre, TUNNEL))] + ([SetTunnel(TUNNEL, 2, false)] + ([THERE_ENTERS] + ([HERE_ENTERS] + [])))))))))))
  }

  const THERE_ENTERS := SwitchEnter(2, {1}, [MINE_THERE])
  const HERE_ENTERS := SwitchEnter(1, {1, 9}, [MINE_HERE, TUNNEL])

  function Joined(): World { After(After(Offline(BOTH, WIRED, {TUNNEL}), THERE_ENTERS), HERE_ENTERS) }

  const JOINED_ENV := Env(BOTH, WIRED, {1, 2}, {MINE_THERE, MINE_HERE, TUNNEL})

  lemma PortsOfBoth()
    ensures PortsOf(BOTH, 1).Keys == {1, 9} && PortsOf(BOTH, 2).Keys == {1}
  {
  }

  /** The ports of one switch, as a joining switch reports them. */
  lemma PairOfPorts(d: Dpid, p: PortNo, q: PortNo)
    ensures (set x | x in {p, q} :: PortId(d, x)) == {PortId(d, p), PortId(d, q)}
    ensures (set x | x in {p} :: PortId(d, x)) == {PortId(d, p)}
    ensures p != q ==> multiset([PortId(d, p), PortId(d, q)]) == multiset({PortId(d, p), PortId(d, q)})
    ensures multiset([PortId(d, p)]) == multiset({PortId(d, p)})
    ensures {} + {d} == {d} && {} + {PortId(d, p), PortId(d, q)} == {PortId(d, p), PortId(d, q)} && {} + {PortId(d, p)} == {PortId(d, p)}
    ensures {p, q} + {p, q} == {p, q} && {p} + {p} == {p}
  {
  }

  lemma ThereEnters()
    ensures var w0 := Offline(BOTH, WIRED, {TUNNEL});
            && Allowed(w0, THERE_ENTERS)
            && After(w0, THERE_ENTERS).env == Env(BOTH, WIRED, {2}, {MINE_THERE})
            && After(w0, THERE_ENTERS).ever == {TUNNEL} && After(w0, THERE_ENTERS).flows.Keys == {2}
  {
    hide HandleAll, EventsOf, PortEvents, PortsOf;
    var w0 := Offline(BOTH, WIRED, {TUNNEL});
    PortsOfBoth();
    PairOfPorts(2, 1, 1);
    HandleAllKeys(EnvAfter(w0.env, THERE_ENTERS), map[2 := map[]], EventsOf(w0.env, THERE_ENTERS));
  }

  lemma HereEvents(env: Env)
    requires env == Env(BOTH, WIRED, {2}, {MINE_THERE})
    ensures EnvAfter(env, HERE_ENTERS) == JOINED_ENV
    ensures EventsOf(env, HERE_ENTERS) == [VmPort(MINE, KEY, MINE_HERE, 11, true), TunnelPort(TUNNEL, 2, true)]
  {
    assert (set p | p in {1, 9} :: PortId(1, p)) == {MINE_HERE, TUNNEL};
    assert EnvAfter(env, HERE_ENTERS).connected == {1, 2};
    assert EnvAfter(env, HERE_ENTERS).up == JOINED_ENV.up;
    assert PortEvent(JOINED_ENV, MINE_HERE, true) == [VmPort(MINE, KEY, MINE_HERE, 11, true)];
    assert PortEvent(JOINED_ENV, TUNNEL, true) == [TunnelPort(TUNNEL, 2, true)];
    assert [MINE_HERE, TUNNEL][1..] == [TUNNEL] && [TUNNEL][1..] == [];
    hide PortEvent;
    assert PortEvents(JOINED_ENV, [TUNNEL]) == [TunnelPort(TUNNEL, 2, true)] + [];
    assert PortEvents(JOINED_ENV, [MINE_HERE, TUNNEL]) == PortEvent(JOINED_ENV, MINE_HERE, true) + PortEvents(JOINED_ENV, [TUNNEL]);
  }

  lemma TwoEvents(env: Env, flows: Flows, a: GreEvent, b: GreEvent)
    ensures HandleAll(env, flows, [a, b]) == Handle(env, Handle(env, flows, a), b)
  {
    hide Handle;
    assert [a, b][1..] == [b] && [b][1..] == [];
    assert HandleAll(env, flows, [a, b]) == HandleAll(env, Handle(env, flows, a), [b]);
  }

  lemma HereEnters(w: World)
    requires w.env == Env(BOTH, WIRED, {2}, {MINE_THERE}) && w.flows.Keys == {2} && w.ever == {TUNNEL}
    ensures Allowed(w, HERE_ENTERS)
    ensures var w' := After(w, HERE_ENTERS);
            && w'.env == JOINED_ENV && w'.ever == {TUNNEL} && w'.flows.Keys == {1, 2}
            && w'.flows[1] == TunnelAddHere(JOINED_ENV, AddHere(JOINED_ENV, map[], MINE, KEY, MINE_HERE, 11), TUNNEL, 2)
  {
    hide AddHere, TunnelAddHere, AddThere, EventsOf, EnvAfter, PortsOf;
    PortsOfBoth();
    PairOfPorts(1, 1, 9);
    HereEvents(w.env);
    TwoEvents(JOINED_ENV, w.flows[1 := map[]], VmPort(MINE, KEY, MINE_HERE, 11, true), TunnelPort(TUNNEL, 2, true));
  }

  lemma KeyLeads(rest: seq<Step>, w: World)
    requires Leads(Offline(HERE_EMPTY, KEYED, {}), rest, w)
    ensures Leads(Offline(HERE_EMPTY, Tunnels(map[], map[]), {}), [SetKey(MINE, KEY, false, [])] + rest, w)
  {
    hide Leads;
    var w0 := Offline(HERE_EMPTY, Tunnels(map[], map[]), {});
    assert After(w0, SetKey(MINE, KEY, false, [])) == Offline(HERE_EMPTY, KEYED, {});
    LeadsFirst(w0, SetKey(MINE, KEY, false, []), rest, w);
  }

  lemma TunnelLeads(rest: seq<Step>, w: World)
    requires Leads(Offline(BOTH, WIRED, {TUNNEL}), rest, w)
    ensures Leads(Offline(BOTH, KEYED, {}), [SetTunnel(TUNNEL, 2, false)] + rest, w)
  {
    hide Leads;
    var w0 := Offline(BOTH, KEYED, {});
    assert PortsTo(KEYED, 1, 2) == {};
    assert EventsOf(w0.env, SetTunnel(TUNNEL, 2, false)) == [];
    assert After(w0, SetTunnel(TUNNEL, 2, false)) == Offline(BOTH, WIRED, {TUNNEL});
    LeadsFirst(w0, SetTunnel(TUNNEL, 2, false), rest, w);
  }

  /** Two switches with one VM each of one tenant, and a tunnel between them. */
  lemma SetUpLeads()
    ensures Leads(START, SetUp(), Joined())
  {
    var w0, none := Offline(BOTH, WIRED, {TUNNEL}), Tunnels(map[], map[]);
    ThereEnters();
    HereEnters(After(w0, THERE_ENTERS));
    NetworksMove();
    HerePortMoves();
    HereMacMoves();
    TherePortMoves();
    ThereMacMoves();
    TunnelMoves();
    assert START == Offline(EMPTY, none, {});
    hide Leads, Joined, Offline, Moves, Call0, After, Allowed;
    var w, r := Joined(), [HERE_ENTERS] + [];
    LeadsNowhere(w);
    LeadsFirst(After(w0, THERE_ENTERS), HERE_ENTERS, [], w);
    LeadsFirst(w0, THERE_ENTERS, r, w);
    r := [THERE_ENTERS] + r;
    TunnelLeads(r, w);
    r := [SetTunnel(TUNNEL, 2, false)] + r;
    StoreLeads(THERE_MAC, KEYED, CreatePort(VportGre, TUNNEL), BOTH, r, w);
    r := [Call0(CreatePort(VportGre, TUNNEL))] + r;
    StoreLeads(THERE_PORT, KEYED, CreateMac(MINE, MINE_THERE, 12), THERE_MAC, r, w);
    r := [Call0(CreateMac(MINE, MINE_THERE, 12))] + r;
    StoreLeads(HERE_MAC, KEYED, CreatePort(MINE, MINE_THERE), THERE_PORT, r, w);
    r := [Call0(CreatePort(MINE, MINE_THERE))] + r;
    StoreLeads(HERE_PORT, KEYED, CreateMac(MINE, MINE_HERE, 11), HERE_MAC, r, w);
    r := [Call0(CreateMac(MINE, MINE_HERE, 11))] + r;
    StoreLeads(HERE_EMPTY, KEYED, CreatePort(MINE, MINE_HERE), HERE_PORT, r, w);
    r := [Call0(CreatePort(MINE, MINE_HERE))] + r;
    KeyLeads(r, w);
    r := [SetKey(MINE, KEY, false, [])] + r;
    StoreLeads(Store(map[MINE := {}, YOURS := {}], map[], map[]), none, CreateNetwork(VportGre), HERE_EMPTY, r, w);
    r := [Call0(CreateNetwork(VportGre))] + r;
    StoreLeads(Store(map[MINE := {}], map[], map[]), none, CreateNetwork(YOURS), Store(map[MINE := {}, YOURS := {}], map[], map[]), r, w);
    r := [Call0(CreateNetwork(YOURS))] + r;
    StoreLeads(EMPTY, none, CreateNetwork(MINE), Store(map[MINE := {}], map[], map[]), r, w);
    assert SetUp() == [Call0(CreateNetwork(MINE))] + r;
  }

  /** What the first switch then holds of its VM's packets to the other VM. */
  lemma TableHere()
    ensures var t := TunnelAddHere(JOINED_ENV, AddHere(JOINED_ENV, map[], MINE, KEY, MINE_HERE, 11), TUNNEL, 2);
            && Low(t)
            && Lookup(t, SrcVm(1, 11)) == Some(EnterTunnel(KEY))
            && Lookup(t, TunnelMac(KEY, 12)) == Some(OutputThenLocal({9}))
  {
    var t1 := AddHere(JOINED_ENV, map[], MINE, KEY, MINE_HERE, 11);
    var t := TunnelAddHere(JOINED_ENV, t1, TUNNEL, 2);
    var ev := VmPort(MINE, KEY, MINE_HERE, 11, true);
    AddHereUpstream(JOINED_ENV, map[], MINE, KEY, MINE_HERE, 11);
    TunnelUpstream(JOINED_ENV, t1, TUNNEL, 2);
    assert Lookup(t1, SrcVm(1, 11)) == SourceAfter(ev, PortId(1, 1), 11, Lookup(map[], SrcVm(1, 11)));
    assert !Aside(SrcVm(1, 11));
    hide AddHere;
    forall fk | fk in t ensures fk.priority <= DEFAULT_PRIORITY { assert Lookup(t, fk) == Lookup(t1, fk) || Aside(fk); }
    WayThere(t1);
  }

  lemma WayThere(t1: Table)
    ensures Lookup(TunnelAddHere(JOINED_ENV, t1, TUNNEL, 2), TunnelMac(KEY, 12)) == Some(OutputThenLocal({9}))
  {
    var nets, fk := CommonNetworks(JOINED_ENV, 1, 2), TunnelMac(KEY, 12);
    assert PortsOf(BOTH, 1)[1].network == MINE && PortsOf(BOTH, 2)[1] == Port(MINE, Some(12));
    assert MINE in nets;
    assert fk in TunnelMacs(JOINED_ENV, 9, nets, 2);
    assert fk !in TunnelFloods(JOINED_ENV, 1, 9, nets);
  }

  /** From the empty system: the tunnel is closed while rows still use it, its
      number goes to another tenant's VM, and the first VM's packets come out
      there. */
  lemma ReuseLeaksFromStart()
    ensures Leads(START, SetUp(), Joined()) && !Unused(Joined().flows, TUNNEL)
    ensures var w' := RunAll(Joined(), Reuse(TUNNEL, YOURS));
            && IsVmPortOf(w'.env.nw, MINE_HERE, MINE) && IsVmPortOf(w'.env.nw, TUNNEL, YOURS) && TUNNEL !in w'.ever
            && Reaches(w', MINE_HERE, Frame(11, 12, 0), TUNNEL, 0)
  {
    hide AddHere, TunnelAddHere, Leads;
    var w := Joined();
    SetUpLeads();
    LeadsFromStart(SetUp(), w);
    JoinedState();
    TableHere();
    var t, f, g := w.flows[1], Frame(11, 12, 0), Frame(11, 12, KEY);
    assert Hits(t, TUNNEL_OUT_TABLE, 1, g, TunnelMac(KEY, 12));
    assert UsesTunnel(TunnelMac(KEY, 12), t[TunnelMac(KEY, 12)], 9);
    TakesHit(t, TUNNEL_OUT_TABLE, 1, g, 9, g, 0, TunnelMac(KEY, 12));
    assert Hits(t, SRC_TABLE, 1, f, SrcVm(1, 11));
    assert Via(t, t[SrcVm(1, 11)], 1, f, 9, g, 1);
    TakesHit(t, SRC_TABLE, 1, f, 9, g, 1, SrcVm(1, 11));
    hide Hits, Via, Emits, WorldOk, Reuse, Reaches;
    ReusedTunnelPortLeaks(w, MINE_HERE, f, 9, g, 1, MINE, YOURS);
  }

  lemma JoinedState()
    ensures Joined().env == JOINED_ENV && Joined().ever == {TUNNEL} && Joined().flows.Keys == {1, 2}
    ensures Joined().flows[1] == TunnelAddHere(JOINED_ENV, AddHere(JOINED_ENV, map[], MINE, KEY, MINE_HERE, 11), TUNNEL, 2)
  {
    hide After, AddHere, TunnelAddHere;
    ThereEnters();
    HereEnters(After(Offline(BOTH, WIRED, {TUNNEL}), THERE_ENTERS));
  }

  // ------------------------------------------- a key that comes after its ports

  const SECOND := PortId(1, 2)

  const ONE_NETWORK := Store(map[MINE := {}], map[], map[])
  const ONE_PORT := Store(map[MINE := {MINE_HERE}], map[1 := map[1 := Port(MINE, None)]], map[])

  const ONE_MAC := Store(map[MINE := {MINE_HERE}], map[1 := map[1 := Port(MINE, Some(11))]], map[MINE := map[11 := {MINE_HERE}]])

  const TWO_PORTS := Store(map[MINE := {MINE_HERE, SECOND}],
                           map[1 := map[1 := Port(MINE, Some(11)), 2 := Port(MINE, None)]],
                           map[MINE := map[11 := {MINE_HERE}]])

  const TWO_MACS := Store(map[MINE := {MINE_HERE, SECOND}],
                          map[1 := map[1 := Port(MINE, Some(11)), 2 := Port(MINE, Some(12))]],
                          map[MINE := map[11 := {MINE_HERE}, 12 := {SECOND}]])

  const NO_KEYS := Tunnels(map[], map[])
  const BOTH_UP := SwitchEnter(1, {1, 2}, [MINE_HERE, SECOND])
  const LATE_KEY := SetKey(MINE, KEY, false, [MINE_HERE, SECOND])

  lemma OneNetworkMoves()
    ensures Moves(EMPTY, CreateNetwork(MINE), ONE_NETWORK)
  {
  }

  lemma OnePortMoves()
    ensures Moves(ONE_NETWORK, CreatePort(MINE, MINE_HERE), ONE_PORT)
  {
    hide Moves;
    assert {} + {MINE_HERE} == {MINE_HERE};
    assert ONE_NETWORK.networks[MINE := {MINE_HERE}] == ONE_PORT.networks;
    assert SetPort(ONE_NETWORK.dpids, MINE_HERE, Port(MINE, None)) == ONE_PORT.dpids;
    PortMoves(ONE_NETWORK, MINE, MINE_HERE, ONE_PORT);
  }

  lemma OneMacMoves()
    ensures Moves(ONE_PORT, CreateMac(MINE, MINE_HERE, 11), ONE_MAC)
  {
    hide Moves;
    assert {} + {MINE_HERE} == {MINE_HERE};
    assert AddMac(ONE_PORT.macs, MINE, MINE_HERE, 11) == ONE_MAC.macs;
    assert ONE_PORT.dpids[1][1 := Port(MINE, Some(11))] == ONE_MAC.dpids[1];
    assert SetPort(ONE_PORT.dpids, MINE_HERE, Port(MINE, Some(11))) == ONE_MAC.dpids;
    MacMoves(ONE_PORT, MINE, MINE_HERE, 11, ONE_MAC);
  }

  lemma SecondPortMoves()
    ensures Moves(ONE_MAC, CreatePort(MINE, SECOND), TWO_PORTS)
  {
    hide Moves;
    assert {MINE_HERE} + {SECOND} == {MINE_HERE, SECOND};
    assert ONE_MAC.networks[MINE := {MINE_HERE, SECOND}] == TWO_PORTS.networks;
    assert ONE_MAC.dpids[1][2 := Port(MINE, None)] == TWO_PORTS.dpids[1];
    assert SetPort(ONE_MAC.dpids, SECOND, Port(MINE, None)) == TWO_PORTS.dpids;
    PortMoves(ONE_MAC, MINE, SECOND, TWO_PORTS);
  }

  lemma SecondMacMoves()
    ensures Moves(TWO_PORTS, CreateMac(MINE, SECOND, 12), TWO_MACS)
  {
    hide Moves;
    assert {} + {SECOND} == {SECOND} && MacPorts(TWO_PORTS.macs, MINE, 12) == {};
    assert AddMac(TWO_PORTS.macs, MINE, SECOND, 12) == TWO_MACS.macs;
    assert TWO_PORTS.dpids[1][2 := Port(MINE, Some(12))] == TWO_MACS.dpids[1];
    assert SetPort(TWO_PORTS.dpids, SECOND, Port(MINE, Some(12))) == TWO_MACS.dpids;
    MacMoves(TWO_PORTS, MINE, SECOND, 12, TWO_MACS);
  }

  function PairSteps(): seq<Step> {
    [Call0(CreateNetwork(MINE))] + ([Call0(CreatePort(MINE, MINE_HERE))] + ([Call0(CreateMac(MINE, MINE_HERE, 11))]
    + ([Call0(CreatePort(MINE, SECOND))] + ([Call0(CreateMac(MINE, SECOND, 12))] + ([BOTH_UP] + [])))))
  }

  const PAIR_UP := World(Env(TWO_MACS, NO_KEYS, {1}, {MINE_HERE, SECOND}), map[1 := map[]], {})

  lemma PairEnters()
    ensures Allowed(Offline(TWO_MACS, NO_KEYS, {}), BOTH_UP) && After(Offline(TWO_MACS, NO_KEYS, {}), BOTH_UP) == PAIR_UP
  {
    hide PortEvents, PortsOf;
    var w0 := Offline(TWO_MACS, NO_KEYS, {});
    var env := EnvAfter(w0.env, BOTH_UP);
    PortsOfPair();
    PairOfPorts(1, 1, 2);
    assert env == PAIR_UP.env;
    PairSilent(env);
  }

  lemma PortsOfPair()
    ensures PortsOf(TWO_MACS, 1).Keys == {1, 2}
  {
  }

  lemma PairSilent(env: Env)
    requires env.nw == TWO_MACS && env.tun == NO_KEYS
    ensures PortEvents(env, [MINE_HERE, SECOND]) == []
  {
    assert PortEvent(env, MINE_HERE, true) == [] && PortEvent(env, SECOND, true) == [];
    hide PortEvent;
    assert [SECOND][1..] == [] && [MINE_HERE, SECOND][1..] == [SECOND];
    assert PortEvents(env, [SECOND]) == [] + PortEvents(env, []);
  }

  /** Two VMs of one tenant on one switch, before the tenant has a key. */
  lemma PairLeads()
    ensures Leads(START, PairSteps(), PAIR_UP)
  {
    var none := NO_KEYS;
    OneNetworkMoves();
    OnePortMoves();
    OneMacMoves();
    SecondPortMoves();
    SecondMacMoves();
    PairEnters();
    assert START == Offline(EMPTY, NO_KEYS, {});
    hide Leads, Offline, Moves, Call0, After, Allowed;
    var w, r: seq<Step> := PAIR_UP, [];
    LeadsNowhere(w);
    LeadsFirst(Offline(TWO_MACS, none, {}), BOTH_UP, [], w);
    r := [BOTH_UP] + [];
    StoreLeads(TWO_PORTS, none, CreateMac(MINE, SECOND, 12), TWO_MACS, r, w);
    r := [Call0(CreateMac(MINE, SECOND, 12))] + r;
    StoreLeads(ONE_MAC, none, CreatePort(MINE, SECOND), TWO_PORTS, r, w);
    r := [Call0(CreatePort(MINE, SECOND))] + r;
    StoreLeads(ONE_PORT, none, CreateMac(MINE, MINE_HERE, 11), ONE_MAC, r, w);
    r := [Call0(CreateMac(MINE, MINE_HERE, 11))] + r;
    StoreLeads(ONE_NETWORK, none, CreatePort(MINE, MINE_HERE), ONE_PORT, r, w);
    r := [Call0(CreatePort(MINE, MINE_HERE))] + r;
    StoreLeads(EMPTY, none, CreateNetwork(MINE), ONE_NETWORK, r, w);
    assert PairSteps() == [Call0(CreateNetwork(MINE))] + r;
  }

  lemma PairIsFresh()
    ensures FromScratch(PAIR_UP) && AllCarried(PAIR_UP)
    ensures {1, 2} <= Active(PAIR_UP.env, MINE, 1)
    ensures Allowed(PAIR_UP, LATE_KEY)
  {
    forall k ensures KeyRows(map[], k) == map[] { NoRows(k); }
    assert multiset([MINE_HERE, SECOND]) == multiset({MINE_HERE, SECOND});
  }

  /** The switch without any way to another has no row for a remote MAC. */
  lemma NothingInTunnelOut(env: Env, t: Table, at: PortId, m: Mac)
    requires GetDpids(env.nw, MINE) <= {at.dpid} && |Active(env, MINE, at.dpid)| != 1
    requires forall fk | fk in t :: fk.table != TUNNEL_OUT_TABLE
    ensures forall fk | fk in AddHere(env, t, MINE, KEY, at, m) :: fk.table != TUNNEL_OUT_TABLE
  {
    assert GetDpids(env.nw, MINE) - {at.dpid} == {};
    assert RemoteMacs(env, MINE, KEY, at.dpid, {}) == map[];
  }

  lemma LateTable()
    ensures After(PAIR_UP, LATE_KEY).flows.Keys == {1}
    ensures forall fk | fk in After(PAIR_UP, LATE_KEY).flows[1] :: fk.table != TUNNEL_OUT_TABLE
  {
    hide AddHere, Active;
    var env := EnvAfter(PAIR_UP.env, LATE_KEY);
    var a, b := VmPort(MINE, KEY, MINE_HERE, 11, true), VmPort(MINE, KEY, SECOND, 12, true);
    assert env == PAIR_UP.env.(tun := Tunnels(map[MINE := KEY], map[]));
    assert [MINE_HERE, SECOND][1..] == [SECOND] && [SECOND][1..] == [];
    assert NetworkPortEvents(env, [SECOND], MINE) == [b] + [];
    assert EventsOf(PAIR_UP.env, LATE_KEY) == [a] + [b];
    assert [a] + [b] == [a, b];
    TwoEvents(env, PAIR_UP.flows, a, b);
    assert |Active(env, MINE, 1)| != 1 by { PairActive(env); }
    assert GetDpids(env.nw, MINE) <= {1};
    NothingInTunnelOut(env, map[], MINE_HERE, 11);
    NothingInTunnelOut(env, AddHere(env, map[], MINE, KEY, MINE_HERE, 11), SECOND, 12);
  }

  lemma PairActive(env: Env)
    requires env.nw == TWO_MACS && env.up == {MINE_HERE, SECOND}
    ensures Active(env, MINE, 1) == {1, 2} && |Active(env, MINE, 1)| == 2
  {
  }

  lemma LateEnv()
    ensures var w' := After(PAIR_UP, LATE_KEY);
            w'.env == PAIR_UP.env.(tun := Tunnels(map[MINE := KEY], map[]))
            && {1, 2} <= Live(w'.env, MINE, 1) && HoldsKey(ViewOf(w'), 1, 1, KEY)
  {
    hide HandleAll, EventsOf;
    PairActive(After(PAIR_UP, LATE_KEY).env);
  }

  lemma LateState()
    ensures var w' := After(PAIR_UP, LATE_KEY); WorldOk(w') && !FromScratch(w') && !AllCarried(w')
  {
    hide *;
    PairLeads();
    PairIsFresh();
    LeadsFromStart(PairSteps(), PAIR_UP);
    PairWithoutKey();
    LateKeyCrowds(PAIR_UP, MINE, KEY, LATE_KEY.order, 1, 1, 2);
    LateKeySilences(PAIR_UP, MINE, KEY, LATE_KEY.order, 1, 1, 2);
    StepKeepsFlows(PAIR_UP, LATE_KEY);
  }

  lemma PairWithoutKey()
    ensures MINE.Tenant? && RegisterKey(PAIR_UP.env.tun, MINE, KEY).Ok? && 1 in PAIR_UP.env.connected
    ensures LATE_KEY == SetKey(MINE, KEY, false, LATE_KEY.order)
  {
  }

  /** From the empty system: the key comes after the ports, the switch gets neither
      drop nor pass row, and its two VMs do not reach each other. */
  lemma LateKeyFromStart(q: PortNo, g: Frame, i: nat)
    ensures Leads(START, PairSteps() + [LATE_KEY], After(PAIR_UP, LATE_KEY))
    ensures var w' := After(PAIR_UP, LATE_KEY);
            && w'.flows.Keys == {1} && !FromScratch(w') && !AllCarried(w')
            && {1, 2} <= Live(w'.env, MINE, 1)
            && !Emits(w'.flows[1], SRC_TABLE, 1, Frame(11, 12, 0), q, g, i)
  {
    hide *;
    PairLeads();
    PairIsFresh();
    LateTable();
    LateEnv();
    LateState();
    NotDelivered(After(PAIR_UP, LATE_KEY), 1, 1, Frame(11, 12, 0), KEY, q, g, i);
    LeadsOn(START, PairSteps(), PAIR_UP, LATE_KEY);
  }

  // ------------------------------- a MAC on two switches, and a second tunnel

  const MINE_THIRD := PortId(3, 1)
  const TUNNEL_THIRD := PortId(1, 8)

  const THIRD_PORT := Store(map[MINE := {MINE_HERE, MINE_THERE, MINE_THIRD}, YOURS := {}, VportGre := {TUNNEL}],
                            map[1 := map[1 := Port(MINE, Some(11)), 9 := Port(VportGre, None)], 2 := map[1 := Port(MINE, Some(12))],
                                3 := map[1 := Port(MINE, None)]],
                            map[MINE := map[11 := {MINE_HERE}, 12 := {MINE_THERE}]])

  const THIRD_MAC := Store(map[MINE := {MINE_HERE, MINE_THERE, MINE_THIRD}, YOURS := {}, VportGre := {TUNNEL}],
                           map[1 := map[1 := Port(MINE, Some(11)), 9 := Port(VportGre, None)], 2 := map[1 := Port(MINE, Some(12))],
                               3 := map[1 := Port(MINE, Some(12))]],
                           map[MINE := map[11 := {MINE_HERE}, 12 := {MINE_THERE, MINE_THIRD}]])

  const TWO_TUNNELS := Store(map[MINE := {MINE_HERE, MINE_THERE, MINE_THIRD}, YOURS := {}, VportGre := {TUNNEL, TUNNEL_THIRD}],
                             map[1 := map[1 := Port(MINE, Some(11)), 9 := Port(VportGre, None), 8 := Port(VportGre, None)],
                                 2 := map[1 := Port(MINE, Some(12))], 3 := map[1 := Port(MINE, Some(12))]],
                             map[MINE := map[11 := {MINE_HERE}, 12 := {MINE_THERE, MINE_THIRD}]])

  const TWICE_WIRED := Tunnels(map[MINE := KEY], map[TUNNEL := 2, TUNNEL_THIRD := 3])

  /** A call on a running system that no handler hears of. */
  lemma QuietStore(w: World, op: Op, s': Store)
    requires Moves(w.env.nw, op, s') && !op.CreateNetwork? && op.at !in w.ever && op.at !in w.env.up
    requires op.CreateMac? ==> op.at.dpid !in w.env.connected
    ensures Allowed(w, Call0(op)) && After(w, Call0(op)) == World(w.env.(nw := s'), w.flows, w.ever)
  {
    var env', sent := EnvAfter(w.env, Call0(op)), Apply(w.env.nw, op, []).events;
    QuietEvents(w.env.nw, op, sent, env');
    assert w.ever - {op.at} == w.ever;
    hide Apply, RareMac, Safe, Agree;
    assert EventsOf(w.env, Call0(op)) == [];
  }

  lemma QuietEvents(s: Store, op: Op, sent: seq<Event>, env: Env)
    requires Moves(s, op, env.nw) && !op.CreateNetwork? && sent == Apply(s, op, []).events && op.at !in env.up
    requires op.CreateMac? ==> op.at.dpid !in env.connected
    ensures StoreEvents(env, sent) == []
  {
    if sent != [] {
      assert sent[1..] == [];
      assert StoreEvent(env, sent[0]) == [];
    }
  }

  lemma ThirdPortIndexes()
    ensures BOTH.networks[MINE := {MINE_HERE, MINE_THERE} + {MINE_THIRD}] == THIRD_PORT.networks
    ensures SetPort(BOTH.dpids, MINE_THIRD, Port(MINE, None)) == THIRD_PORT.dpids
  {
    assert {MINE_HERE, MINE_THERE} + {MINE_THIRD} == {MINE_HERE, MINE_THERE, MINE_THIRD};
  }

  lemma ThirdPortMoves()
    ensures Moves(BOTH, CreatePort(MINE, MINE_THIRD), THIRD_PORT)
  {
    hide Moves, SetPort;
    ThirdPortIndexes();
    PortMoves(BOTH, MINE, MINE_THIRD, THIRD_PORT);
  }

  lemma ThirdMacMoves()
    ensures Moves(THIRD_PORT, CreateMac(MINE, MINE_THIRD, 12), THIRD_MAC)
  {
    hide SetPort, AddMac;
    assert MacPorts(THIRD_PORT.macs, MINE, 12) == {MINE_THERE} && {MINE_THERE} - {MINE_THIRD} == {MINE_THERE};
    assert {MINE_THERE} + {MINE_THIRD} == {MINE_THERE, MINE_THIRD};
    ThirdMacIndexes();
  }

  lemma ThirdMacIndexes()
    ensures AddMac(THIRD_PORT.macs, MINE, MINE_THIRD, 12) == THIRD_MAC.macs
    ensures SetPort(THIRD_PORT.dpids, MINE_THIRD, Port(MINE, Some(12))) == THIRD_MAC.dpids
  {
    assert {MINE_THERE} + {MINE_THIRD} == {MINE_THERE, MINE_THIRD};
    assert THIRD_PORT.macs[MINE][12 := {MINE_THERE, MINE_THIRD}] == THIRD_MAC.macs[MINE];
    assert THIRD_PORT.dpids[3][1 := Port(MINE, Some(12))] == THIRD_MAC.dpids[3];
  }

  lemma SecondTunnelNetworks()
    ensures THIRD_MAC.networks[VportGre := {TUNNEL} + {TUNNEL_THIRD}] == TWO_TUNNELS.networks
  {
    assert {TUNNEL} + {TUNNEL_THIRD} == {TUNNEL, TUNNEL_THIRD};
  }

  lemma SecondTunnelDpids()
    ensures SetPort(THIRD_MAC.dpids, TUNNEL_THIRD, Port(VportGre, None)) == TWO_TUNNELS.dpids
  {
    assert THIRD_MAC.dpids[1][8 := Port(VportGre, None)] == TWO_TUNNELS.dpids[1];
  }

  lemma SecondTunnelMoves()
    ensures Moves(THIRD_MAC, CreatePort(VportGre, TUNNEL_THIRD), TWO_TUNNELS)
  {
    hide Moves, SetPort;
    SecondTunnelNetworks();
    SecondTunnelDpids();
    PortMoves(THIRD_MAC, VportGre, TUNNEL_THIRD, TWO_TUNNELS);
  }

  function Migration(): seq<Step> {
    [Call0(CreatePort(MINE, MINE_THIRD)), Call0(CreateMac(MINE, MINE_THIRD, 12)), Call0(CreatePort(VportGre, TUNNEL_THIRD)),
     SetTunnel(TUNNEL_THIRD, 3, false), PortUp(TUNNEL_THIRD)]
  }

  const MIGRATED_ENV := Env(TWO_TUNNELS, TWICE_WIRED, {1, 2}, {MINE_THERE, MINE_HERE, TUNNEL, TUNNEL_THIRD})

  lemma SecondTunnelRegistered(w: World)
    requires w.env == JOINED_ENV.(nw := TWO_TUNNELS) && w.ever == {TUNNEL} && w.flows.Keys == {1, 2}
    ensures Allowed(w, SetTunnel(TUNNEL_THIRD, 3, false))
    ensures After(w, SetTunnel(TUNNEL_THIRD, 3, false)) == World(w.env.(tun := TWICE_WIRED), w.flows, {TUNNEL, TUNNEL_THIRD})
  {
    hide EventsOf, EnvAfter;
    SecondTunnelQuiet(w.env);
    assert PortsTo(WIRED, 1, 3) == {};
  }

  lemma SecondTunnelQuiet(env: Env)
    requires env == JOINED_ENV.(nw := TWO_TUNNELS)
    ensures EnvAfter(env, SetTunnel(TUNNEL_THIRD, 3, false)) == env.(tun := TWICE_WIRED)
    ensures EventsOf(env, SetTunnel(TUNNEL_THIRD, 3, false)) == []
  {
    assert WIRED.remotes[TUNNEL_THIRD := 3] == TWICE_WIRED.remotes;
    assert TUNNEL_THIRD !in env.up;
  }

  lemma SecondTunnelUp(w: World)
    requires w.env == Env(TWO_TUNNELS, TWICE_WIRED, {1, 2}, JOINED_ENV.up) && w.ever == {TUNNEL, TUNNEL_THIRD} && w.flows.Keys == {1, 2}
    ensures Allowed(w, PortUp(TUNNEL_THIRD))
    ensures var w' := After(w, PortUp(TUNNEL_THIRD));
            && w'.env == MIGRATED_ENV && w'.ever == w.ever && w'.flows.Keys == {1, 2}
            && w'.flows[1] == TunnelAddHere(MIGRATED_ENV, w.flows[1], TUNNEL_THIRD, 3)
            && EventsOf(w.env, PortUp(TUNNEL_THIRD)) == [TunnelPort(TUNNEL_THIRD, 3, true)]
  {
    hide TunnelAddHere;
    var ev := TunnelPort(TUNNEL_THIRD, 3, true);
    assert EnvAfter(w.env, PortUp(TUNNEL_THIRD)) == MIGRATED_ENV;
    assert PortEvent(MIGRATED_ENV, TUNNEL_THIRD, true) == [ev];
    hide EventsOf, EnvAfter;
    assert [ev][1..] == [];
    assert HandleAll(MIGRATED_ENV, w.flows, [ev]) == Handle(MIGRATED_ENV, w.flows, ev);
  }

  /** The VM behind the first tunnel port is live, as far as the switch can know. */
  lemma MigratedCarrier()
    ensures OwnedBy(TWICE_WIRED.keys, MINE, KEY) && Injective(TWICE_WIRED.keys)
    ensures MINE in CommonNetworks(MIGRATED_ENV, 1, 3) && Carrier(MIGRATED_ENV, MINE, 3, 12)
  {
    assert PortsOf(TWO_TUNNELS, 3)[1] == Port(MINE, Some(12)) && PortsOf(TWO_TUNNELS, 1)[1].network == MINE;
  }

  lemma MigratedPorts()
    ensures Aimed(MIGRATED_ENV, MINE, 12, 1, 2, 9, 1)
  {
    hide UpTunnels;
    assert 1 in Active(MIGRATED_ENV, MINE, 1) && 1 in Active(MIGRATED_ENV, MINE, 2);
    assert PortsTo(TWICE_WIRED, 1, 2) == {9} by { TunnelPortsNow(); }
    TrunkIs(MIGRATED_ENV, 1, 2, 9);
  }

  lemma TunnelPortsNow()
    ensures PortsTo(TWICE_WIRED, 1, 2) == {9}
  {
    assert TUNNEL in TWICE_WIRED.remotes && TUNNEL.port == 9;
  }

  function HereTable(): Table {
    TunnelAddHere(JOINED_ENV, AddHere(JOINED_ENV, map[], MINE, KEY, MINE_HERE, 11), TUNNEL, 2)
  }

  predicate Migrated(w: World) {
    && w.env == MIGRATED_ENV && w.ever == {TUNNEL, TUNNEL_THIRD} && w.flows.Keys == {1, 2}
    && w.flows[1] == TunnelAddHere(MIGRATED_ENV, HereTable(), TUNNEL_THIRD, 3)
  }

  /** The steps up to the second tunnel port's coming up change no flow. */
  lemma MigrationLeads() returns (w: World)
    ensures Leads(Joined(), Migration(), w) && Migrated(w)
  {
    JoinedState();
    ThirdPortMoves();
    ThirdMacMoves();
    SecondTunnelMoves();
    hide Joined, Moves, After, Allowed, TunnelAddHere, AddHere, Call0, Leads;
    var w0 := Joined();
    QuietStore(w0, CreatePort(MINE, MINE_THIRD), THIRD_PORT);
    var w1 := After(w0, Call0(CreatePort(MINE, MINE_THIRD)));
    QuietStore(w1, CreateMac(MINE, MINE_THIRD, 12), THIRD_MAC);
    var w2 := After(w1, Call0(CreateMac(MINE, MINE_THIRD, 12)));
    QuietStore(w2, CreatePort(VportGre, TUNNEL_THIRD), TWO_TUNNELS);
    var w3 := After(w2, Call0(CreatePort(VportGre, TUNNEL_THIRD)));
    SecondTunnelRegistered(w3);
    var w4 := After(w3, SetTunnel(TUNNEL_THIRD, 3, false));
    SecondTunnelUp(w4);
    w := After(w4, PortUp(TUNNEL_THIRD));
    LeadsNowhere(w);
    LeadsFirst(w4, PortUp(TUNNEL_THIRD), [], w);
    LeadsFirst(w3, SetTunnel(TUNNEL_THIRD, 3, false), [PortUp(TUNNEL_THIRD)] + [], w);
    var r := [SetTunnel(TUNNEL_THIRD, 3, false)] + ([PortUp(TUNNEL_THIRD)] + []);
    LeadsFirst(w2, Call0(CreatePort(VportGre, TUNNEL_THIRD)), r, w);
    r := [Call0(CreatePort(VportGre, TUNNEL_THIRD))] + r;
    LeadsFirst(w1, Call0(CreateMac(MINE, MINE_THIRD, 12)), r, w);
    r := [Call0(CreateMac(MINE, MINE_THIRD, 12))] + r;
    LeadsFirst(w0, Call0(CreatePort(MINE, MINE_THIRD)), r, w);
    assert Migration() == [Call0(CreatePort(MINE, MINE_THIRD))] + r;
  }

  lemma ListGivesNoBroadcast(steps: seq<Step>)
    requires forall i | 0 <= i < |steps| :: !GivesBroadcast(steps[i])
    ensures NeverGivesBroadcast(steps)
  {
    hide GivesBroadcast;
  }

  lemma NoBroadcastGiven()
    ensures NeverGivesBroadcast(SetUp()) && NeverGivesBroadcast(Migration())
  {
    ListGivesNoBroadcast(Migration());
    var steps := [Call0(CreateNetwork(MINE)), Call0(CreateNetwork(YOURS)), Call0(CreateNetwork(VportGre)), SetKey(MINE, KEY, false, []),
      Call0(CreatePort(MINE, MINE_HERE)), Call0(CreateMac(MINE, MINE_HERE, 11)), Call0(CreatePort(MINE, MINE_THERE)),
      Call0(CreateMac(MINE, MINE_THERE, 12)), Call0(CreatePort(VportGre, TUNNEL)), SetTunnel(TUNNEL, 2, false), THERE_ENTERS, HERE_ENTERS];
    assert SetUp() == steps;
    ListGivesNoBroadcast(steps);
  }

  /** Good states stay good, and plain, on the way to the second tunnel. */
  lemma MigratedOk(w: World)
    requires Leads(START, SetUp(), Joined()) && Leads(Joined(), Migration(), w)
    ensures WorldOk(w) && AllPlain(w)
  {
    NoBroadcastGiven();
    hide WorldOk, AllPlain, SetUp, Migration, Joined, NeverGivesBroadcast;
    OverlayIsolation.StartOk();
    assert AllPlain(START) by { StartComplete(); }
    RunPlain(START, SetUp());
    RunKeepsWorld(START, SetUp());
    RunPlain(Joined(), Migration());
    RunKeepsWorld(Joined(), Migration());
  }

  lemma NotThere(w: World, g: Frame, i: nat)
    requires WorldOk(w) && AllPlain(w) && w.env == MIGRATED_ENV && w.ever == {TUNNEL, TUNNEL_THIRD} && 1 in w.flows
    requires MacOut(w.flows[1], KEY, 12) == {8}
    ensures !Emits(w.flows[1], SRC_TABLE, 1, Frame(11, 12, 0), 9, g, i)
  {
    hide WorldOk, AllPlain, Emits;
    assert HoldsKey(ViewOf(w), 1, 1, KEY);
    if Emits(w.flows[1], SRC_TABLE, 1, Frame(11, 12, 0), 9, g, i) {
      LeavesOnlyThere(w, 1, 1, Frame(11, 12, 0), KEY, 9, g, i);
    }
  }

  /** From the empty system: a MAC that is live on one switch is put on a port of
      another, too; the tunnel port to that one comes up and takes the MAC's row
      over, and packets to the MAC no longer leave on the tunnel to the switch
      where it is live. */
  lemma TakenOverFromStart(g: Frame, i: nat) returns (w: World)
    ensures Leads(START, SetUp(), Joined()) && Leads(Joined(), Migration(), w)
    ensures Aimed(w.env, MINE, 12, 1, 2, 9, 1) && !AllLed(w, MINE, 12)
    ensures 1 in w.flows && !Emits(w.flows[1], SRC_TABLE, 1, Frame(11, 12, 0), 9, g, i)
  {
    SetUpLeads();
    w := MigrationLeads();
    MigratedPorts();
    MigratedCarrier();
    hide Joined, SetUp, Migration, TunnelAddHere, HereTable, Aimed, MacOut, CommonNetworks, Emits, WorldOk, Leads, AllPlain;
    TunnelAddMac(MIGRATED_ENV, HereTable(), TUNNEL_THIRD, 3, MINE, KEY, 12);
    assert MacOut(w.flows[1], KEY, 12) == {8};
    assert !LedAt(w, MINE, 12, 1, 9);
    MigratedOk(w);
    NotThere(w, g, i);
  }
}
