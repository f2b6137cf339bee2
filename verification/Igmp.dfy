/** The IGMP querier of lib/igmplib.py: group members and the flows that follow
    them. */
module Igmp {
  import opened Wrappers

  type Group = nat
  type PortNo = nat

  /** Per group, the member ports; true once they reported since the last reset. */
  type Mcast = map<Group, map<PortNo, bool>>

  datatype Action = ToPorts(ports: set<PortNo>) | ToController

  /** Flows by in-port and destination group. */
  type Table = map<(PortNo, Group), Action>

  datatype Querier = Querier(mcast: Mcast, flows: Table)

  function Status(mcast: Mcast, g: Group): map<PortNo, bool> {
    if g in mcast then mcast[g] else map[]
  }

  function Members(mcast: Mcast, g: Group): set<PortNo> { Status(mcast, g).Keys }

  /** The members that reported since the reset. */
  function Replied(mcast: Mcast, g: Group): set<PortNo> { RepliedIn(Status(mcast, g)) }

  function RepliedIn(status: map<PortNo, bool>): set<PortNo> { set p | p in status && status[p] }

  function Lookup(flows: Table, k: (PortNo, Group)): Option<Action> {
    if k in flows then Some(flows[k]) else None
  }

  // ------------------------------------------------------------------ events

  /** _do_report. */
  function Report(q: Querier, server: PortNo, g: Group, p: PortNo): Querier {
    var status := Status(q.mcast, g);
    Querier(q.mcast[g := status[p := true]],
            if p in status then q.flows else q.flows[(server, g) := ToPorts(status.Keys + {p})][(p, g) := ToController])
  }

  /** _do_leave. */
  function Leave(q: Querier, server: PortNo, g: Group, p: PortNo): Querier {
    var status := Status(q.mcast, g);
    if p !in status then q.(mcast := q.mcast[g := status])
    else
      var flows := q.flows - {(p, g)};
      Querier(q.mcast[g := status - {p}],
              if status.Keys - {p} != {} then flows[(server, g) := ToPorts(status.Keys - {p})] else flows - {(server, g)})
  }

  /** The head of _send_query's loop. */
  function Reset(q: Querier): Querier {
    q.(mcast := map g | g in q.mcast :: map p | p in q.mcast[g] :: false)
  }

  /** One group when the query expires. */
  function ExpireFlows(flows: Table, server: PortNo, g: Group, status: map<PortNo, bool>): Table {
    var live := RepliedIn(status);
    var gone := status.Keys - live;
    var flows := if live != {} && gone != {} then flows[(server, g) := ToPorts(live)] else flows;
    var flows := if live == {} then flows - {(server, g)} else flows;
    flows - (set p | p in gone :: (p, g))
  }

  function ExpireMcast(mcast: Mcast): Mcast {
    map g | g in mcast && RepliedIn(mcast[g]) != {} :: map p | p in mcast[g] && mcast[g][p] :: true
  }

  /** The flow of one key after the query has expired for all groups. */
  function ExpiredLookup(q: Querier, server: PortNo, k: (PortNo, Group)): Option<Action> {
    if k.1 in q.mcast then Lookup(ExpireFlows(q.flows, server, k.1, q.mcast[k.1]), k) else Lookup(q.flows, k)
  }

  function Expire(q: Querier, server: PortNo): Querier {
    var keys := q.flows.Keys + (set g | g in q.mcast :: (server, g));
    Querier(ExpireMcast(q.mcast), map k | k in keys && ExpiredLookup(q, server, k).Some? :: ExpiredLookup(q, server, k).value)
  }

  // --------------------------------------------------------------- agreement

  /** The flow table says exactly who the members are. */
  ghost predicate Agrees(q: Querier, server: PortNo) {
    forall g :: GroupAgrees(q, server, g)
  }

  /** The server's flow is there iff the group has members, and outputs exactly
      to them; each member has a flow to the controller, and no other port has. */
  ghost predicate GroupAgrees(q: Querier, server: PortNo, g: Group) {
    var members := Members(q.mcast, g);
    && server !in members
    && Lookup(q.flows, (server, g)) == (if members == {} then None else Some(ToPorts(members)))
    && forall p :: p != server ==> Lookup(q.flows, (p, g)) == if p in members then Some(ToController) else None
  }

  /** A report keeps the agreement exactly if it does not come from the server's
      port. */
  lemma ReportKeepsExactly(q: Querier, server: PortNo, g: Group, p: PortNo)
    requires Agrees(q, server)
    ensures Agrees(Report(q, server, g, p), server) <==> p != server
  {
    var q' := Report(q, server, g, p);
    assert GroupAgrees(q, server, g);
    if p == server {
      assert !GroupAgrees(q', server, g);
    } else {
      forall h ensures GroupAgrees(q', server, h) {
        assert GroupAgrees(q, server, h);
        if h == g {
          assert Members(q'.mcast, g) == Members(q.mcast, g) + {p};
          if p in Members(q.mcast, g) { assert Members(q'.mcast, g) == Members(q.mcast, g); }
        }
      }
    }
  }

  lemma LeaveKeeps(q: Querier, server: PortNo, g: Group, p: PortNo)
    requires Agrees(q, server)
    ensures Agrees(Leave(q, server, g, p), server)
  {
    var q' := Leave(q, server, g, p);
    forall h ensures GroupAgrees(q', server, h) {
      assert GroupAgrees(q, server, h);
      if h == g { assert Members(q'.mcast, g) == Members(q.mcast, g) - {p}; }
    }
  }

  lemma ResetKeeps(q: Querier, server: PortNo)
    requires Agrees(q, server)
    ensures Agrees(Reset(q), server)
  {
    forall h ensures GroupAgrees(Reset(q), server, h) {
      assert GroupAgrees(q, server, h);
      assert Members(Reset(q).mcast, h) == Members(q.mcast, h);
    }
  }

  /** What a query's expiry does to one group: those that replied stay. */
  lemma ExpiredGroup(q: Querier, server: PortNo, g: Group)
    ensures Members(Expire(q, server).mcast, g) == Replied(q.mcast, g)
    ensures forall p :: Lookup(Expire(q, server).flows, (p, g)) == ExpiredLookup(q, server, (p, g))
  {
    hide ExpireFlows;
    forall p: PortNo ensures Lookup(Expire(q, server).flows, (p, g)) == ExpiredLookup(q, server, (p, g)) {
      if ExpiredLookup(q, server, (p, g)).Some? && (p, g) !in q.flows { OnlyServerAdded(q.flows, server, g, q.mcast[g], p); }
    }
  }

  lemma OnlyServerAdded(flows: Table, server: PortNo, g: Group, status: map<PortNo, bool>, p: PortNo)
    requires (p, g) !in flows && (p, g) in ExpireFlows(flows, server, g, status)
    ensures p == server
  {
  }

  lemma ExpireKeeps(q: Querier, server: PortNo)
    requires Agrees(q, server)
    ensures Agrees(Expire(q, server), server)
  {
    forall g ensures GroupAgrees(Expire(q, server), server, g) {
      assert GroupAgrees(q, server, g);
      ExpiredGroup(q, server, g);
      ExpiredFlows(q, server, g);
    }
  }

  lemma ExpiredFlows(q: Querier, server: PortNo, g: Group)
    requires GroupAgrees(q, server, g)
    ensures var live := Replied(q.mcast, g);
            && ExpiredLookup(q, server, (server, g)) == (if live == {} then None else Some(ToPorts(live)))
            && forall p :: p != server ==> ExpiredLookup(q, server, (p, g)) == if p in live then Some(ToController) else None
  {
    var live, members := Replied(q.mcast, g), Members(q.mcast, g);
    assert live <= members;
    if g in q.mcast && live != {} {
      var gone := q.mcast[g].Keys - live;
      assert members == live + gone && server !in gone;
      if gone == {} {
        assert members == live;
        assert (set p | p in gone :: (p, g)) == {};
      }
    }
  }

  // -------------------------------------------------------------------- runs

  datatype Event = Reported(g: Group, p: PortNo) | Left(g: Group, p: PortNo) | WasReset | Expired

  function Step(q: Querier, server: PortNo, e: Event): Querier {
    match e
    case Reported(g, p) => Report(q, server, g, p)
    case Left(g, p) => Leave(q, server, g, p)
    case WasReset => Reset(q)
    case Expired => Expire(q, server)
  }

  function Run(q: Querier, server: PortNo, es: seq<Event>): Querier
    decreases |es|
  {
    if es == [] then q else Run(Step(q, server, es[0]), server, es[1..])
  }

  /** Over every run without a report on the server's port. */
  lemma {:induction false} RunKeepsAgreement(q: Querier, server: PortNo, es: seq<Event>)
    requires Agrees(q, server) && forall e | e in es :: e.Reported? ==> e.p != server
    ensures Agrees(Run(q, server, es), server)
    decreases |es|
  {
    hide Agrees, Report, Leave, Reset, Expire;
    if es != [] {
      assert es[0] in es;
      match es[0] {
        case Reported(g, p) => ReportKeepsExactly(q, server, g, p);
        case Left(g, p) => LeaveKeeps(q, server, g, p);
        case WasReset => ResetKeeps(q, server);
        case Expired => ExpireKeeps(q, server);
      }
      RunKeepsAgreement(Step(q, server, es[0]), server, es[1..]);
    }
  }

  /** Who reported, and has not left since. */
  function Heard(es: seq<Event>, g: Group): set<PortNo>
    decreases |es|
  {
    if es == [] then {}
    else
      var last := es[|es| - 1];
      var before := Heard(es[..|es| - 1], g);
      match last
      case Reported(h, p) => if h == g then before + {p} else before
      case Left(h, p) => if h == g then before - {p} else before
      case _ => before
  }

  lemma {:induction false} RunSplit(q: Querier, server: PortNo, es: seq<Event>, e: Event)
    ensures Run(q, server, es + [e]) == Step(Run(q, server, es), server, e)
    decreases |es|
  {
    hide Step;
    if es == [] {
      assert [] + [e] == [e] && [e][1..] == [];
    } else {
      assert (es + [e])[0] == es[0] && (es + [e])[1..] == es[1..] + [e];
      RunSplit(Step(q, server, es[0]), server, es[1..], e);
    }
  }

  /** Since a reset, the ports marked are those heard of. */
  lemma {:induction false} MarkedAreHeard(q: Querier, server: PortNo, es: seq<Event>, g: Group)
    requires forall e | e in es :: e.Reported? || e.Left?
    ensures Replied(Run(Reset(q), server, es).mcast, g) == Heard(es, g)
    decreases |es|
  {
    if es == [] {
      assert Replied(Reset(q).mcast, g) == {};
    } else {
      var front, e := es[..|es| - 1], es[|es| - 1];
      assert es == front + [e];
      assert e in es && forall x | x in front :: x in es;
      MarkedAreHeard(q, server, front, g);
      RunSplit(Reset(q), server, front, e);
      OneMoreHeard(Run(Reset(q), server, front), server, e, g);
    }
  }

  lemma OneMoreHeard(q: Querier, server: PortNo, e: Event, g: Group)
    requires e.Reported? || e.Left?
    ensures Replied(Step(q, server, e).mcast, g) ==
            if e.g != g then Replied(q.mcast, g)
            else if e.Reported? then Replied(q.mcast, g) + {e.p} else Replied(q.mcast, g) - {e.p}
  {
  }

  /** When the query expires, the members are exactly the ports that reported
      since the reset and have not left since. */
  lemma ExpiryKeepsTheHeard(q: Querier, server: PortNo, es: seq<Event>, g: Group)
    requires forall e | e in es :: e.Reported? || e.Left?
    ensures Members(Expire(Run(Reset(q), server, es), server).mcast, g) == Heard(es, g)
  {
    MarkedAreHeard(q, server, es, g);
    ExpiredGroup(Run(Reset(q), server, es), server, g);
  }

  // ------------------------------------------------------------------ object

  class IgmpQuerier {
    const serverPort: PortNo
    var mcast: Mcast
    var flows: Table

    ghost function Value(): Querier
      reads this
    {
      Querier(mcast, flows)
    }

    constructor (serverPort: PortNo)
      ensures this.serverPort == serverPort && Value() == Querier(map[], map[])
    {
      this.serverPort, mcast, flows := serverPort, map[], map[];
    }

    method SetFlowEntry(a: Action, inPort: PortNo, g: Group)
      modifies this`flows
      ensures flows == old(flows)[(inPort, g) := a]
    {
      flows := flows[(inPort, g) := a];
    }

    method DelFlowEntry(inPort: PortNo, g: Group)
      modifies this`flows
      ensures flows == old(flows) - {(inPort, g)}
    {
      flows := flows - {(inPort, g)};
    }

    method DoReport(g: Group, p: PortNo)
      modifies this
      ensures Value() == Report(old(Value()), serverPort, g, p)
    {
      if g !in mcast { mcast := mcast[g := map[]]; }
      var update := p !in mcast[g];
      var status: map<PortNo, bool> := mcast[g][p := true];
      mcast := mcast[g := status];
      if update {
        assert mcast[g].Keys == Members(old(mcast), g) + {p};
        SetFlowEntry(ToPorts(mcast[g].Keys), serverPort, g);
        SetFlowEntry(ToController, p, g);
      }
    }

    method DoLeave(g: Group, p: PortNo)
      modifies this
      ensures Value() == Leave(old(Value()), serverPort, g, p)
    {
      if g !in mcast { mcast := mcast[g := map[]]; }
      if p in mcast[g] {
        DelFlowEntry(p, g);
        mcast := mcast[g := mcast[g] - {p}];
        assert mcast[g].Keys == Members(old(mcast), g) - {p};
        if mcast[g].Keys != {} {
          SetFlowEntry(ToPorts(mcast[g].Keys), serverPort, g);
        } else {
          DelFlowEntry(serverPort, g);
        }
      }
    }

    /** The reset loops of _send_query. */
    method ResetReplies()
      modifies this`mcast
      ensures Value() == Reset(old(Value()))
    {
      var todo := mcast.Keys;
      while todo != {}
        invariant todo <= mcast.Keys == old(mcast).Keys
        invariant forall g | g in mcast :: mcast[g] == if g in todo then old(mcast)[g] else Unmarked(old(mcast)[g])
        decreases todo
      {
        var g :| g in todo;
        todo := todo - {g};
        var status := ResetGroup(mcast[g]);
        mcast := mcast[g := status];
      }
    }

    static method ResetGroup(status0: map<PortNo, bool>) returns (status: map<PortNo, bool>)
      ensures status == Unmarked(status0)
    {
      status := status0;
      var todo := status.Keys;
      while todo != {}
        invariant todo <= status.Keys == status0.Keys
        invariant forall p | p in status && p !in todo :: !status[p]
        decreases todo
      {
        var p :| p in todo;
        todo := todo - {p};
        status := status[p := false];
      }
    }

    /** The loops of _send_query when the query has expired. */
    method ExpireQuery()
      modifies this
      ensures Value() == Expire(old(Value()), serverPort)
    {
      hide Marked, RepliedIn, ExpiredLookup, ExpireMcast, Expire;
      ghost var q := Value();
      NotExpired(q, serverPort);
      var todo := mcast.Keys;
      var delGroups: set<Group> := {};
      while todo != {}
        invariant todo <= mcast.Keys == q.mcast.Keys && delGroups <= q.mcast.Keys
        invariant forall g | g in mcast :: mcast[g] == if g in todo then q.mcast[g] else Marked(q.mcast[g])
        invariant forall g | g in mcast :: g in delGroups <==> g !in todo && RepliedIn(q.mcast[g]) == {}
        invariant forall k :: Lookup(flows, k) == if k.1 in todo then Lookup(q.flows, k) else ExpiredLookup(q, serverPort, k)
        decreases todo
      {
        var g :| g in todo;
        var status := mcast[g];
        ghost var before := flows;
        var live := ExpireGroup(g, status);
        ExpireOneMore(q, serverPort, g, before, flows);
        if live == {} { delGroups := delGroups + {g}; }
        todo := todo - {g};
        mcast := mcast[g := Marked(status)];
      }
      ExpireGroups(q.mcast, mcast, delGroups);
      mcast := mcast - delGroups;
      ExpireDone(q, serverPort, flows);
    }

    /** One group: its server flow, then the flows of the ports that are gone. */
    method ExpireGroup(g: Group, status: map<PortNo, bool>) returns (live: set<PortNo>)
      modifies this`flows
      ensures flows == ExpireFlows(old(flows), serverPort, g, status) && live == RepliedIn(status)
    {
      var gone: set<PortNo> := {};
      live := {};
      var todo := status.Keys;
      while todo != {}
        invariant todo <= status.Keys && live == RepliedIn(status) - todo && gone == status.Keys - RepliedIn(status) - todo
        decreases todo
      {
        var p :| p in todo;
        todo := todo - {p};
        if !status[p] { gone := gone + {p}; } else { live := live + {p}; }
      }
      assert live == RepliedIn(status) && gone == status.Keys - live;
      if live != {} && gone != {} { SetFlowEntry(ToPorts(live), serverPort, g); }
      if live == {} { DelFlowEntry(serverPort, g); }
      ghost var table := flows;
      todo := gone;
      assert table - (set p | p in gone - todo :: (p, g)) == table;
      while todo != {}
        invariant todo <= gone && flows == table - (set p | p in gone - todo :: (p, g))
        decreases todo
      {
        var p :| p in todo;
        todo := todo - {p};
        DelFlowEntry(p, g);
      }
      assert gone - {} == gone == status.Keys - RepliedIn(status);
    }
  }

  function Unmarked(status: map<PortNo, bool>): map<PortNo, bool> {
    map p | p in status :: false
  }

  function Marked(status: map<PortNo, bool>): map<PortNo, bool> {
    map p | p in status && status[p] :: true
  }

  lemma ExpireOneMore(q: Querier, server: PortNo, g: Group, before: Table, after: Table)
    requires g in q.mcast && forall p :: Lookup(before, (p, g)) == Lookup(q.flows, (p, g))
    requires after == ExpireFlows(before, server, g, q.mcast[g])
    ensures forall k :: Lookup(after, k) == if k.1 == g then ExpiredLookup(q, server, k) else Lookup(before, k)
  {
    forall k: (PortNo, Group) ensures Lookup(after, k) == if k.1 == g then ExpiredLookup(q, server, k) else Lookup(before, k) {
      if k.1 == g { assert k == (k.0, g); }
    }
  }

  lemma NotExpired(q: Querier, server: PortNo)
    ensures forall k: (PortNo, Group) :: k.1 !in q.mcast ==> ExpiredLookup(q, server, k) == Lookup(q.flows, k)
  {
  }

  lemma ExpireGroups(was: Mcast, marked: Mcast, empty: set<Group>)
    requires was.Keys == marked.Keys && empty <= was.Keys
    requires forall g | g in was :: marked[g] == Marked(was[g]) && (g in empty <==> RepliedIn(was[g]) == {})
    ensures marked - empty == ExpireMcast(was)
  {
  }

  lemma ExpireDone(q: Querier, server: PortNo, flows: Table)
    requires forall k :: Lookup(flows, k) == ExpiredLookup(q, server, k)
    ensures Querier(ExpireMcast(q.mcast), flows) == Expire(q, server)
  {
    hide ExpiredLookup;
    forall k: (PortNo, Group) ensures Lookup(flows, k) == Lookup(Expire(q, server).flows, k) {
      ExpiredGroup(q, server, k.1);
      assert k == (k.0, k.1);
    }
    assert forall k :: k in flows <==> Lookup(flows, k).Some?;
    assert forall k :: k in Expire(q, server).flows <==> Lookup(Expire(q, server).flows, k).Some?;
  }
}
