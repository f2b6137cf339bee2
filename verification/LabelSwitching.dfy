/** Label-switched paths: app/domain_reply_controller.py installs push, swap and
    pop flows along a switch list, with labels from app/labelsManager.py and
    ports from app/domainTopo.py. */
module LabelSwitching {
  import opened Wrappers

  type Switch = nat
  type PortNo = nat
  type Label = nat
  type Ip = nat

  /** One entry of linkWithPort. */
  datatype Link = Link(src: Switch, srcPort: PortNo, dst: Switch, dstPort: PortNo)

  datatype Match = IpPair(src: Ip, dst: Ip) | Mpls(tag: Label)

  /** What a flow does to a packet, MAC rewriting and queues apart. */
  datatype Action = Push(tag: Label) | Pop | Output(port: PortNo)

  type Table = map<Match, seq<Action>>
  type Tables = map<Switch, Table>

  /** An IPv4 packet under a stack of labels, top first. */
  datatype Packet = Packet(src: Ip, dst: Ip, labels: seq<Label>)

  datatype Domain = Domain(tables: Tables, pool: seq<Label>)

  /** A request; `pathLength` is the length of the stored path from the request's
      source to its destination switch, `switches` the stored path of the list
      the request carries, `post` the first switch beyond (0: none). */
  datatype Task = Task(src: Ip, dst: Ip, isMain: bool, pathLength: nat, switches: seq<Switch>, post: Switch, lastPort: PortNo)

  // --------------------------------------------------------------- topology

  /** getLinkOutPort: the near port of the first entry that comes from `b`. */
  function GetLinkOutPort(links: seq<Link>, a: Switch, b: Switch): Option<PortNo>
    decreases |links|
  {
    if links == [] then None
    else if links[0].src == b && links[0].dst == a then Some(links[0].dstPort)
    else GetLinkOutPort(links[1..], a, b)
  }

  /** The switch a port leads to. */
  function FarEnd(links: seq<Link>, a: Switch, p: PortNo): Option<Switch>
    decreases |links|
  {
    if links == [] then None
    else if links[0].dst == a && links[0].dstPort == p then Some(links[0].src)
    else FarEnd(links[1..], a, p)
  }

  /** A port leads to one switch. */
  ghost predicate Wired(links: seq<Link>) {
    forall x, y | x in links && y in links && x.dst == y.dst && x.dstPort == y.dstPort :: x.src == y.src
  }

  lemma {:induction false} OutPortFound(links: seq<Link>, a: Switch, b: Switch)
    requires GetLinkOutPort(links, a, b).Some?
    ensures exists x :: x in links && x.src == b && x.dst == a && x.dstPort == GetLinkOutPort(links, a, b).value
    decreases |links|
  {
    if links[0].src == b && links[0].dst == a {
      assert links[0] in links;
    } else {
      OutPortFound(links[1..], a, b);
      var x :| x in links[1..] && x.src == b && x.dst == a && x.dstPort == GetLinkOutPort(links, a, b).value;
      assert x in links;
    }
  }

  lemma {:induction false} FarEndOf(links: seq<Link>, x: Link)
    requires Wired(links) && x in links
    ensures FarEnd(links, x.dst, x.dstPort) == Some(x.src)
    decreases |links|
  {
    if links[0].dst == x.dst && links[0].dstPort == x.dstPort {
      assert links[0] in links;
    } else {
      assert x in links[1..];
      FarEndOf(links[1..], x);
    }
  }

  /** The port getLinkOutPort names leads to the switch it was asked for. */
  lemma OutPortLeadsThere(links: seq<Link>, a: Switch, b: Switch)
    requires Wired(links) && GetLinkOutPort(links, a, b).Some?
    ensures FarEnd(links, a, GetLinkOutPort(links, a, b).value) == Some(b)
  {
    OutPortFound(links, a, b);
    var x :| x in links && x.src == b && x.dst == a && x.dstPort == GetLinkOutPort(links, a, b).value;
    FarEndOf(links, x);
  }

  // ------------------------------------------------------------ forwarding

  function MatchOf(p: Packet): Match {
    if p.labels == [] then IpPair(p.src, p.dst) else Mpls(p.labels[0])
  }

  function Row(tables: Tables, s: Switch, m: Match): Option<seq<Action>> {
    if s in tables && m in tables[s] then Some(tables[s][m]) else None
  }

  function Perform(actions: seq<Action>, p: Packet): Option<(PortNo, Packet)>
    decreases |actions|
  {
    if actions == [] then None
    else match actions[0]
         case Push(l) => Perform(actions[1..], p.(labels := [l] + p.labels))
         case Pop => if p.labels == [] then None else Perform(actions[1..], p.(labels := p.labels[1..]))
         case Output(port) => Some((port, p))
  }

  function Process(tables: Tables, s: Switch, p: Packet): Option<(PortNo, Packet)> {
    match Row(tables, s, MatchOf(p))
    case None => None
    case Some(actions) => Perform(actions, p)
  }

  /** Where the packet leaves after `hops` links: switch, port and packet. */
  function Follow(tables: Tables, links: seq<Link>, s: Switch, p: Packet, hops: nat): Option<(Switch, PortNo, Packet)>
    decreases hops
  {
    match Process(tables, s, p)
    case None => None
    case Some((port, q)) =>
      if hops == 0 then Some((s, port, q))
      else match FarEnd(links, s, port)
           case None => None
           case Some(next) => Follow(tables, links, next, q, hops - 1)
  }

  // ------------------------------------------------------------- assignment

  function OutPort(links: seq<Link>, task: Task, last: Switch): Option<PortNo> {
    if task.post != 0 then GetLinkOutPort(links, last, task.post) else Some(task.lastPort)
  }

  /** The rule for the switch at position `i`, or None where building it raises:
      an unknown link, or a label that was not taken. */
  function RuleAt(links: seq<Link>, labels: seq<Label>, task: Task, i: nat): Option<(Match, seq<Action>)>
    requires i < |task.switches|
  {
    var s, n := task.switches[i], |task.switches|;
    var port := if i == n - 1 then OutPort(links, task, s) else GetLinkOutPort(links, s, task.switches[i + 1]);
    if port == None then None
    else if n == 1 then Some((IpPair(task.src, task.dst), [Output(port.value)]))
    else if i == 0 then
      if labels == [] then None else Some((IpPair(task.src, task.dst), [Push(labels[0]), Output(port.value)]))
    else if i == n - 1 then
      if labels == [] then None else Some((Mpls(labels[|labels| - 1]), [Pop, Output(port.value)]))
    else if i >= |labels| then None
    else Some((Mpls(labels[i - 1]), [Pop, Push(labels[i]), Output(port.value)]))
  }

  /** Backup paths leave the first switch alone for now. */
  predicate Sent(task: Task, i: nat) { task.isMain || i != 0 }

  /** list.index: where a switch first occurs. */
  function IndexOf(switches: seq<Switch>, s: Switch): (i: nat)
    requires s in switches
    ensures i < |switches| && switches[i] == s
    decreases |switches|
  {
    if switches[0] == s then 0 else 1 + IndexOf(switches[1..], s)
  }

  /** moredpid_handler and onedpid_handler from position `i` on; false when one
      of the handlers raised.  A switch is handled as at its first position. */
  function Install(links: seq<Link>, labels: seq<Label>, task: Task, tables: Tables, i: nat): (Tables, bool)
    requires i <= |task.switches|
    decreases |task.switches| - i
  {
    if i == |task.switches| then (tables, true)
    else
      var s, at := task.switches[i], IndexOf(task.switches, task.switches[i]);
      var rule := RuleAt(links, labels, task, at);
      if rule == None || s !in tables then (tables, false)
      else
        var (m, actions) := rule.value;
        Install(links, labels, task, if Sent(task, at) then tables[s := tables[s][m := actions]] else tables, i + 1)
  }

  function LabelsWanted(task: Task): nat {
    if task.pathLength == 0 then 0 else task.pathLength - 1
  }

  /** taskAssign. */
  function Assign(d: Domain, links: seq<Link>, task: Task): (Domain, bool) {
    var n := LabelsWanted(task);
    if |d.pool| < n then (d, false)
    else
      var (tables, ok) := Install(links, d.pool[..n], task, d.tables, 0);
      (Domain(tables, d.pool[n..]), ok)
  }

  // --------------------------------------------------------------- invariant

  ghost predicate Distinct<T(!new)>(s: seq<T>) {
    forall i, j | 0 <= i < j < |s| :: s[i] != s[j]
  }

  /** Labels in the pool are distinct and no flow matches them. */
  ghost predicate DomainOk(d: Domain) {
    Distinct(d.pool) && forall s, l | l in d.pool :: Row(d.tables, s, Mpls(l)) == None
  }

  /** How far installation gets. */
  function Reach(links: seq<Link>, labels: seq<Label>, task: Task, tables: Tables, i: nat): (n: nat)
    requires i <= |task.switches|
    ensures i <= n <= |task.switches|
    decreases |task.switches| - i
  {
    if i == |task.switches| || RuleAt(links, labels, task, i) == None || task.switches[i] !in tables then i
    else Reach(links, labels, task, tables, i + 1)
  }

  lemma {:induction false} ReachIsFirst(links: seq<Link>, labels: seq<Label>, task: Task, tables: Tables, i: nat)
    requires i <= |task.switches|
    ensures var n := Reach(links, labels, task, tables, i);
            && (forall k | i <= k < n :: RuleAt(links, labels, task, k).Some? && task.switches[k] in tables)
            && (n < |task.switches| ==> RuleAt(links, labels, task, n) == None || task.switches[n] !in tables)
    decreases |task.switches| - i
  {
    if !(i == |task.switches| || RuleAt(links, labels, task, i) == None || task.switches[i] !in tables) {
      ReachIsFirst(links, labels, task, tables, i + 1);
    }
  }

  /** What a position writes. */
  ghost predicate Writes(links: seq<Link>, labels: seq<Label>, task: Task, k: nat, s: Switch, m: Match)
    requires k < |task.switches|
  {
    Sent(task, k) && task.switches[k] == s && RuleAt(links, labels, task, k).Some? && RuleAt(links, labels, task, k).value.0 == m
  }

  lemma {:induction false} ReachSame(links: seq<Link>, labels: seq<Label>, task: Task, tables: Tables, tables': Tables, i: nat)
    requires i <= |task.switches| && tables.Keys == tables'.Keys
    ensures Reach(links, labels, task, tables, i) == Reach(links, labels, task, tables', i)
    decreases |task.switches| - i
  {
    if i < |task.switches| {
      assert task.switches[i] in tables <==> task.switches[i] in tables.Keys;
      ReachSame(links, labels, task, tables, tables', i + 1);
    }
  }

  /** Installation writes the rules of the positions it reaches, nothing else. */
  lemma {:induction false} InstallWrites(links: seq<Link>, labels: seq<Label>, task: Task, tables: Tables, i: nat, s: Switch, m: Match)
    requires i <= |task.switches| && Distinct(task.switches)
    ensures var r, n := Install(links, labels, task, tables, i), Reach(links, labels, task, tables, i);
            && r.0.Keys == tables.Keys && (r.1 <==> n == |task.switches|)
            && (forall k | i <= k < n && Writes(links, labels, task, k, s, m) ::
                  Row(r.0, s, m) == Some(RuleAt(links, labels, task, k).value.1))
            && ((forall k | i <= k < n :: !Writes(links, labels, task, k, s, m)) ==> Row(r.0, s, m) == Row(tables, s, m))
    decreases |task.switches| - i
  {
    hide RuleAt, Install, Reach;
    if i < |task.switches| && RuleAt(links, labels, task, i).Some? && task.switches[i] in tables {
      var tables1 := Written(links, labels, task, tables, i);
      OnePosition(links, labels, task, tables, i);
      InstallWrites(links, labels, task, tables1, i + 1, s, m);
      if Writes(links, labels, task, i, s, m) {
        forall k | i < k < |task.switches| ensures !Writes(links, labels, task, k, s, m) {
          assert task.switches[k] != task.switches[i];
        }
      }
    } else {
      InstallStops(links, labels, task, tables, i);
    }
  }

  function Written(links: seq<Link>, labels: seq<Label>, task: Task, tables: Tables, i: nat): Tables
    requires i < |task.switches| && RuleAt(links, labels, task, i).Some? && task.switches[i] in tables
  {
    var x, rule := task.switches[i], RuleAt(links, labels, task, i).value;
    if Sent(task, i) then tables[x := tables[x][rule.0 := rule.1]] else tables
  }

  lemma OnePosition(links: seq<Link>, labels: seq<Label>, task: Task, tables: Tables, i: nat)
    requires i < |task.switches| && Distinct(task.switches) && RuleAt(links, labels, task, i).Some? && task.switches[i] in tables
    ensures var tables1 := Written(links, labels, task, tables, i);
            && tables1.Keys == tables.Keys
            && Install(links, labels, task, tables, i) == Install(links, labels, task, tables1, i + 1)
            && Reach(links, labels, task, tables, i) == Reach(links, labels, task, tables1, i + 1)
  {
    hide RuleAt;
    assert IndexOf(task.switches, task.switches[i]) == i;
    assert Written(links, labels, task, tables, i).Keys == tables.Keys;
    ReachSame(links, labels, task, tables, Written(links, labels, task, tables, i), i + 1);
  }

  lemma InstallStops(links: seq<Link>, labels: seq<Label>, task: Task, tables: Tables, i: nat)
    requires i <= |task.switches| && Distinct(task.switches)
    requires i == |task.switches| || RuleAt(links, labels, task, i) == None || task.switches[i] !in tables
    ensures Install(links, labels, task, tables, i) == (tables, i == |task.switches|) && Reach(links, labels, task, tables, i) == i
  {
    hide RuleAt;
    if i < |task.switches| { assert IndexOf(task.switches, task.switches[i]) == i; }
  }

  /** Rules match the request's own addresses or labels just taken. */
  lemma RulesAreFresh(links: seq<Link>, labels: seq<Label>, task: Task, k: nat)
    requires k < |task.switches| && RuleAt(links, labels, task, k).Some?
    ensures var m := RuleAt(links, labels, task, k).value.0;
            m == IpPair(task.src, task.dst) || (m.Mpls? && m.tag in labels)
  {
  }

  /** An assignment, successful or not, keeps the pool apart from the flows. */
  lemma AssignKeepsDomain(d: Domain, links: seq<Link>, task: Task)
    requires DomainOk(d) && Distinct(task.switches)
    ensures DomainOk(Assign(d, links, task).0)
  {
    hide RuleAt;
    var n := LabelsWanted(task);
    if |d.pool| >= n {
      var labels, d' := d.pool[..n], Assign(d, links, task).0;
      forall s, l | l in d'.pool ensures Row(d'.tables, s, Mpls(l)) == None {
        assert l in d.pool && l !in labels by {
          var j :| 0 <= j < |d'.pool| && d'.pool[j] == l;
          assert d.pool[n + j] == l;
        }
        InstallWrites(links, labels, task, d.tables, 0, s, Mpls(l));
        forall k | 0 <= k < |task.switches| ensures !Writes(links, labels, task, k, s, Mpls(l)) {
          if RuleAt(links, labels, task, k).Some? { RulesAreFresh(links, labels, task, k); }
        }
      }
    }
  }

  // ---------------------------------------------------------------- delivery

  /** Packets of the request's address pair, put in at the first switch, leave
      the last one on the requested port, unlabelled. */
  predicate Delivered(tables: Tables, links: seq<Link>, task: Task)
    requires task.switches != []
  {
    var n, p := |task.switches|, Packet(task.src, task.dst, []);
    OutPort(links, task, task.switches[n - 1]).Some? &&
    Follow(tables, links, task.switches[0], p, n - 1)
      == Some((task.switches[n - 1], OutPort(links, task, task.switches[n - 1]).value, p))
  }

  /** What the caller can check: every link is known, every switch connected, and
      the labels number one fewer than the switches. */
  predicate Feasible(d: Domain, links: seq<Link>, task: Task)
    requires task.switches != []
  {
    var n := |task.switches|;
    && (n > 1 ==> LabelsWanted(task) == n - 1)
    && (forall k | 0 <= k < n - 1 :: GetLinkOutPort(links, task.switches[k], task.switches[k + 1]).Some?)
    && OutPort(links, task, task.switches[n - 1]).Some?
    && (forall k | 0 <= k < n :: task.switches[k] in d.tables)
  }

  /** The packet as it reaches position `k`. */
  function PacketAt(task: Task, labels: seq<Label>, k: nat): Packet
    requires k <= |labels|
  {
    Packet(task.src, task.dst, if k == 0 then [] else [labels[k - 1]])
  }

  /** The tables hold the rules of the positions from `j` to before `n`. */
  ghost predicate RowsIn(tables: Tables, links: seq<Link>, labels: seq<Label>, task: Task, j: nat, n: nat)
    requires n <= |task.switches|
  {
    forall k | j <= k < n :: RowIn(tables, links, labels, task, k)
  }

  ghost predicate RowIn(tables: Tables, links: seq<Link>, labels: seq<Label>, task: Task, k: nat)
    requires k < |task.switches|
  {
    var rule := RuleAt(links, labels, task, k);
    rule.Some? && Row(tables, task.switches[k], rule.value.0) == Some(rule.value.1)
  }

  /** Installation puts in the rules it reaches; a backup path's from the second
      switch on. */
  lemma InstalledRows(links: seq<Link>, labels: seq<Label>, task: Task, tables: Tables)
    requires Distinct(task.switches)
    ensures RowsIn(Install(links, labels, task, tables, 0).0, links, labels, task, if task.isMain then 0 else 1,
                   Reach(links, labels, task, tables, 0))
  {
    hide Install, Reach, RuleAt;
    var n := Reach(links, labels, task, tables, 0);
    ReachIsFirst(links, labels, task, tables, 0);
    forall k | (if task.isMain then 0 else 1) <= k < n
      ensures RowIn(Install(links, labels, task, tables, 0).0, links, labels, task, k)
    {
      var rule := RuleAt(links, labels, task, k).value;
      InstallWrites(links, labels, task, tables, 0, task.switches[k], rule.0);
      assert Writes(links, labels, task, k, task.switches[k], rule.0);
    }
  }

  /** The rules of positions `j` to before `k` carry the packet from one to the
      other. */
  lemma {:induction false} Carried(links: seq<Link>, labels: seq<Label>, task: Task, tables: Tables, j: nat, k: nat)
    requires Wired(links) && j <= k < |task.switches| && k <= |labels| && RowsIn(tables, links, labels, task, j, k)
    ensures Follow(tables, links, task.switches[j], PacketAt(task, labels, j), |task.switches| - 1 - j)
            == Follow(tables, links, task.switches[k], PacketAt(task, labels, k), |task.switches| - 1 - k)
    decreases k
  {
    hide RuleAt, Follow;
    if k > j {
      assert RowsIn(tables, links, labels, task, j, k - 1);
      Carried(links, labels, task, tables, j, k - 1);
      OneHop(links, labels, task, tables, k - 1);
    }
  }

  lemma OneHop(links: seq<Link>, labels: seq<Label>, task: Task, tables: Tables, k: nat)
    requires Wired(links) && k + 1 < |task.switches| && k < |labels| && RowIn(tables, links, labels, task, k)
    ensures Follow(tables, links, task.switches[k], PacketAt(task, labels, k), |task.switches| - 1 - k)
            == Follow(tables, links, task.switches[k + 1], PacketAt(task, labels, k + 1), |task.switches| - 2 - k)
  {
    var s, p := task.switches[k], PacketAt(task, labels, k);
    assert RuleAt(links, labels, task, k).value.0 == MatchOf(p);
    var port := GetLinkOutPort(links, s, task.switches[k + 1]).value;
    OutPortLeadsThere(links, s, task.switches[k + 1]);
    if k == 0 {
      PushPerformed(labels[0], port, p);
    } else {
      SwapPerformed(labels[k], port, p);
    }
    assert Process(tables, s, p) == Some((port, PacketAt(task, labels, k + 1)));
  }

  lemma PushPerformed(l: Label, port: PortNo, p: Packet)
    requires p.labels == []
    ensures Perform([Push(l), Output(port)], p) == Some((port, p.(labels := [l])))
  {
    assert [Push(l), Output(port)][1..] == [Output(port)];
    assert [l] + p.labels == [l];
  }

  lemma SwapPerformed(l: Label, port: PortNo, p: Packet)
    requires |p.labels| == 1
    ensures Perform([Pop, Push(l), Output(port)], p) == Some((port, p.(labels := [l])))
  {
    var q := p.(labels := p.labels[1..]);
    assert [Pop, Push(l), Output(port)][1..] == [Push(l), Output(port)];
    PushPerformed(l, port, q);
  }

  lemma PopPerformed(port: PortNo, p: Packet)
    requires |p.labels| == 1
    ensures Perform([Pop, Output(port)], p) == Some((port, p.(labels := [])))
  {
    assert [Pop, Output(port)][1..] == [Output(port)];
    assert p.labels[1..] == [];
  }

  /** A main assignment for a new pair of addresses delivers exactly when it is
      feasible. */
  lemma DeliveredExactlyWhenFeasible(d: Domain, links: seq<Link>, task: Task)
    requires DomainOk(d) && Wired(links) && task.isMain && Distinct(task.switches) && task.switches != []
    requires LabelsWanted(task) <= |d.pool|
    requires Row(d.tables, task.switches[0], IpPair(task.src, task.dst)) == None
    ensures Delivered(Assign(d, links, task).0.tables, links, task) <==> Feasible(d, links, task)
  {
    hide Follow, RuleAt;
    var labels := d.pool[..LabelsWanted(task)];
    var n := Reach(links, labels, task, d.tables, 0);
    ReachIsFirst(links, labels, task, d.tables, 0);
    FeasibleReachesEnd(d, links, task);
    if n < |task.switches| {
      StoppedShort(d, links, task);
    } else if |task.switches| == 1 {
      SingleSwitch(d, links, task);
    } else {
      LastSwitch(d, links, task);
    }
  }

  /** Installation reaches the end exactly if links and switches are known and
      there are labels enough. */
  lemma FeasibleReachesEnd(d: Domain, links: seq<Link>, task: Task)
    requires task.switches != [] && LabelsWanted(task) <= |d.pool|
    ensures var n, labels := |task.switches|, d.pool[..LabelsWanted(task)];
            && (Feasible(d, links, task) ==> Reach(links, labels, task, d.tables, 0) == n)
            && (Reach(links, labels, task, d.tables, 0) == n && (n == 1 || LabelsWanted(task) == n - 1) ==> Feasible(d, links, task))
            && (Reach(links, labels, task, d.tables, 0) == n && n > 1 ==> LabelsWanted(task) >= n - 1)
  {
    hide Reach, RuleAt, Feasible;
    var n, labels := |task.switches|, d.pool[..LabelsWanted(task)];
    ReachIsFirst(links, labels, task, d.tables, 0);
    if Reach(links, labels, task, d.tables, 0) == n {
      if n > 1 { RuleMeans(links, labels, task, n - 2); }
      forall k | 0 <= k < n ensures PortKnown(links, task, k) { RuleMeans(links, labels, task, k); }
      if n == 1 || LabelsWanted(task) == n - 1 { PortsKnown(d, links, task); }
    } else if Feasible(d, links, task) {
      FeasibleRule(d, links, task, labels, Reach(links, labels, task, d.tables, 0));
    }
  }

  predicate PortKnown(links: seq<Link>, task: Task, k: nat)
    requires k < |task.switches|
  {
    var s, n := task.switches[k], |task.switches|;
    if k == n - 1 then OutPort(links, task, s).Some? else GetLinkOutPort(links, s, task.switches[k + 1]).Some?
  }

  lemma RuleMeans(links: seq<Link>, labels: seq<Label>, task: Task, k: nat)
    requires k < |task.switches| && RuleAt(links, labels, task, k).Some?
    ensures PortKnown(links, task, k) && (k < |task.switches| - 1 ==> k < |labels|)
  {
  }

  lemma PortsKnown(d: Domain, links: seq<Link>, task: Task)
    requires task.switches != [] && forall k | 0 <= k < |task.switches| :: PortKnown(links, task, k) && task.switches[k] in d.tables
    requires |task.switches| == 1 || LabelsWanted(task) == |task.switches| - 1
    ensures Feasible(d, links, task)
  {
    forall k | 0 <= k < |task.switches| - 1
      ensures GetLinkOutPort(links, task.switches[k], task.switches[k + 1]).Some?
    {
      assert PortKnown(links, task, k);
    }
    assert PortKnown(links, task, |task.switches| - 1);
  }

  lemma FeasibleRule(d: Domain, links: seq<Link>, task: Task, labels: seq<Label>, k: nat)
    requires task.switches != [] && Feasible(d, links, task) && |labels| == LabelsWanted(task) && k < |task.switches|
    ensures RuleAt(links, labels, task, k).Some? && task.switches[k] in d.tables
  {
  }

  lemma StoppedShort(d: Domain, links: seq<Link>, task: Task)
    requires DomainOk(d) && Wired(links) && task.isMain && Distinct(task.switches) && task.switches != []
    requires LabelsWanted(task) <= |d.pool|
    requires Row(d.tables, task.switches[0], IpPair(task.src, task.dst)) == None
    requires Reach(links, d.pool[..LabelsWanted(task)], task, d.tables, 0) < |task.switches|
    ensures !Delivered(Assign(d, links, task).0.tables, links, task)
  {
    hide Install, Reach, Follow, RuleAt;
    var labels := d.pool[..LabelsWanted(task)];
    var n, tables' := Reach(links, labels, task, d.tables, 0), Assign(d, links, task).0.tables;
    NoRuleThere(d, links, task);
    NotFollowed(tables', links, task.switches[n], PacketAt(task, labels, n), |task.switches| - 1 - n);
    InstalledRows(links, labels, task, d.tables);
    if n > 0 { Carried(links, labels, task, tables', 0, n); }
  }

  lemma NotFollowed(tables: Tables, links: seq<Link>, s: Switch, p: Packet, hops: nat)
    requires Row(tables, s, MatchOf(p)) == None
    ensures Follow(tables, links, s, p, hops) == None
  {
  }

  /** Where installation stopped there is no rule for what arrives. */
  lemma NoRuleThere(d: Domain, links: seq<Link>, task: Task)
    requires DomainOk(d) && Distinct(task.switches) && task.switches != []
    requires LabelsWanted(task) <= |d.pool|
    requires Row(d.tables, task.switches[0], IpPair(task.src, task.dst)) == None
    requires Reach(links, d.pool[..LabelsWanted(task)], task, d.tables, 0) < |task.switches|
    ensures var labels := d.pool[..LabelsWanted(task)];
            var n := Reach(links, labels, task, d.tables, 0);
            && n <= |labels|
            && Row(Assign(d, links, task).0.tables, task.switches[n], MatchOf(PacketAt(task, labels, n))) == None
  {
    hide Install, Reach;
    var labels := d.pool[..LabelsWanted(task)];
    var n := Reach(links, labels, task, d.tables, 0);
    ReachIsFirst(links, labels, task, d.tables, 0);
    if n == 0 {
      NothingBeyond(d, links, task, 0, IpPair(task.src, task.dst));
    } else {
      assert RuleAt(links, labels, task, n - 1).Some?;
      LabelUnmatched(d, links, task, n);
    }
  }

  /** Beyond the positions reached nothing is written. */
  lemma NothingBeyond(d: Domain, links: seq<Link>, task: Task, k: nat, m: Match)
    requires Distinct(task.switches) && LabelsWanted(task) <= |d.pool| && k < |task.switches|
    requires Reach(links, d.pool[..LabelsWanted(task)], task, d.tables, 0) <= k
    ensures Row(Assign(d, links, task).0.tables, task.switches[k], m) == Row(d.tables, task.switches[k], m)
  {
    hide Install, Reach, RuleAt;
    var labels := d.pool[..LabelsWanted(task)];
    InstallWrites(links, labels, task, d.tables, 0, task.switches[k], m);
    forall i | 0 <= i < Reach(links, labels, task, d.tables, 0) ensures !Writes(links, labels, task, i, task.switches[k], m) {
      assert task.switches[i] != task.switches[k];
    }
  }

  lemma LabelUnmatched(d: Domain, links: seq<Link>, task: Task, k: nat)
    requires DomainOk(d) && Distinct(task.switches) && LabelsWanted(task) <= |d.pool|
    requires 0 < k < |task.switches| && k <= LabelsWanted(task)
    requires Reach(links, d.pool[..LabelsWanted(task)], task, d.tables, 0) <= k
    ensures Row(Assign(d, links, task).0.tables, task.switches[k], Mpls(d.pool[k - 1])) == None
  {
    hide Install, Reach, RuleAt, Assign;
    NothingBeyond(d, links, task, k, Mpls(d.pool[k - 1]));
    assert d.pool[k - 1] in d.pool;
  }

  lemma SingleSwitch(d: Domain, links: seq<Link>, task: Task)
    requires task.isMain && |task.switches| == 1 && LabelsWanted(task) <= |d.pool|
    requires Reach(links, d.pool[..LabelsWanted(task)], task, d.tables, 0) == 1
    ensures Delivered(Assign(d, links, task).0.tables, links, task)
  {
    hide Install, Reach;
    var labels, s := d.pool[..LabelsWanted(task)], task.switches[0];
    ReachIsFirst(links, labels, task, d.tables, 0);
    InstallWrites(links, labels, task, d.tables, 0, s, IpPair(task.src, task.dst));
    assert Writes(links, labels, task, 0, s, IpPair(task.src, task.dst));
  }

  /** Everything was installed: the last switch pops the last label taken, which
      is the one that arrives exactly if none was taken in excess. */
  lemma LastSwitch(d: Domain, links: seq<Link>, task: Task)
    requires DomainOk(d) && Wired(links) && task.isMain && Distinct(task.switches) && |task.switches| > 1
    requires LabelsWanted(task) <= |d.pool|
    requires Reach(links, d.pool[..LabelsWanted(task)], task, d.tables, 0) == |task.switches|
    ensures Delivered(Assign(d, links, task).0.tables, links, task) <==> LabelsWanted(task) == |task.switches| - 1
  {
    hide Install, Reach, RuleAt, Follow;
    var labels, n := d.pool[..LabelsWanted(task)], |task.switches|;
    LastHop(d, links, task);
    InstalledRows(links, labels, task, d.tables);
    Carried(links, labels, task, Assign(d, links, task).0.tables, 0, n - 1);
  }

  /** The packet as it should leave the last switch. */
  ghost predicate Leaves(tables: Tables, links: seq<Link>, task: Task, labels: seq<Label>, k: nat)
    requires k < |task.switches| && k <= |labels|
  {
    var n, last := |task.switches|, task.switches[|task.switches| - 1];
    OutPort(links, task, last).Some? &&
    Follow(tables, links, task.switches[k], PacketAt(task, labels, k), n - 1 - k)
      == Some((last, OutPort(links, task, last).value, Packet(task.src, task.dst, [])))
  }

  lemma LastHop(d: Domain, links: seq<Link>, task: Task)
    requires DomainOk(d) && Distinct(task.switches) && |task.switches| > 1 && LabelsWanted(task) <= |d.pool|
    requires Reach(links, d.pool[..LabelsWanted(task)], task, d.tables, 0) == |task.switches|
    ensures var n := |task.switches|;
            && n - 1 <= LabelsWanted(task) && OutPort(links, task, task.switches[n - 1]).Some?
            && (Leaves(Assign(d, links, task).0.tables, links, task, d.pool[..LabelsWanted(task)], n - 1)
                <==> LabelsWanted(task) == n - 1)
  {
    hide Install, Reach;
    var labels, n := d.pool[..LabelsWanted(task)], |task.switches|;
    var tables', s := Assign(d, links, task).0.tables, task.switches[n - 1];
    ReachIsFirst(links, labels, task, d.tables, 0);
    assert RuleAt(links, labels, task, n - 1).Some? && RuleAt(links, labels, task, n - 2).Some?;
    var p := PacketAt(task, labels, n - 1);
    InstallWrites(links, labels, task, d.tables, 0, s, MatchOf(p));
    var port := OutPort(links, task, s).value;
    if LabelsWanted(task) == n - 1 {
      assert Writes(links, labels, task, n - 1, s, MatchOf(p));
      PopPerformed(port, p);
    } else {
      assert labels[|labels| - 1] != labels[n - 2];
      assert Row(d.tables, s, MatchOf(p)) == None;
      assert Row(tables', s, MatchOf(p)) == None;
    }
  }

  // ------------------------------------------------------------ backup paths

  /** A backup assignment leaves the first switch exactly as it was, and every
      switch's row for the address pair. */
  lemma BackupLeavesFirst(d: Domain, links: seq<Link>, task: Task, s: Switch, m: Match)
    requires !task.isMain && Distinct(task.switches) && task.switches != []
    requires s == task.switches[0] || m == IpPair(task.src, task.dst)
    ensures Row(Assign(d, links, task).0.tables, s, m) == Row(d.tables, s, m)
  {
    hide Install, Reach;
    if LabelsWanted(task) <= |d.pool| {
      var labels := d.pool[..LabelsWanted(task)];
      InstallWrites(links, labels, task, d.tables, 0, s, m);
      forall k | 0 <= k < |task.switches| ensures !Writes(links, labels, task, k, s, m) {
        assert k > 0 ==> task.switches[k] != task.switches[0];
      }
    }
  }

  /** A packet of the pair under the first label taken, put in at the second
      switch, leaves the last one unlabelled on the requested port exactly when
      the backup path is feasible. */
  lemma BackupCarriesExactlyWhenFeasible(d: Domain, links: seq<Link>, task: Task)
    requires DomainOk(d) && Wired(links) && !task.isMain && Distinct(task.switches) && |task.switches| > 1
    requires LabelsWanted(task) <= |d.pool|
    ensures var n, last, tables' := |task.switches|, task.switches[|task.switches| - 1], Assign(d, links, task).0.tables;
            (&& LabelsWanted(task) > 0 && OutPort(links, task, last).Some?
             && Follow(tables', links, task.switches[1], Packet(task.src, task.dst, [d.pool[0]]), n - 2)
                == Some((last, OutPort(links, task, last).value, Packet(task.src, task.dst, []))))
            <==> Feasible(d, links, task)
  {
    hide Follow, RuleAt, Reach, Install;
    var labels, n := d.pool[..LabelsWanted(task)], |task.switches|;
    var tables', r := Assign(d, links, task).0.tables, Reach(links, labels, task, d.tables, 0);
    FeasibleReachesEnd(d, links, task);
    if LabelsWanted(task) > 0 {
      assert PacketAt(task, labels, 1) == Packet(task.src, task.dst, [d.pool[0]]);
      InstalledRows(links, labels, task, d.tables);
      if r == n {
        LastHop(d, links, task);
        Carried(links, labels, task, tables', 1, n - 1);
      } else {
        var q := if r == 0 then 1 else r;
        BackupStops(d, links, task, q);
      }
    }
  }

  lemma BackupStops(d: Domain, links: seq<Link>, task: Task, q: nat)
    requires DomainOk(d) && Wired(links) && !task.isMain && Distinct(task.switches) && |task.switches| > 1
    requires 0 < LabelsWanted(task) <= |d.pool|
    requires var r := Reach(links, d.pool[..LabelsWanted(task)], task, d.tables, 0);
             r < |task.switches| && q == if r == 0 then 1 else r
    ensures Follow(Assign(d, links, task).0.tables, links, task.switches[1], PacketAt(task, d.pool[..LabelsWanted(task)], 1),
                   |task.switches| - 2) == None
  {
    hide Install, Reach, Follow;
    var labels, tables' := d.pool[..LabelsWanted(task)], Assign(d, links, task).0.tables;
    var r := Reach(links, labels, task, d.tables, 0);
    ReachIsFirst(links, labels, task, d.tables, 0);
    if r > 0 { assert RuleAt(links, labels, task, r - 1).Some?; }
    LabelUnmatched(d, links, task, q);
    NotFollowed(tables', links, task.switches[q], PacketAt(task, labels, q), |task.switches| - 1 - q);
    InstalledRows(links, labels, task, d.tables);
    if r > 0 { Carried(links, labels, task, tables', 1, q); }
  }

  /** The flow withheld at the first switch. */
  function WithFirst(tables: Tables, task: Task, first: seq<Action>): Tables
    requires task.switches != [] && task.switches[0] in tables
  {
    tables[task.switches[0] := tables[task.switches[0]][IpPair(task.src, task.dst) := first]]
  }

  /** Once the first switch pushes that label towards the second (or outputs, if
      there is one switch only), the pair's packets take the backup path. */
  lemma BackupDeliversOnceSwitched(d: Domain, links: seq<Link>, task: Task)
    requires DomainOk(d) && Wired(links) && !task.isMain && Distinct(task.switches) && task.switches != []
    requires LabelsWanted(task) <= |d.pool| && Feasible(d, links, task)
    ensures var tables' := Assign(d, links, task).0.tables;
            && task.switches[0] in tables'
            && Delivered(WithFirst(tables', task,
                 if |task.switches| == 1 then [Output(OutPort(links, task, task.switches[0]).value)]
                 else [Push(d.pool[0]), Output(GetLinkOutPort(links, task.switches[0], task.switches[1]).value)]), links, task)
  {
    hide Follow, Reach, Install;
    var labels, n := d.pool[..LabelsWanted(task)], |task.switches|;
    var tables' := Assign(d, links, task).0.tables;
    FeasibleReachesEnd(d, links, task);
    InstallWrites(links, labels, task, d.tables, 0, task.switches[0], IpPair(task.src, task.dst));
    var first := if n == 1 then [Output(OutPort(links, task, task.switches[0]).value)]
                 else [Push(d.pool[0]), Output(GetLinkOutPort(links, task.switches[0], task.switches[1]).value)];
    var tables2 := WithFirst(tables', task, first);
    if n == 1 {
      OneSwitchOnly(tables2, links, task);
    } else {
      InstalledRows(links, labels, task, d.tables);
      RowsWithFirst(tables', links, labels, task, first);
      Carried(links, labels, task, tables2, 0, n - 1);
      LastHop(d, links, task);
      SameLastHop(tables', links, task, labels, first);
    }
  }

  lemma OneSwitchOnly(tables: Tables, links: seq<Link>, task: Task)
    requires |task.switches| == 1 && OutPort(links, task, task.switches[0]).Some?
    requires Row(tables, task.switches[0], IpPair(task.src, task.dst)) == Some([Output(OutPort(links, task, task.switches[0]).value)])
    ensures Delivered(tables, links, task)
  {
  }

  lemma RowsWithFirst(tables: Tables, links: seq<Link>, labels: seq<Label>, task: Task, first: seq<Action>)
    requires Distinct(task.switches) && |task.switches| > 1 && task.switches[0] in tables
    requires RowsIn(tables, links, labels, task, 1, |task.switches|)
    requires RuleAt(links, labels, task, 0) == Some((IpPair(task.src, task.dst), first))
    ensures RowsIn(WithFirst(tables, task, first), links, labels, task, 0, |task.switches|)
  {
    hide RuleAt;
    forall k | 0 <= k < |task.switches| ensures RowIn(WithFirst(tables, task, first), links, labels, task, k) {
      if k > 0 {
        assert RowIn(tables, links, labels, task, k);
        assert task.switches[k] != task.switches[0];
      }
    }
  }

  lemma SameLastHop(tables: Tables, links: seq<Link>, task: Task, labels: seq<Label>, first: seq<Action>)
    requires Distinct(task.switches) && |task.switches| > 1 && task.switches[0] in tables && |task.switches| - 1 <= |labels|
    ensures Leaves(WithFirst(tables, task, first), links, task, labels, |task.switches| - 1)
            <==> Leaves(tables, links, task, labels, |task.switches| - 1)
  {
    assert task.switches[|task.switches| - 1] != task.switches[0];
  }

  // --------------------------------------------------------- non-interference

  /** Rows for the pair, and rows under labels in use, are still there. */
  ghost predicate Keeps(tables: Tables, tables': Tables, src: Ip, dst: Ip) {
    forall s, m | Row(tables, s, m).Some? && (m.Mpls? || m == IpPair(src, dst)) :: Row(tables', s, m) == Row(tables, s, m)
  }

  lemma OthersKeepRows(d: Domain, links: seq<Link>, task: Task, src: Ip, dst: Ip)
    requires DomainOk(d) && Distinct(task.switches) && (task.src, task.dst) != (src, dst)
    ensures Keeps(d.tables, Assign(d, links, task).0.tables, src, dst)
  {
    hide RuleAt, Reach, Install;
    var n := LabelsWanted(task);
    if |d.pool| >= n {
      var labels := d.pool[..n];
      forall s, m | Row(d.tables, s, m).Some? && (m.Mpls? || m == IpPair(src, dst))
        ensures Row(Assign(d, links, task).0.tables, s, m) == Row(d.tables, s, m)
      {
        InstallWrites(links, labels, task, d.tables, 0, s, m);
        forall k | 0 <= k < |task.switches| ensures !Writes(links, labels, task, k, s, m) {
          if RuleAt(links, labels, task, k).Some? {
            RulesAreFresh(links, labels, task, k);
            if m.Mpls? && m.tag in labels { assert m.tag in d.pool; }
          }
        }
      }
    }
  }

  lemma {:induction false} StillFollowed(tables: Tables, tables': Tables, links: seq<Link>, s: Switch, p: Packet, hops: nat)
    requires Keeps(tables, tables', p.src, p.dst) && Follow(tables, links, s, p, hops).Some?
    ensures Follow(tables', links, s, p, hops) == Follow(tables, links, s, p, hops)
    decreases hops
  {
    assert Row(tables', s, MatchOf(p)) == Row(tables, s, MatchOf(p));
    var (port, q) := Process(tables, s, p).value;
    SameAddresses(Row(tables, s, MatchOf(p)).value, p);
    if hops > 0 { StillFollowed(tables, tables', links, FarEnd(links, s, port).value, q, hops - 1); }
  }

  lemma {:induction false} SameAddresses(actions: seq<Action>, p: Packet)
    requires Perform(actions, p).Some?
    ensures Perform(actions, p).value.1.src == p.src && Perform(actions, p).value.1.dst == p.dst
    decreases |actions|
  {
    match actions[0]
    case Push(l) => SameAddresses(actions[1..], p.(labels := [l] + p.labels));
    case Pop => SameAddresses(actions[1..], p.(labels := p.labels[1..]));
    case Output(_) =>
  }

  function AssignAll(d: Domain, links: seq<Link>, tasks: seq<Task>): Domain
    decreases |tasks|
  {
    if tasks == [] then d else AssignAll(Assign(d, links, tasks[0]).0, links, tasks[1..])
  }

  /** Once delivered, always delivered: any number of later assignments, main or
      backup, successful or not, with other address pairs. */
  lemma {:induction false} StaysDelivered(d: Domain, links: seq<Link>, task: Task, later: seq<Task>)
    requires DomainOk(d) && task.switches != [] && Delivered(d.tables, links, task)
    requires forall t | t in later :: Distinct(t.switches) && (t.src, t.dst) != (task.src, task.dst)
    ensures Delivered(AssignAll(d, links, later).tables, links, task)
    decreases |later|
  {
    if later != [] {
      var t := later[0];
      AssignKeepsDomain(d, links, t);
      OthersKeepRows(d, links, t, task.src, task.dst);
      StillFollowed(d.tables, Assign(d, links, t).0.tables, links, task.switches[0],
                    Packet(task.src, task.dst, []), |task.switches| - 1);
      StaysDelivered(Assign(d, links, t).0, links, task, later[1..]);
    }
  }
}
