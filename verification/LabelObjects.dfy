/** The objects behind a label-switched path: the label pool, the link list and
    the domain's controller. */
module LabelObjects {
  import opened Wrappers
  import opened LabelSwitching

  function AtLeastZero(n: int): nat { if n < 0 then 0 else n }

  class MplsLabelsPool {
    var labelsPool: seq<Label>

    constructor (labels: seq<Label>)
      ensures labelsPool == labels
    {
      labelsPool := labels;
    }

    /** getLabels: the first n, in order; it asserts that there are enough. */
    method GetLabels(n: int) returns (res: Option<seq<Label>>)
      modifies this
      ensures n > |old(labelsPool)| ==> res == None && labelsPool == old(labelsPool)
      ensures n <= |old(labelsPool)| ==>
                res == Some(old(labelsPool)[..AtLeastZero(n)]) && labelsPool == old(labelsPool)[AtLeastZero(n)..]
    {
      if |labelsPool| < n { return None; }
      var labels, todo, taken := [], n, 0;
      while todo > 0
        invariant 0 <= taken <= |old(labelsPool)| && (if n < 0 then taken == 0 && todo == n else todo >= 0 && taken + todo == n)
        invariant labels == old(labelsPool)[..taken] && labelsPool == old(labelsPool)[taken..]
      {
        labels := labels + [labelsPool[0]];
        labelsPool := labelsPool[1..];
        todo, taken := todo - 1, taken + 1;
      }
      assert taken == AtLeastZero(n);
      res := Some(labels);
    }

    /** recycleLabels. */
    method RecycleLabels(labels: seq<Label>)
      modifies this
      ensures labelsPool == old(labelsPool) + labels
    {
      for i := 0 to |labels|
        invariant labelsPool == old(labelsPool) + labels[..i]
      {
        labelsPool := labelsPool + [labels[i]];
      }
    }
  }

  class DomainTopo {
    var linkWithPort: seq<Link>

    constructor ()
      ensures linkWithPort == []
    {
      linkWithPort := [];
    }

    /** addEdge; false if its assertion fails. */
    method AddEdge(src: Switch, srcPort: PortNo, dst: Switch, dstPort: PortNo) returns (ok: bool)
      modifies this
      ensures ok <==> src != dst
      ensures var x := Link(src, srcPort, dst, dstPort);
              linkWithPort == old(linkWithPort) + (if !ok || x in old(linkWithPort) then [] else [x])
    {
      ok := src != dst;
      if !ok { return; }
      var x := Link(src, srcPort, dst, dstPort);
      if x !in linkWithPort { linkWithPort := linkWithPort + [x]; }
    }

    /** getLinkOutPort: the scan of the link list. */
    method LinkOutPort(a: Switch, b: Switch) returns (port: Option<PortNo>)
      ensures port == GetLinkOutPort(linkWithPort, a, b)
    {
      for i := 0 to |linkWithPort|
        invariant GetLinkOutPort(linkWithPort, a, b) == GetLinkOutPort(linkWithPort[i..], a, b)
      {
        assert linkWithPort[i..][1..] == linkWithPort[i + 1..];
        if linkWithPort[i].src == b && linkWithPort[i].dst == a { return Some(linkWithPort[i].dstPort); }
      }
      return None;
    }
  }

  /** A new link keeps ports leading to one switch exactly if its near port led
      nowhere else before. */
  lemma AddedLinkWired(links: seq<Link>, x: Link)
    requires Wired(links)
    ensures Wired(links + [x]) <==> FarEnd(links, x.dst, x.dstPort) == None || FarEnd(links, x.dst, x.dstPort) == Some(x.src)
  {
    forall y | y in links && y.dst == x.dst && y.dstPort == x.dstPort
      ensures FarEnd(links, x.dst, x.dstPort) == Some(y.src)
    {
      FarEndOf(links, y);
    }
    if FarEnd(links, x.dst, x.dstPort).Some? {
      FarEndFrom(links, x.dst, x.dstPort);
      var y :| y in links && y.dst == x.dst && y.dstPort == x.dstPort && FarEnd(links, x.dst, x.dstPort) == Some(y.src);
      assert y in links + [x] && x in links + [x];
    }
  }

  lemma {:induction false} FarEndFrom(links: seq<Link>, a: Switch, p: PortNo)
    requires FarEnd(links, a, p).Some?
    ensures exists y :: y in links && y.dst == a && y.dstPort == p && FarEnd(links, a, p) == Some(y.src)
    decreases |links|
  {
    if links[0].dst == a && links[0].dstPort == p {
      assert links[0] in links;
    } else {
      FarEndFrom(links[1..], a, p);
      var y :| y in links[1..] && y.dst == a && y.dstPort == p && FarEnd(links[1..], a, p) == Some(y.src);
      assert y in links;
    }
  }

  class DomainController {
    const pool: MplsLabelsPool
    const topo: DomainTopo
    var tables: Tables

    constructor (pool: MplsLabelsPool, topo: DomainTopo, switches: set<Switch>)
      ensures this.pool == pool && this.topo == topo && tables == map s | s in switches :: map[]
    {
      this.pool, this.topo := pool, topo;
      tables := map s | s in switches :: map[];
    }

    ghost function State(): Domain
      reads this, pool
    {
      Domain(tables, pool.labelsPool)
    }

    /** taskAssign: labels first, then the switches one by one; false when a
        handler raised, which leaves the earlier flows in place. */
    method TaskAssign(task: Task) returns (ok: bool)
      modifies this, pool
      ensures (State(), ok) == Assign(old(State()), topo.linkWithPort, task)
    {
      var taken := pool.GetLabels(task.pathLength - 1);
      if taken == None { return false; }
      ok := InstallPath(task, taken.value);
    }

    /** moredpid_handler's loop. */
    method InstallPath(task: Task, labels: seq<Label>) returns (ok: bool)
      modifies this`tables
      ensures (tables, ok) == Install(topo.linkWithPort, labels, task, old(tables), 0)
    {
      for i := 0 to |task.switches|
        invariant Install(topo.linkWithPort, labels, task, tables, i) == Install(topo.linkWithPort, labels, task, old(tables), 0)
      {
        hide RuleAt, IndexOf;
        var s := task.switches[i];
        var at := IndexOf(task.switches, s);
        var rule := MakeRule(task, labels, at);
        if rule == None || s !in tables { return false; }
        if Sent(task, at) { tables := tables[s := tables[s][rule.value.0 := rule.value.1]]; }
      }
      ok := true;
    }

    /** The first, middle, last and single switch handlers. */
    method MakeRule(task: Task, labels: seq<Label>, i: nat) returns (rule: Option<(Match, seq<Action>)>)
      requires i < |task.switches|
      ensures rule == RuleAt(topo.linkWithPort, labels, task, i)
    {
      var s, n := task.switches[i], |task.switches|;
      var port: Option<PortNo>;
      if i == n - 1 && task.post == 0 {
        port := Some(task.lastPort);
      } else {
        port := topo.LinkOutPort(s, if i == n - 1 then task.post else task.switches[i + 1]);
      }
      if port == None { return None; }
      if n == 1 { return Some((IpPair(task.src, task.dst), [Output(port.value)])); }
      if labels == [] { return None; }
      if i == 0 { return Some((IpPair(task.src, task.dst), [Push(labels[0]), Output(port.value)])); }
      if i == n - 1 { return Some((Mpls(labels[|labels| - 1]), [Pop, Output(port.value)])); }
      if i >= |labels| { return None; }
      rule := Some((Mpls(labels[i - 1]), [Pop, Push(labels[i]), Output(port.value)]));
    }
  }
}
