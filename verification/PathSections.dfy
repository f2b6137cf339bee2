/** app/net.py: a path through several domains is cut into one section per
    domain, and labels are dealt out to the sections. */
module PathSections {
  import opened Wrappers
  import opened LabelSwitching
  import opened LabelObjects

  type DomainId = nat
  type Domains = map<Switch, DomainId>

  /** `pre` and `post` are the neighbours outside the section, 0 at the ends. */
  datatype Section = Section(list: seq<Switch>, pre: Switch, post: Switch)

  predicate Known(path: seq<Switch>, dom: Domains) {
    forall s | s in path :: s in dom
  }

  /** The nodes of a domain, in path order. */
  function ListOf(path: seq<Switch>, dom: Domains, d: DomainId): seq<Switch>
    requires Known(path, dom)
    decreases |path|
  {
    if path == [] then []
    else (if dom[path[0]] == d then [path[0]] else []) + ListOf(path[1..], dom, d)
  }

  function DomainsOn(path: seq<Switch>, dom: Domains): set<DomainId>
    requires Known(path, dom)
  {
    set s | s in path :: dom[s]
  }

  function Before(path: seq<Switch>, s: Switch): Switch
    requires s in path
  {
    var i := IndexOf(path, s); if i == 0 then 0 else path[i - 1]
  }

  function Behind(path: seq<Switch>, s: Switch): Switch
    requires s in path
  {
    var i := IndexOf(path, s); if i == |path| - 1 then 0 else path[i + 1]
  }

  lemma {:induction false} ListHas(path: seq<Switch>, dom: Domains, d: DomainId, s: Switch)
    requires Known(path, dom)
    ensures s in ListOf(path, dom, d) <==> s in path && dom[s] == d
    decreases |path|
  {
    if path != [] {
      assert path == [path[0]] + path[1..];
      ListHas(path[1..], dom, d, s);
    }
  }

  lemma ListNotEmpty(path: seq<Switch>, dom: Domains, d: DomainId)
    requires Known(path, dom) && d in DomainsOn(path, dom)
    ensures ListOf(path, dom, d) != []
    ensures ListOf(path, dom, d)[0] in path && ListOf(path, dom, d)[|ListOf(path, dom, d)| - 1] in path
  {
    var s :| s in path && dom[s] == d;
    ListHas(path, dom, d, s);
    ListHas(path, dom, d, ListOf(path, dom, d)[0]);
    ListHas(path, dom, d, ListOf(path, dom, d)[|ListOf(path, dom, d)| - 1]);
  }

  function SectionOf(path: seq<Switch>, dom: Domains, d: DomainId): Section
    requires Known(path, dom) && d in DomainsOn(path, dom)
  {
    var list := ListOf(path, dom, d);
    ListNotEmpty(path, dom, d);
    Section(list, Before(path, list[0]), Behind(path, list[|list| - 1]))
  }

  function Cut(path: seq<Switch>, dom: Domains): map<DomainId, Section>
    requires Known(path, dom)
  {
    map d | d in DomainsOn(path, dom) :: SectionOf(path, dom, d)
  }

  // ------------------------------------------------------------ putting back

  /** The sections from domain `d` on, by their links to the next. */
  function Rejoin(sections: map<DomainId, Section>, dom: Domains, d: DomainId, fuel: nat): Option<seq<Switch>>
    decreases fuel
  {
    if d !in sections || fuel == 0 then None
    else
      var section := sections[d];
      if section.post == 0 then Some(section.list)
      else if section.post !in dom then None
      else match Rejoin(sections, dom, dom[section.post], fuel - 1)
           case None => None
           case Some(rest) => Some(section.list + rest)
  }

  /** Each domain is one stretch of the path. */
  ghost predicate Contiguous(path: seq<Switch>, dom: Domains)
    requires Known(path, dom)
  {
    forall i, j, k :: SameBetween(path, dom, i, j, k)
  }

  predicate SameBetween(path: seq<Switch>, dom: Domains, i: int, j: int, k: int)
    requires Known(path, dom)
  {
    0 <= i < j < k < |path| && dom[path[i]] == dom[path[k]] ==> dom[path[j]] == dom[path[i]]
  }

  lemma {:induction false} ListSplit(a: seq<Switch>, b: seq<Switch>, dom: Domains, d: DomainId)
    requires Known(a + b, dom)
    ensures Known(a, dom) && Known(b, dom)
    ensures ListOf(a + b, dom, d) == ListOf(a, dom, d) + ListOf(b, dom, d)
    decreases |a|
  {
    assert forall s | s in a :: s in a + b;
    assert forall s | s in b :: s in a + b;
    if a == [] {
      assert a + b == b;
    } else {
      assert (a + b)[1..] == a[1..] + b;
      ListSplit(a[1..], b, dom, d);
    }
  }

  lemma {:induction false} ListAll(path: seq<Switch>, dom: Domains, d: DomainId)
    requires Known(path, dom)
    ensures (forall s | s in path :: dom[s] == d) ==> ListOf(path, dom, d) == path
    ensures (forall s | s in path :: dom[s] != d) ==> ListOf(path, dom, d) == []
    decreases |path|
  {
    if path != [] {
      assert path == [path[0]] + path[1..];
      ListAll(path[1..], dom, d);
    }
  }

  lemma IndexIs(path: seq<Switch>, i: nat)
    requires i < |path| && Distinct(path)
    ensures IndexOf(path, path[i]) == i
  {
  }

  /** Where the stretch that starts at `i` ends. */
  function StretchEnd(path: seq<Switch>, dom: Domains, i: nat): (j: nat)
    requires Known(path, dom) && i < |path|
    ensures i < j <= |path|
    ensures forall k | i <= k < j :: dom[path[k]] == dom[path[i]]
    ensures j < |path| ==> dom[path[j]] != dom[path[i]]
    decreases |path| - i
  {
    if i + 1 < |path| && dom[path[i + 1]] == dom[path[i]] then StretchEnd(path, dom, i + 1) else i + 1
  }

  lemma BeforeStretch(path: seq<Switch>, dom: Domains, i: nat, k: nat)
    requires Known(path, dom) && Contiguous(path, dom) && k < i < |path| && dom[path[i - 1]] != dom[path[i]]
    ensures dom[path[k]] != dom[path[i]]
  {
    assert SameBetween(path, dom, k, i - 1, i);
  }

  lemma BehindStretch(path: seq<Switch>, dom: Domains, i: nat, k: nat)
    requires Known(path, dom) && Contiguous(path, dom) && i < |path| && StretchEnd(path, dom, i) <= k < |path|
    ensures dom[path[k]] != dom[path[i]]
  {
    assert SameBetween(path, dom, i, StretchEnd(path, dom, i), k);
  }

  lemma ListOfThree(a: seq<Switch>, b: seq<Switch>, c: seq<Switch>, dom: Domains, d: DomainId)
    requires Known(a + (b + c), dom)
    requires (forall s | s in a :: dom[s] != d) && (forall s | s in b :: dom[s] == d) && forall s | s in c :: dom[s] != d
    ensures ListOf(a + (b + c), dom, d) == b
  {
    ListSplit(a, b + c, dom, d);
    ListSplit(b, c, dom, d);
    ListAll(a, dom, d);
    ListAll(b, dom, d);
    ListAll(c, dom, d);
    assert [] + (b + []) == b;
  }

  /** In a contiguous path the list of a domain is its stretch. */
  lemma StretchIsList(path: seq<Switch>, dom: Domains, i: nat)
    requires Known(path, dom) && Contiguous(path, dom) && i < |path|
    requires i == 0 || dom[path[i - 1]] != dom[path[i]]
    ensures ListOf(path, dom, dom[path[i]]) == path[i..StretchEnd(path, dom, i)]
  {
    hide Contiguous, ListOf;
    var d, j := dom[path[i]], StretchEnd(path, dom, i);
    var a, b, c := path[..i], path[i..j], path[j..];
    forall s | s in a ensures dom[s] != d {
      var k :| 0 <= k < i && a[k] == s;
      BeforeStretch(path, dom, i, k);
    }
    forall s | s in b ensures dom[s] == d {
      var k :| 0 <= k < j - i && b[k] == s;
      assert path[i + k] == s;
    }
    forall s | s in c ensures dom[s] != d {
      var k :| 0 <= k < |path| - j && c[k] == s;
      BehindStretch(path, dom, i, j + k);
    }
    assert path == a + (b + c);
    ListOfThree(a, b, c, dom, d);
  }

  /** So its section is that stretch, and its link leads to the node behind. */
  lemma SectionAt(path: seq<Switch>, dom: Domains, i: nat)
    requires Known(path, dom) && Distinct(path) && Contiguous(path, dom) && i < |path|
    requires i == 0 || dom[path[i - 1]] != dom[path[i]]
    ensures var d, j := dom[path[i]], StretchEnd(path, dom, i);
            && d in Cut(path, dom) && Cut(path, dom)[d].list == path[i..j]
            && Cut(path, dom)[d].post == (if j < |path| then path[j] else 0)
            && Cut(path, dom)[d].pre == if i > 0 then path[i - 1] else 0
  {
    hide Contiguous, ListOf, Before, Distinct, Behind, Cut;
    var d, j := dom[path[i]], StretchEnd(path, dom, i);
    StretchIsList(path, dom, i);
    assert path[i] in path && d in DomainsOn(path, dom);
    CutAt(path, dom, d);
    assert path[i..j][j - i - 1] == path[j - 1] && path[i..j][0] == path[i];
    BehindIs(path, j - 1);
    BeforeIs(path, i);
  }

  lemma CutAt(path: seq<Switch>, dom: Domains, d: DomainId)
    requires Known(path, dom) && d in DomainsOn(path, dom)
    ensures d in Cut(path, dom) && Cut(path, dom)[d].list == ListOf(path, dom, d) != []
    ensures var list := ListOf(path, dom, d);
            && list[|list| - 1] in path && Cut(path, dom)[d].post == Behind(path, list[|list| - 1])
            && list[0] in path && Cut(path, dom)[d].pre == Before(path, list[0])
  {
    hide ListOf, Before, Behind;
    ListNotEmpty(path, dom, d);
  }

  lemma BehindIs(path: seq<Switch>, i: nat)
    requires i < |path| && Distinct(path)
    ensures path[i] in path && Behind(path, path[i]) == if i + 1 < |path| then path[i + 1] else 0
  {
    IndexIs(path, i);
  }

  lemma BeforeIs(path: seq<Switch>, i: nat)
    requires i < |path| && Distinct(path)
    ensures path[i] in path && Before(path, path[i]) == if i > 0 then path[i - 1] else 0
  {
    IndexIs(path, i);
  }

  /** Where a domain's stretch begins. */
  lemma {:induction false} StretchStart(path: seq<Switch>, dom: Domains, k: nat) returns (i: nat)
    requires Known(path, dom) && k < |path|
    ensures i <= k && dom[path[i]] == dom[path[k]] && (i == 0 || dom[path[i - 1]] != dom[path[i]])
    decreases k
  {
    i := k;
    if k > 0 && dom[path[k - 1]] == dom[path[k]] { i := StretchStart(path, dom, k - 1); }
  }

  lemma DomainStart(path: seq<Switch>, dom: Domains, d: DomainId) returns (i: nat)
    requires Known(path, dom) && d in DomainsOn(path, dom)
    ensures i < |path| && dom[path[i]] == d && (i == 0 || dom[path[i - 1]] != d)
  {
    var s :| s in path && dom[s] == d;
    var k :| 0 <= k < |path| && path[k] == s;
    i := StretchStart(path, dom, k);
  }

  /** The links agree: one section leads to the first node of another exactly if
      that one comes from the first's last node. */
  lemma LinksAreMutual(path: seq<Switch>, dom: Domains, d: DomainId, e: DomainId)
    requires Known(path, dom) && Distinct(path) && Contiguous(path, dom) && 0 !in path
    requires d in Cut(path, dom) && e in Cut(path, dom)
    ensures Cut(path, dom)[d].list != [] && Cut(path, dom)[e].list != []
    ensures var a, b := Cut(path, dom)[d], Cut(path, dom)[e]; a.post == b.list[0] <==> b.pre == a.list[|a.list| - 1]
  {
    hide Contiguous, Cut;
    CutDomains(path, dom);
    var i := DomainStart(path, dom, d);
    var h := DomainStart(path, dom, e);
    var j := StretchEnd(path, dom, i);
    SectionAt(path, dom, i);
    SectionAt(path, dom, h);
    assert path[h] in path && path[j - 1] in path && path[i..j][j - i - 1] == path[j - 1];
  }

  lemma CutDomains(path: seq<Switch>, dom: Domains)
    requires Known(path, dom)
    ensures Cut(path, dom).Keys == DomainsOn(path, dom)
  {
    hide ListOf;
  }

  lemma {:induction false} RejoinStretches(path: seq<Switch>, dom: Domains, i: nat, fuel: nat)
    requires Known(path, dom) && Distinct(path) && Contiguous(path, dom) && i < |path| && 0 !in path
    requires i == 0 || dom[path[i - 1]] != dom[path[i]]
    requires fuel >= |path| - i
    ensures Rejoin(Cut(path, dom), dom, dom[path[i]], fuel) == Some(path[i..])
    decreases |path| - i
  {
    hide Contiguous, Cut, Distinct;
    var j := StretchEnd(path, dom, i);
    SectionAt(path, dom, i);
    if j < |path| {
      assert path[j] in path;
      LastOfStretch(path, dom, i);
      RejoinStretches(path, dom, j, fuel - 1);
      assert path[i..j] + path[j..] == path[i..];
    } else {
      assert path[i..j] == path[i..];
    }
  }

  lemma LastOfStretch(path: seq<Switch>, dom: Domains, i: nat)
    requires Known(path, dom) && i < |path| && StretchEnd(path, dom, i) < |path|
    ensures var j := StretchEnd(path, dom, i); dom[path[j - 1]] != dom[path[j]]
  {
  }

  /** A section's list runs over all positions of its domain, so whatever the
      links rebuild is in whole domains. */
  lemma {:induction false} RejoinIsWhole(path: seq<Switch>, dom: Domains, d: DomainId, fuel: nat, out: seq<Switch>)
    requires Known(path, dom)
    requires Rejoin(Cut(path, dom), dom, d, fuel) == Some(out) && Distinct(out) && Known(out, dom)
    ensures Contiguous(out, dom)
    decreases fuel
  {
    hide Contiguous, Cut, Distinct, Known;
    var section := Cut(path, dom)[d];
    SectionListIs(path, dom, d);
    if section.post == 0 {
      ListContiguous(out, dom, d);
    } else {
      var rest := Rejoin(Cut(path, dom), dom, dom[section.post], fuel - 1).value;
      TailDistinct(section.list, rest);
      RejoinFromPath(path, dom, dom[section.post], fuel - 1, rest);
      PartKnown(section.list, rest, dom);
      RejoinIsWhole(path, dom, dom[section.post], fuel - 1, rest);
      forall s | s in rest ensures dom[s] != d { NotTwice(path, dom, d, section.list, rest, s); }
      JoinContiguous(section.list, rest, dom, d);
    }
  }

  lemma SectionListIs(path: seq<Switch>, dom: Domains, d: DomainId)
    requires Known(path, dom) && d in Cut(path, dom)
    ensures Cut(path, dom)[d].list == ListOf(path, dom, d)
    ensures forall s | s in Cut(path, dom)[d].list :: s in path && s in dom && dom[s] == d
  {
    forall s | s in ListOf(path, dom, d) ensures s in path && dom[s] == d { ListHas(path, dom, d, s); }
  }

  lemma PartKnown(a: seq<Switch>, b: seq<Switch>, dom: Domains)
    requires Known(a + b, dom)
    ensures Known(a, dom) && Known(b, dom)
  {
    assert forall s | s in a :: s in a + b;
    assert forall s | s in b :: s in a + b;
  }

  lemma NotTwice(path: seq<Switch>, dom: Domains, d: DomainId, list: seq<Switch>, rest: seq<Switch>, s: Switch)
    requires Known(path, dom) && list == ListOf(path, dom, d) && s in rest && s in path && Distinct(list + rest)
    ensures dom[s] != d
  {
    ListHas(path, dom, d, s);
    var k :| 0 <= k < |rest| && rest[k] == s;
    forall i | 0 <= i < |list| ensures list[i] != s {
      assert (list + rest)[i] == list[i] && (list + rest)[|list| + k] == s;
    }
  }

  lemma ListContiguous(out: seq<Switch>, dom: Domains, d: DomainId)
    requires Known(out, dom) && forall s | s in out :: dom[s] == d
    ensures Contiguous(out, dom)
  {
  }

  lemma TailDistinct(a: seq<Switch>, b: seq<Switch>)
    requires Distinct(a + b)
    ensures Distinct(b)
  {
    forall i, j | 0 <= i < j < |b| ensures b[i] != b[j] {
      assert (a + b)[|a| + i] == b[i] && (a + b)[|a| + j] == b[j];
    }
  }

  lemma {:induction false} RejoinFromPath(path: seq<Switch>, dom: Domains, d: DomainId, fuel: nat, out: seq<Switch>)
    requires Known(path, dom) && Rejoin(Cut(path, dom), dom, d, fuel) == Some(out)
    ensures forall s | s in out :: s in path
    decreases fuel
  {
    hide Cut, Known;
    var section := Cut(path, dom)[d];
    SectionListIs(path, dom, d);
    if section.post != 0 {
      RejoinFromPath(path, dom, dom[section.post], fuel - 1, Rejoin(Cut(path, dom), dom, dom[section.post], fuel - 1).value);
    }
  }

  lemma JoinContiguous(a: seq<Switch>, b: seq<Switch>, dom: Domains, d: DomainId)
    requires Known(a + b, dom) && Known(b, dom) && Contiguous(b, dom)
    requires (forall s | s in a :: dom[s] == d) && forall s | s in b :: dom[s] != d
    ensures Contiguous(a + b, dom)
  {
    var out := a + b;
    forall x | 0 <= x < |out| ensures (dom[out[x]] == d <==> x < |a|) && (x >= |a| ==> out[x] == b[x - |a|]) {
      if x < |a| { assert out[x] in a; } else { assert out[x] in b; }
    }
    forall i, j, k ensures SameBetween(out, dom, i, j, k) {
      assert SameBetween(b, dom, i - |a|, j - |a|, k - |a|);
    }
  }

  /** Following the links from the first section rebuilds the path exactly when
      every domain is one stretch of it. */
  lemma RejoinExactly(path: seq<Switch>, dom: Domains)
    requires Known(path, dom) && Distinct(path) && path != [] && 0 !in path
    ensures Rejoin(Cut(path, dom), dom, dom[path[0]], |path|) == Some(path) <==> Contiguous(path, dom)
  {
    if Contiguous(path, dom) {
      RejoinStretches(path, dom, 0, |path|);
      assert path[0..] == path;
    }
    if Rejoin(Cut(path, dom), dom, dom[path[0]], |path|) == Some(path) {
      RejoinIsWhole(path, dom, dom[path[0]], |path|, path);
    }
  }

  /** The sections partition the path: every node is in the one of its domain,
      once. */
  lemma {:induction false} SectionsPartition(path: seq<Switch>, dom: Domains, s: Switch, d: DomainId)
    requires Known(path, dom)
    ensures multiset(ListOf(path, dom, d))[s] == if s in dom && dom[s] == d then multiset(path)[s] else 0
    decreases |path|
  {
    if path != [] {
      assert path == [path[0]] + path[1..];
      SectionsPartition(path[1..], dom, s, d);
    }
  }

  // ------------------------------------------------------------------ labels

  /** How many labels the listed domains take: one fewer than each has nodes. */
  function Wanted(sections: map<DomainId, Section>, order: seq<DomainId>): int
    requires forall d | d in order :: d in sections
    decreases |order|
  {
    if order == [] then 0 else |sections[order[0]].list| - 1 + Wanted(sections, order[1..])
  }

  function Dealt(mpls: map<DomainId, seq<Label>>, order: seq<DomainId>): seq<Label>
    requires forall d | d in order :: d in mpls
    decreases |order|
  {
    if order == [] then [] else mpls[order[0]] + Dealt(mpls, order[1..])
  }

  function Nodes(path: seq<Switch>, dom: Domains, order: seq<DomainId>): int
    requires Known(path, dom)
    decreases |order|
  {
    if order == [] then 0 else |ListOf(path, dom, order[0])| + Nodes(path, dom, order[1..])
  }

  lemma {:induction false} NodesCount(path: seq<Switch>, dom: Domains, order: seq<DomainId>)
    requires Known(path, dom) && Distinct(order) && forall d | d in DomainsOn(path, dom) :: d in order
    ensures Nodes(path, dom, order) == |path|
    decreases |path|
  {
    if path == [] {
      NoNodes(dom, order);
    } else {
      assert path == [path[0]] + path[1..];
      assert forall d | d in DomainsOn(path[1..], dom) :: d in DomainsOn(path, dom);
      NodesCount(path[1..], dom, order);
      assert dom[path[0]] in DomainsOn(path, dom);
      OneNodeMore(path, dom, order);
    }
  }

  lemma {:induction false} NoNodes(dom: Domains, order: seq<DomainId>)
    ensures Nodes([], dom, order) == 0
    decreases |order|
  {
    if order != [] { NoNodes(dom, order[1..]); }
  }

  lemma {:induction false} OneNodeMore(path: seq<Switch>, dom: Domains, order: seq<DomainId>)
    requires Known(path, dom) && path != [] && Distinct(order)
    ensures Nodes(path, dom, order) == Nodes(path[1..], dom, order) + if dom[path[0]] in order then 1 else 0
    decreases |order|
  {
    if order != [] {
      assert order == [order[0]] + order[1..];
      TailDistinct2(order);
      OneNodeMore(path, dom, order[1..]);
    }
  }

  lemma TailDistinct2(s: seq<DomainId>)
    requires s != [] && Distinct(s)
    ensures Distinct(s[1..]) && s[0] !in s[1..]
  {
    forall i, j | 0 <= i < j < |s[1..]| ensures s[1..][i] != s[1..][j] { assert s[i + 1] != s[j + 1]; }
  }

  lemma {:induction false} WantedIs(path: seq<Switch>, dom: Domains, order: seq<DomainId>)
    requires Known(path, dom) && forall d | d in order :: d in DomainsOn(path, dom)
    ensures Wanted(Cut(path, dom), order) == Nodes(path, dom, order) - |order|
    decreases |order|
  {
    if order != [] { WantedIs(path, dom, order[1..]); }
  }

  /** All sections together take as many labels as the path has nodes, less one
      for each domain. */
  lemma LabelsNeeded(path: seq<Switch>, dom: Domains, order: seq<DomainId>)
    requires Known(path, dom) && Distinct(order) && forall d :: d in order <==> d in DomainsOn(path, dom)
    ensures Wanted(Cut(path, dom), order) == |path| - |order| && |order| == |DomainsOn(path, dom)|
  {
    WantedIs(path, dom, order);
    NodesCount(path, dom, order);
    DistinctSize(order, DomainsOn(path, dom));
  }

  lemma {:induction false} DistinctSize(order: seq<DomainId>, ds: set<DomainId>)
    requires Distinct(order) && forall d :: d in order <==> d in ds
    ensures |order| == |ds|
    decreases |order|
  {
    if order == [] {
      assert ds == {};
    } else {
      TailDistinct2(order);
      assert order == [order[0]] + order[1..];
      DistinctSize(order[1..], ds - {order[0]});
    }
  }

  // ------------------------------------------------------------------- object

  /** One path of a task; the source has the same code twice, for the main and
      for the backup path. */
  class TaskPath {
    var completePath: seq<Switch>
    var pathSect: map<DomainId, Section>
    var mpls: map<DomainId, seq<Label>>

    constructor (path: seq<Switch>)
      ensures completePath == path && pathSect == map[] && mpls == map[]
    {
      completePath, pathSect, mpls := path, map[], map[];
    }

    /** getMainSectorialPath: false if one of its assertions fails, a node of no
        domain or a node met twice. */
    method GetSectorialPath(dom: Domains) returns (ok: bool)
      modifies this`pathSect
      ensures ok <==> Known(completePath, dom) && Distinct(completePath)
      ensures ok ==> pathSect == Cut(completePath, dom)
    {
      hide ListsAre, Distinct, Cut;
      var lists: map<DomainId, seq<Switch>> := map[];
      NoLists(dom);
      for i := 0 to |completePath|
        invariant Known(completePath[..i], dom) && Distinct(completePath[..i])
        invariant ListsAre(lists, completePath[..i], dom)
      {
        var node := completePath[i];
        assert completePath[..i + 1] == completePath[..i] + [node];
        if node !in dom {
          UnknownNode(completePath, dom, i);
          return false;
        }
        KnownSoFar(completePath, dom, i);
        var list := if dom[node] in lists then lists[dom[node]] else [];
        OneListMore(lists, completePath[..i], dom, node);
        if node in list {
          RepeatedNode(completePath, dom, i);
          return false;
        }
        NewNode(completePath, dom, i);
        lists := lists[dom[node] := list + [node]];
      }
      assert completePath[..|completePath|] == completePath;
      pathSect := LinkLists(lists, dom);
      ok := true;
    }

    /** The second loop: each section's neighbours. */
    method LinkLists(lists: map<DomainId, seq<Switch>>, ghost dom: Domains) returns (sections: map<DomainId, Section>)
      requires Known(completePath, dom) && ListsAre(lists, completePath, dom)
      ensures sections == Cut(completePath, dom)
    {
      hide Cut, SectionOf;
      var todo := lists.Keys;
      sections := map[];
      while todo != {}
        invariant todo <= lists.Keys == DomainsOn(completePath, dom) && sections.Keys == lists.Keys - todo
        invariant forall d | d in sections :: sections[d] == SectionOf(completePath, dom, d)
        decreases todo
      {
        var d :| d in todo;
        todo := todo - {d};
        ListNotEmpty(completePath, dom, d);
        assert lists[d] == ListOf(completePath, dom, d);
        var section := SectionFor(lists[d]);
        SectionIs(completePath, dom, d, section);
        sections := sections[d := section];
      }
      AllSections(completePath, dom, sections);
    }

    /** A section's neighbours, looked up by index. */
    method SectionFor(list: seq<Switch>) returns (section: Section)
      requires list != [] && list[0] in completePath && list[|list| - 1] in completePath
      ensures section == Section(list, Before(completePath, list[0]), Behind(completePath, list[|list| - 1]))
    {
      var firstIndex, lastIndex := IndexOf(completePath, list[0]), IndexOf(completePath, list[|list| - 1]);
      var pre := if firstIndex == 0 then 0 else completePath[firstIndex - 1];
      var post := if lastIndex == |completePath| - 1 then 0 else completePath[lastIndex + 1];
      section := Section(list, pre, post);
    }

    /** The inner loop: `n` labels from the front, or None where they run out. */
    static method TakeLabels(temp: seq<Label>, n: nat) returns (taken: Option<(seq<Label>, seq<Label>)>)
      ensures taken == if |temp| < n then None else Some((temp[..n], temp[n..]))
    {
      var mine, rest := [], temp;
      for k := 0 to n
        invariant k <= |temp| && mine == temp[..k] && rest == temp[k..]
      {
        if rest == [] { return None; }
        mine, rest := mine + [rest[0]], rest[1..];
      }
      taken := Some((mine, rest));
    }

    /** assignMainPathMpls, visiting the sections in the dictionary's order; it
        returns the labels left over, or None where it runs out of labels. */
    method AssignPathMpls(labels: seq<Label>, order: seq<DomainId>) returns (left: Option<seq<Label>>)
      requires Distinct(order) && forall d :: d in order <==> d in pathSect
      requires forall d | d in pathSect :: pathSect[d].list != []
      modifies this`mpls
      ensures left == None <==> |labels| < Wanted(pathSect, order)
      ensures left.Some? ==>
                && mpls.Keys == pathSect.Keys
                && (forall d | d in pathSect :: |mpls[d]| == |pathSect[d].list| - 1)
                && labels == Dealt(mpls, order) + left.value
    {
      hide Distinct, Dealt, Wanted;
      var temp := labels;
      mpls := map[];
      NothingDealt(pathSect);
      for i := 0 to |order|
        invariant forall d :: d in mpls <==> d in order[..i]
        invariant forall d | d in mpls :: |mpls[d]| == |pathSect[d].list| - 1
        invariant labels == Dealt(mpls, order[..i]) + temp
        invariant |labels| - |temp| == Wanted(pathSect, order[..i])
      {
        var d := order[i];
        var taken := TakeLabels(temp, |pathSect[d].list| - 1);
        if taken == None {
          TooFew(pathSect, order, i, |labels|, |temp|);
          return None;
        }
        var (mine, rest) := taken.value;
        assert order[..i + 1] == order[..i] + [d];
        NotYet(order, i);
        DealtMore(mpls, order[..i], d, mine);
        WantedMore(pathSect, order[..i], d);
        temp, mpls := rest, mpls[d := mine];
      }
      assert order[..|order|] == order;
      left := Some(temp);
    }
  }

  /** Whatever is dealt and what is left go back to make up the pool: nothing is
      lost, and no label of a repeat-free pool is dealt twice or stays in it. */
  lemma PoolIsShared(was: seq<Label>, n: nat, dealt: seq<Label>, left: seq<Label>)
    requires n <= |was| && was[..n] == dealt + left
    ensures var pool := was[n..] + left;
            && multiset(dealt) + multiset(pool) == multiset(was)
            && (Distinct(was) ==> Distinct(dealt + pool))
  {
    var pool := was[n..] + left;
    assert was == was[..n] + was[n..];
    assert multiset(was) == multiset(dealt) + multiset(left) + multiset(was[n..]);
    assert multiset(dealt + pool) == multiset(dealt) + multiset(pool);
    assert multiset(dealt + pool) == multiset(was);
    if Distinct(was) {
      CountedOnce(was);
      OnceIsDistinct(dealt + pool);
    }
  }

  lemma {:induction false} CountedOnce(s: seq<Label>)
    requires Distinct(s)
    ensures forall x :: multiset(s)[x] <= 1
    decreases |s|
  {
    if s != [] {
      var rest := s[1..];
      assert s == [s[0]] + rest;
      TailDistinctLabels(s);
      CountedOnce(rest);
      assert s[0] !in multiset(rest);
    }
  }

  lemma TailDistinctLabels(s: seq<Label>)
    requires s != [] && Distinct(s)
    ensures Distinct(s[1..]) && s[0] !in s[1..]
  {
    var rest := s[1..];
    forall i, j | 0 <= i < j < |rest| ensures rest[i] != rest[j] { assert s[i + 1] != s[j + 1]; }
    forall i | 0 <= i < |rest| ensures rest[i] != s[0] { assert s[i + 1] != s[0]; }
  }

  lemma OnceIsDistinct(s: seq<Label>)
    requires forall x :: multiset(s)[x] <= 1
    ensures Distinct(s)
  {
    forall i, j | 0 <= i < j < |s| ensures s[i] != s[j] {
      var a, b := s[..j], s[j..];
      assert s == a + b && a[i] == s[i] && b[0] == s[j];
      assert multiset(s)[s[i]] == multiset(a)[s[i]] + multiset(b)[s[i]];
      assert multiset(a)[s[i]] >= 1 by { assert s[i] in a; }
      assert multiset(b)[s[j]] >= 1 by { assert s[j] in b; }
    }
  }

  /** super_controller's part: take labels for the whole path, deal, and give the
      rest back.  What is dealt and what is in the pool are the old pool. */
  method TakeAndDeal(pool: MplsLabelsPool, t: TaskPath, dom: Domains, order: seq<DomainId>) returns (ok: bool)
    requires Known(t.completePath, dom) && t.pathSect == Cut(t.completePath, dom)
    requires Distinct(order) && forall d :: d in order <==> d in DomainsOn(t.completePath, dom)
    modifies pool, t`mpls
    ensures ok <==> |t.completePath| <= |old(pool.labelsPool)|
    ensures ok ==> && t.mpls.Keys == t.pathSect.Keys
                   && (forall d | d in t.pathSect :: |t.mpls[d]| == |t.pathSect[d].list| - 1)
                   && |Dealt(t.mpls, order)| == |t.completePath| - |DomainsOn(t.completePath, dom)|
                   && multiset(Dealt(t.mpls, order)) + multiset(pool.labelsPool) == multiset(old(pool.labelsPool))
                   && (Distinct(old(pool.labelsPool)) ==> Distinct(Dealt(t.mpls, order) + pool.labelsPool))
    ensures !ok ==> pool.labelsPool == old(pool.labelsPool) && t.mpls == old(t.mpls)
  {
    hide Distinct, Cut, Known, Dealt, DomainsOn, Wanted;
    ghost var was, n := pool.labelsPool, |t.completePath|;
    var labels := pool.GetLabels(|t.completePath|);
    if labels == None { return false; }
    SectionsReady(t.completePath, dom, order);
    var left := t.AssignPathMpls(labels.value, order);
    pool.RecycleLabels(left.value);
    PoolIsShared(was, n, Dealt(t.mpls, order), left.value);
    DealtSize(t.pathSect, t.mpls, order);
    ok := true;
  }

  /** What dealing needs of a path that is cut: the order names its domains, none
      of them is empty, and there are labels enough. */
  lemma SectionsReady(path: seq<Switch>, dom: Domains, order: seq<DomainId>)
    requires Known(path, dom) && Distinct(order) && forall d :: d in order <==> d in DomainsOn(path, dom)
    ensures var sections := Cut(path, dom);
            && (forall d :: d in order <==> d in sections)
            && (forall d | d in sections :: sections[d].list != [])
            && Wanted(sections, order) == |path| - |DomainsOn(path, dom)| && Wanted(sections, order) <= |path|
  {
    hide ListOf;
    LabelsNeeded(path, dom, order);
    forall d | d in Cut(path, dom) ensures Cut(path, dom)[d].list != [] { ListNotEmpty(path, dom, d); }
  }

  // ------------------------------------------------------ what the loops keep

  ghost predicate ListsAre(lists: map<DomainId, seq<Switch>>, path: seq<Switch>, dom: Domains)
    requires Known(path, dom)
  {
    lists == map d | d in DomainsOn(path, dom) :: ListOf(path, dom, d)
  }

  lemma NoLists(dom: Domains)
    ensures Known([], dom) && Distinct<Switch>([]) && ListsAre(map[], [], dom)
  {
  }

  lemma UnknownNode(path: seq<Switch>, dom: Domains, i: nat)
    requires i < |path| && path[i] !in dom
    ensures !Known(path, dom)
  {
    assert path[i] in path;
  }

  lemma KnownSoFar(path: seq<Switch>, dom: Domains, i: nat)
    requires i < |path| && path[i] in dom && Known(path[..i], dom)
    ensures Known(path[..i + 1], dom)
  {
    assert path[..i + 1] == path[..i] + [path[i]];
  }

  lemma SectionIs(path: seq<Switch>, dom: Domains, d: DomainId, section: Section)
    requires Known(path, dom) && d in DomainsOn(path, dom)
    requires var list := ListOf(path, dom, d);
             list != [] && list[0] in path && list[|list| - 1] in path
             && section == Section(list, Before(path, list[0]), Behind(path, list[|list| - 1]))
    ensures section == SectionOf(path, dom, d)
  {
    hide ListOf, Before, Behind;
  }

  lemma AllSections(path: seq<Switch>, dom: Domains, sections: map<DomainId, Section>)
    requires Known(path, dom) && sections.Keys == DomainsOn(path, dom)
    requires forall d | d in sections :: sections[d] == SectionOf(path, dom, d)
    ensures sections == Cut(path, dom)
  {
    hide SectionOf;
  }

  lemma OneListMore(lists: map<DomainId, seq<Switch>>, path: seq<Switch>, dom: Domains, node: Switch)
    requires Known(path, dom) && node in dom && ListsAre(lists, path, dom)
    ensures var list := if dom[node] in lists then lists[dom[node]] else [];
            && list == ListOf(path, dom, dom[node])
            && ListsAre(lists[dom[node] := list + [node]], path + [node], dom)
  {
    hide ListOf, DomainsOn;
    var d0 := dom[node];
    if d0 !in lists { EmptyList(path, dom, d0); }
    forall d ensures ListOf(path + [node], dom, d) == ListOf(path, dom, d) + if d == d0 then [node] else [] {
      ListWithOne(path, dom, node, d);
    }
    DomainsWithOne(path, dom, node);
    var lists' := lists[d0 := ListOf(path, dom, d0) + [node]];
    assert lists'.Keys == DomainsOn(path + [node], dom);
    assert forall d | d in lists' :: lists'[d] == ListOf(path + [node], dom, d);
  }

  lemma EmptyList(path: seq<Switch>, dom: Domains, d: DomainId)
    requires Known(path, dom) && d !in DomainsOn(path, dom)
    ensures ListOf(path, dom, d) == []
  {
    ListAll(path, dom, d);
  }

  lemma ListWithOne(path: seq<Switch>, dom: Domains, node: Switch, d: DomainId)
    requires Known(path, dom) && node in dom
    ensures Known(path + [node], dom)
    ensures ListOf(path + [node], dom, d) == ListOf(path, dom, d) + if d == dom[node] then [node] else []
  {
    ListSplit(path, [node], dom, d);
    ListAll([node], dom, d);
  }

  lemma DomainsWithOne(path: seq<Switch>, dom: Domains, node: Switch)
    requires Known(path, dom) && node in dom
    ensures Known(path + [node], dom) && DomainsOn(path + [node], dom) == DomainsOn(path, dom) + {dom[node]}
  {
    forall d ensures d in DomainsOn(path + [node], dom) <==> d in DomainsOn(path, dom) || d == dom[node] {
      if d in DomainsOn(path, dom) {
        var s :| s in path && dom[s] == d;
        assert s in path + [node];
      }
      assert node in path + [node];
    }
  }

  lemma RepeatedNode(path: seq<Switch>, dom: Domains, i: nat)
    requires i < |path| && Known(path[..i], dom) && path[i] in dom && path[i] in ListOf(path[..i], dom, dom[path[i]])
    ensures !Distinct(path)
  {
    ListHas(path[..i], dom, dom[path[i]], path[i]);
    var k :| 0 <= k < i && path[..i][k] == path[i];
    assert path[k] == path[i];
  }

  lemma NewNode(path: seq<Switch>, dom: Domains, i: nat)
    requires i < |path| && Known(path[..i], dom) && path[i] in dom && path[i] !in ListOf(path[..i], dom, dom[path[i]])
    requires Distinct(path[..i])
    ensures Distinct(path[..i + 1]) && Known(path[..i + 1], dom)
  {
    ListHas(path[..i], dom, dom[path[i]], path[i]);
    assert path[..i + 1] == path[..i] + [path[i]];
    var longer := path[..i + 1];
    forall a, b | 0 <= a < b < |longer| ensures longer[a] != longer[b] {
      if b < i { assert path[..i][a] != path[..i][b]; } else { assert path[..i][a] in path[..i]; }
    }
  }

  lemma {:induction false} WantedMore(sections: map<DomainId, Section>, order: seq<DomainId>, d: DomainId)
    requires d in sections && forall x | x in order :: x in sections
    ensures Wanted(sections, order + [d]) == Wanted(sections, order) + |sections[d].list| - 1
    decreases |order|
  {
    if order == [] {
      assert [] + [d] == [d] && [d][1..] == [];
    } else {
      assert (order + [d])[1..] == order[1..] + [d];
      WantedMore(sections, order[1..], d);
    }
  }

  lemma NothingDealt(sections: map<DomainId, Section>)
    ensures Dealt(map[], []) == [] && Wanted(sections, []) == 0
  {
  }

  lemma {:induction false} DealtMore(mpls: map<DomainId, seq<Label>>, order: seq<DomainId>, d: DomainId, mine: seq<Label>)
    requires (forall x | x in order :: x in mpls) && d !in order
    ensures Dealt(mpls[d := mine], order + [d]) == Dealt(mpls, order) + mine
    decreases |order|
  {
    if order == [] {
      assert [] + [d] == [d] && [d][1..] == [];
      assert mine + [] == mine;
    } else {
      assert (order + [d])[1..] == order[1..] + [d];
      DealtMore(mpls, order[1..], d, mine);
    }
  }

  lemma NotYet(order: seq<DomainId>, i: nat)
    requires Distinct(order) && i < |order|
    ensures order[i] !in order[..i]
  {
  }

  lemma {:induction false} DealtSize(sections: map<DomainId, Section>, mpls: map<DomainId, seq<Label>>, order: seq<DomainId>)
    requires forall d | d in order :: d in sections && d in mpls && |mpls[d]| == |sections[d].list| - 1
    ensures |Dealt(mpls, order)| == Wanted(sections, order)
    decreases |order|
  {
    if order != [] { DealtSize(sections, mpls, order[1..]); }
  }

  lemma {:induction false} WantedGrows(sections: map<DomainId, Section>, order: seq<DomainId>)
    requires forall x | x in order :: x in sections && sections[x].list != []
    ensures Wanted(sections, order) >= 0
    decreases |order|
  {
    if order != [] { WantedGrows(sections, order[1..]); }
  }

  lemma {:induction false} WantedSplit(sections: map<DomainId, Section>, a: seq<DomainId>, b: seq<DomainId>)
    requires (forall x | x in a :: x in sections) && forall x | x in b :: x in sections
    ensures Wanted(sections, a + b) == Wanted(sections, a) + Wanted(sections, b)
    decreases |a|
  {
    if a == [] {
      assert a + b == b;
    } else {
      assert (a + b)[1..] == a[1..] + b;
      WantedSplit(sections, a[1..], b);
    }
  }

  /** Running out in section `i` means that there are fewer than wanted. */
  lemma TooFew(sections: map<DomainId, Section>, order: seq<DomainId>, i: nat, have: nat, n: nat)
    requires i < |order| && forall d | d in order :: d in sections && sections[d].list != []
    requires n < |sections[order[i]].list| - 1 && have == Wanted(sections, order[..i]) + n
    ensures have < Wanted(sections, order)
  {
    assert order == order[..i] + order[i..];
    WantedSplit(sections, order[..i], order[i..]);
    WantedGrows(sections, order[i..][1..]);
  }
}
