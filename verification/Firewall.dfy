/** Rule ids of app/rest_firewall.py: cookies made of a VLAN and a counter that
    is dropped and restarted. */
module Firewall {
  import opened Wrappers

  type Vid = nat
  type Cookie = nat

  const UINT32: nat := 0x1_0000_0000
  const VLANID_NONE: Vid := 0

  /** A rule's match: its VLAN (0: none) and the rest of the request. */
  datatype Match = Match(dlVlan: Vid, fields: nat)

  /** Access rules only; the status, ARP and log flows have priorities of their
      own and are passed over. */
  datatype Key = Key(pattern: Match, priority: nat)

  /** `counters` is vlan_list; `rules` the cookies of the flows in the switch. */
  datatype State = State(counters: map<Vid, nat>, rules: map<Key, Cookie>)

  const START := State(map[VLANID_NONE := 0], map[])

  function RuleId(c: Cookie): nat { c % UINT32 }

  function CookieVid(c: Cookie): nat { c / UINT32 }

  // --------------------------------------------------------------- additions

  /** _get_cookie for one VLAN. */
  function Count(counters: map<Vid, nat>, v: Vid): nat {
    ((if v in counters then counters[v] else 0) + 1) % UINT32
  }

  function CookieOf(counters: map<Vid, nat>, v: Vid): Cookie { v * UINT32 + Count(counters, v) }

  /** _get_cookie's loop over the VLANs asked for. */
  function Counted(counters: map<Vid, nat>, vids: seq<Vid>): map<Vid, nat>
    decreases |vids|
  {
    if vids == [] then counters else Counted(counters[vids[0] := Count(counters, vids[0])], vids[1..])
  }

  function Cookies(counters: map<Vid, nat>, vids: seq<Vid>): seq<(Cookie, Vid)>
    decreases |vids|
  {
    if vids == [] then []
    else [(CookieOf(counters, vids[0]), vids[0])] + Cookies(counters[vids[0] := Count(counters, vids[0])], vids[1..])
  }

  /** A rule request; `dlVlan` is what the request's own data says. */
  datatype Request = Request(fields: nat, dlVlan: Vid, priority: nat)

  /** set_rule's loop.  A VLAN writes itself into the request's data, where the
      rule of the untagged VLAN, if it comes later, still finds it. */
  function Install(rules: map<Key, Cookie>, cookies: seq<(Cookie, Vid)>, req: Request): map<Key, Cookie>
    decreases |cookies|
  {
    if cookies == [] then rules
    else
      var (c, v) := cookies[0];
      var req := if v != VLANID_NONE then req.(dlVlan := v) else req;
      Install(rules[Key(Match(req.dlVlan, req.fields), req.priority) := c], cookies[1..], req)
  }

  /** The request's data after set_rule: the last VLAN written into it stays,
      and the REST handler gives the same data to the next switch. */
  function LeftOver(vids: seq<Vid>, req: Request): Request
    decreases |vids|
  {
    if vids == [] then req
    else LeftOver(vids[1..], if vids[0] != VLANID_NONE then req.(dlVlan := vids[0]) else req)
  }

  /** A request without a valid priority or match raises after counting. */
  function Add(s: State, vids: seq<Vid>, req: Request, valid: bool): State {
    State(Counted(s.counters, vids), if valid then Install(s.rules, Cookies(s.counters, vids), req) else s.rules)
  }

  // --------------------------------------------------------------- deletions

  /** None stands for 'all'. */
  predicate Picked(k: Key, c: Cookie, id: Option<nat>, vid: Option<Vid>) {
    (id == None || id == Some(RuleId(c))) && (vid == None || vid == Some(k.pattern.dlVlan))
  }

  function Remaining(rules: map<Key, Cookie>, id: Option<nat>, vid: Option<Vid>): map<Key, Cookie> {
    map k | k in rules && !Picked(k, rules[k], id, vid) :: rules[k]
  }

  /** delete_rule with _update_vlan_list. */
  function Delete(s: State, id: Option<nat>, vid: Option<Vid>): State {
    var rules := Remaining(s.rules, id, vid);
    var vlans := set k | k in rules :: k.pattern.dlVlan;
    State(map v | v in s.counters && (v == VLANID_NONE || v in vlans) :: s.counters[v], rules)
  }

  // --------------------------------------------------------------- uniqueness

  /** A live rule's cookie was dealt by the counter of its own VLAN or by the
      untagged one's, and that counter has not been dropped since. */
  predicate Dealt(counters: map<Vid, nat>, k: Key, c: Cookie) {
    var v := CookieVid(c);
    && (v == k.pattern.dlVlan || v == VLANID_NONE)
    && v in counters && 1 <= RuleId(c) <= counters[v]
  }

  ghost predicate Unique(rules: map<Key, Cookie>) {
    forall k, k' | k in rules && k' in rules && rules[k] == rules[k'] :: k == k'
  }

  ghost predicate Ok(s: State) {
    && VLANID_NONE in s.counters
    && (forall v | v in s.counters :: s.counters[v] < UINT32)
    && (forall k | k in s.rules :: Dealt(s.counters, k, s.rules[k]))
    && Unique(s.rules)
  }

  lemma StartOk()
    ensures Ok(START)
  {
  }

  lemma CookieParts(v: Vid, n: nat)
    requires n < UINT32
    ensures CookieVid(v * UINT32 + n) == v && RuleId(v * UINT32 + n) == n
  {
  }

  /** The counters asked for have room for one more. */
  predicate Room(counters: map<Vid, nat>, vids: seq<Vid>) {
    forall v | v in vids :: v in counters ==> counters[v] < UINT32 - 1
  }

  ghost predicate Distinct(vids: seq<Vid>) {
    forall i, j | 0 <= i < j < |vids| :: vids[i] != vids[j]
  }

  lemma TailOf(vids: seq<Vid>)
    requires vids != [] && Distinct(vids)
    ensures Distinct(vids[1..]) && vids[0] !in vids[1..]
  {
    forall i, j | 0 <= i < j < |vids[1..]| ensures vids[1..][i] != vids[1..][j] { assert vids[i + 1] != vids[j + 1]; }
  }

  /** Counting for one VLAN and installing its rule, one after the other. */
  function AddOne(s: State, v: Vid, req: Request): State {
    State(s.counters[v := Count(s.counters, v)],
          s.rules[Key(Match(if v != VLANID_NONE then v else req.dlVlan, req.fields), req.priority) := CookieOf(s.counters, v)])
  }

  lemma AddOneOk(s: State, v: Vid, req: Request)
    requires Ok(s) && (v in s.counters ==> s.counters[v] < UINT32 - 1)
    ensures Ok(AddOne(s, v, req))
  {
    hide CookieVid, RuleId;
    var s', n := AddOne(s, v, req), Count(s.counters, v);
    var key := Key(Match(if v != VLANID_NONE then v else req.dlVlan, req.fields), req.priority);
    assert 1 <= n < UINT32 && (v in s.counters ==> n == s.counters[v] + 1);
    CookieParts(v, n);
    forall k | k in s.rules ensures s.rules[k] != CookieOf(s.counters, v) { assert Dealt(s.counters, k, s.rules[k]); }
    forall k | k in s'.rules ensures Dealt(s'.counters, k, s'.rules[k]) {
      if k != key { assert Dealt(s.counters, k, s.rules[k]); }
    }
  }

  lemma CountOneOk(s: State, v: Vid)
    requires Ok(s) && (v in s.counters ==> s.counters[v] < UINT32 - 1)
    ensures Ok(s.(counters := s.counters[v := Count(s.counters, v)]))
  {
    var s' := s.(counters := s.counters[v := Count(s.counters, v)]);
    forall k | k in s'.rules ensures Dealt(s'.counters, k, s'.rules[k]) { assert Dealt(s.counters, k, s.rules[k]); }
  }

  /** An addition, for one VLAN or for all, valid or not, keeps cookies unique. */
  lemma {:induction false} AddOk(s: State, vids: seq<Vid>, req: Request, valid: bool)
    requires Ok(s) && Distinct(vids) && Room(s.counters, vids)
    ensures Ok(Add(s, vids, req, valid))
    decreases |vids|
  {
    hide Ok, CookieOf, Count;
    if vids != [] {
      var v := vids[0];
      assert v in vids;
      TailOf(vids);
      var req' := if v != VLANID_NONE then req.(dlVlan := v) else req;
      var s1 := if valid then AddOne(s, v, req) else s.(counters := s.counters[v := Count(s.counters, v)]);
      if valid { AddOneOk(s, v, req); } else { CountOneOk(s, v); }
      forall x | x in vids[1..] ensures x in s1.counters ==> s1.counters[x] < UINT32 - 1 { assert x in vids && x != v; }
      AddOk(s1, vids[1..], req', valid);
      if valid { FirstCookie(s, vids, req); }
      assert Add(s, vids, req, valid) == Add(s1, vids[1..], req', valid);
    }
  }

  lemma FirstCookie(s: State, vids: seq<Vid>, req: Request)
    requires vids != []
    ensures var v, s1 := vids[0], AddOne(s, vids[0], req);
            Install(s.rules, Cookies(s.counters, vids), req) ==
            Install(s1.rules, Cookies(s1.counters, vids[1..]), if v != VLANID_NONE then req.(dlVlan := v) else req)
  {
    hide CookieOf, Count;
    var cookies := Cookies(s.counters, vids);
    assert cookies[0] == (CookieOf(s.counters, vids[0]), vids[0]);
    assert cookies[1..] == Cookies(s.counters[vids[0] := Count(s.counters, vids[0])], vids[1..]);
  }

  /** Dropping the counters of VLANs without rules does no harm. */
  lemma DeleteOk(s: State, id: Option<nat>, vid: Option<Vid>)
    requires Ok(s)
    ensures Ok(Delete(s, id, vid))
  {
    var s' := Delete(s, id, vid);
    forall k | k in s'.rules ensures Dealt(s'.counters, k, s'.rules[k]) {
      assert Dealt(s.counters, k, s.rules[k]);
      assert k.pattern.dlVlan in set x | x in s'.rules :: x.pattern.dlVlan;
    }
  }

  predicate HasRule(rules: map<Key, Cookie>, v: Vid) {
    exists k | k in rules :: k.pattern.dlVlan == v
  }

  /** Which rules and counters a deletion leaves: every rule of another VLAN or
      another id stays as it is, every rule asked for goes, and of the counters
      those of the VLANs with rules left and the untagged one's stay. */
  lemma DeletionLeaves(s: State, id: Option<nat>, vid: Option<Vid>)
    ensures forall k | k in Delete(s, id, vid).rules :: k in s.rules && Delete(s, id, vid).rules[k] == s.rules[k]
    ensures forall k | k in s.rules && vid.Some? && k.pattern.dlVlan != vid.value :: k in Delete(s, id, vid).rules
    ensures forall k | k in s.rules && id.Some? && s.rules[k] % UINT32 != id.value :: k in Delete(s, id, vid).rules
    ensures forall k | k in s.rules && (vid == None || k.pattern.dlVlan == vid.value)
                       && (id == None || s.rules[k] % UINT32 == id.value) :: k !in Delete(s, id, vid).rules
    ensures forall v | v in Delete(s, id, vid).counters :: v in s.counters && Delete(s, id, vid).counters[v] == s.counters[v]
    ensures forall v | v in s.counters ::
              v in Delete(s, id, vid).counters <==> v == VLANID_NONE || HasRule(Delete(s, id, vid).rules, v)
  {
    var s' := Delete(s, id, vid);
    forall v | v in s.counters ensures v in s'.counters <==> v == VLANID_NONE || HasRule(s'.rules, v) {
      if HasRule(s'.rules, v) {
        var k :| k in s'.rules && k.pattern.dlVlan == v;
        assert k.pattern.dlVlan in set x | x in s'.rules :: x.pattern.dlVlan;
      }
    }
  }

  // -------------------------------------------------------------------- runs

  datatype Call =
    | AddRule(vids: seq<Vid>, req: Request, valid: bool)
    | DeleteRule(id: Option<nat>, vid: Option<Vid>)

  function After(s: State, call: Call): State {
    match call
    case AddRule(vids, req, valid) => Add(s, vids, req, valid)
    case DeleteRule(id, vid) => Delete(s, id, vid)
  }

  function Run(s: State, calls: seq<Call>): State
    decreases |calls|
  {
    if calls == [] then s else Run(After(s, calls[0]), calls[1..])
  }

  /** Fewer than 2^32 additions per VLAN while its counter lives. */
  ghost predicate Roomy(s: State, calls: seq<Call>)
    decreases |calls|
  {
    calls == [] ||
    ((calls[0].AddRule? ==> Distinct(calls[0].vids) && Room(s.counters, calls[0].vids))
     && Roomy(After(s, calls[0]), calls[1..]))
  }

  /** No two live rules ever share a cookie, although counters restart. */
  lemma {:induction false} CookiesStayUnique(s: State, calls: seq<Call>)
    requires Ok(s) && Roomy(s, calls)
    ensures Ok(Run(s, calls)) && Unique(Run(s, calls).rules)
    decreases |calls|
  {
    hide Add, Delete, Unique;
    if calls != [] {
      match calls[0] {
        case AddRule(vids, req, valid) => AddOk(s, vids, req, valid);
        case DeleteRule(id, vid) => DeleteOk(s, id, vid);
      }
      CookiesStayUnique(After(s, calls[0]), calls[1..]);
    }
  }

  lemma UniqueFromStart(calls: seq<Call>)
    requires Roomy(START, calls)
    ensures Unique(Run(START, calls).rules)
  {
    StartOk();
    CookiesStayUnique(START, calls);
  }

  // ----------------------------------------------------- whose cookie is whose

  /** Every rule's cookie was dealt for the rule's own VLAN. */
  ghost predicate Owned(rules: map<Key, Cookie>) {
    forall k | k in rules :: CookieVid(rules[k]) == k.pattern.dlVlan
  }

  /** The untagged VLAN is not asked for, or comes first and is given data that
      name no VLAN, or one that gets its own rule later. */
  predicate KeepsOwned(vids: seq<Vid>, req: Request) {
    VLANID_NONE !in vids
    || (vids[0] == VLANID_NONE && (req.dlVlan == VLANID_NONE || req.dlVlan in vids))
  }

  function KeyOf(v: Vid, req: Request): Key { Key(Match(v, req.fields), req.priority) }

  /** Tagged VLANs get their own rules and touch no others. */
  lemma {:induction false} TaggedInstall(s: State, vids: seq<Vid>, req: Request)
    requires Distinct(vids) && VLANID_NONE !in vids
    ensures var rules := Add(s, vids, req, true).rules;
            && (forall v | v in vids :: KeyOf(v, req) in rules && rules[KeyOf(v, req)] == CookieOf(s.counters, v))
            && (forall k | k in rules :: k in s.rules || exists v :: v in vids && k == KeyOf(v, req))
            && (forall k | k in s.rules && (forall v | v in vids :: k != KeyOf(v, req)) ::
                 k in rules && rules[k] == s.rules[k])
    decreases |vids|
  {
    hide CookieOf, Cookies, Install, Distinct;
    if vids == [] {
      AddNone(s, req);
    } else {
      var v, s1, req' := vids[0], AddOne(s, vids[0], req), req.(dlVlan := vids[0]);
      assert v in vids;
      TailOf(vids);
      AddFirst(s, vids, req);
      TaggedInstall(s1, vids[1..], req');
      var rules := Add(s, vids, req, true).rules;
      assert forall x :: KeyOf(x, req') == KeyOf(x, req);
      assert forall x | x in vids :: x == v || x in vids[1..];
      assert forall x | x in vids[1..] :: x in vids && x != v;
      forall x | x in vids ensures KeyOf(x, req) in rules && rules[KeyOf(x, req)] == CookieOf(s.counters, x) {
        if x == v { assert KeyOf(v, req) in s1.rules; } else { OtherCookie(s, v, x); }
      }
    }
  }

  lemma AddNone(s: State, req: Request)
    ensures Add(s, [], req, true) == s
  {
  }

  lemma AddFirst(s: State, vids: seq<Vid>, req: Request)
    requires vids != []
    ensures Add(s, vids, req, true) ==
            Add(AddOne(s, vids[0], req), vids[1..], if vids[0] != VLANID_NONE then req.(dlVlan := vids[0]) else req, true)
  {
    hide CookieOf, Count;
    FirstCookie(s, vids, req);
  }

  lemma OtherCookie(s: State, v: Vid, x: Vid)
    requires x != v
    ensures CookieOf(s.counters[v := Count(s.counters, v)], x) == CookieOf(s.counters, x)
  {
  }

  lemma OwnCookie(s: State, v: Vid)
    ensures CookieVid(CookieOf(s.counters, v)) == v
  {
    CookieParts(v, Count(s.counters, v));
  }

  /** An accepted addition, for whatever VLANs in whatever order, leaves every
      cookie with its own VLAN exactly under that guard. */
  lemma {:induction false} OwnedExactly(s: State, vids: seq<Vid>, req: Request)
    requires Owned(s.rules) && Distinct(vids)
    ensures Owned(Add(s, vids, req, true).rules) <==> KeepsOwned(vids, req)
    decreases |vids|
  {
    hide CookieOf, Cookies, CookieVid, Add, Distinct;
    if vids == [] {
      AddNone(s, req);
    } else {
      var v, s1 := vids[0], AddOne(s, vids[0], req);
      var req' := if v != VLANID_NONE then req.(dlVlan := v) else req;
      TailOf(vids);
      AddFirst(s, vids, req);
      OwnCookie(s, v);
      if v != VLANID_NONE {
        assert Owned(s1.rules);
        OwnedExactly(s1, vids[1..], req');
        assert VLANID_NONE in vids <==> VLANID_NONE in vids[1..];
      } else {
        UntaggedThenTagged(s, vids[1..], req);
        assert req.dlVlan in vids <==> req.dlVlan == VLANID_NONE || req.dlVlan in vids[1..];
      }
    }
  }

  /** The untagged rule first: what it spoils is mended only by the same VLAN's
      own rule. */
  lemma UntaggedThenTagged(s: State, vids: seq<Vid>, req: Request)
    requires Owned(s.rules) && Distinct(vids) && VLANID_NONE !in vids
    ensures Owned(Add(AddOne(s, VLANID_NONE, req), vids, req, true).rules)
            <==> req.dlVlan == VLANID_NONE || req.dlVlan in vids
  {
    hide CookieOf, CookieVid, Add, Distinct;
    var s1 := AddOne(s, VLANID_NONE, req);
    var spoilt, rules := KeyOf(req.dlVlan, req), Add(s1, vids, req, true).rules;
    TaggedInstall(s1, vids, req);
    OwnCookie(s, VLANID_NONE);
    assert s1.rules == s.rules[spoilt := CookieOf(s.counters, VLANID_NONE)];
    forall k | k in rules && (k != spoilt || req.dlVlan == VLANID_NONE || req.dlVlan in vids)
      ensures CookieVid(rules[k]) == k.pattern.dlVlan
    {
      if v :| v in vids && k == KeyOf(v, req) { OwnCookie(s1, v); }
    }
    if req.dlVlan !in vids {
      forall v | v in vids ensures KeyOf(v, req) != spoilt {}
      assert spoilt in s1.rules;
    }
  }

  /** Every VLAN asked for has its newly dealt rule. */
  ghost predicate EachServed(s: State, vids: seq<Vid>, req: Request) {
    var rules := Add(s, vids, req, true).rules;
    forall v | v in vids :: KeyOf(v, req) in rules && rules[KeyOf(v, req)] == CookieOf(s.counters, v)
  }

  /** Every VLAN asked for gets its rule exactly if the untagged one is not among
      them, or comes first and the data name no VLAN. */
  lemma EachServedExactly(s: State, vids: seq<Vid>, req: Request)
    requires Ok(s) && Distinct(vids) && Room(s.counters, vids)
    ensures EachServed(s, vids, req)
            <==> VLANID_NONE !in vids || (vids[0] == VLANID_NONE && req.dlVlan == VLANID_NONE)
  {
    hide CookieOf, Add, Distinct, Ok;
    if VLANID_NONE !in vids {
      TaggedInstall(s, vids, req);
    } else if vids[0] == VLANID_NONE && req.dlVlan == VLANID_NONE {
      AddFirst(s, vids, req);
      TailOf(vids);
      var s1 := AddOne(s, VLANID_NONE, req);
      TaggedInstall(s1, vids[1..], req);
      assert KeyOf(VLANID_NONE, req) in s1.rules;
      forall v | v in vids && v != VLANID_NONE ensures v in vids[1..] && CookieOf(s1.counters, v) == CookieOf(s.counters, v) {
        OtherCookie(s, VLANID_NONE, v);
      }
    } else {
      UntaggedUnwritten(s, vids, req);
      FreshCookie(s, VLANID_NONE);
    }
  }

  lemma {:induction false} UntaggedUnwritten(s: State, vids: seq<Vid>, req: Request)
    requires Distinct(vids) && (vids != [] && vids[0] == VLANID_NONE ==> req.dlVlan != VLANID_NONE)
    ensures var k, rules := KeyOf(VLANID_NONE, req), Add(s, vids, req, true).rules;
            k in rules <==> k in s.rules
    ensures var k, rules := KeyOf(VLANID_NONE, req), Add(s, vids, req, true).rules;
            k in rules ==> rules[k] == s.rules[k]
    decreases |vids|
  {
    hide CookieOf, Add, Distinct;
    if vids == [] {
      AddNone(s, req);
    } else {
      var v := vids[0];
      TailOf(vids);
      AddFirst(s, vids, req);
      UntaggedUnwritten(AddOne(s, v, req), vids[1..], if v != VLANID_NONE then req.(dlVlan := v) else req);
    }
  }

  /** Where the untagged rule goes if its VLAN comes later: onto the rule of the
      VLAN before it, under the untagged counter's cookie. */
  lemma {:induction false} AllLeaksVlan(s: State, vids: seq<Vid>, i: nat, req: Request)
    requires Distinct(vids) && 0 < i < |vids| && vids[i] == VLANID_NONE
    ensures var k, rules := KeyOf(vids[i - 1], req), Add(s, vids, req, true).rules;
            k in rules && rules[k] == CookieOf(s.counters, VLANID_NONE)
    decreases |vids|
  {
    hide CookieOf, Add, Distinct;
    var v, s1, req' := vids[0], AddOne(s, vids[0], req), req.(dlVlan := vids[0]);
    TailOf(vids);
    assert vids[i] == vids[1..][i - 1];
    AddFirst(s, vids, req);
    OtherCookie(s, v, VLANID_NONE);
    if i > 1 {
      AllLeaksVlan(s1, vids[1..], i - 1, req');
    } else {
      var s2 := AddOne(s1, VLANID_NONE, req');
      TailOf(vids[1..]);
      AddFirst(s1, vids[1..], req');
      TaggedInstall(s2, vids[1..][1..], req');
      assert KeyOf(v, req') in s2.rules;
      forall x | x in vids[1..][1..] ensures KeyOf(v, req') != KeyOf(x, req') { assert x in vids[1..]; }
    }
  }

  lemma FreshCookie(s: State, v: Vid)
    requires Ok(s) && (v in s.counters ==> s.counters[v] < UINT32 - 1)
    ensures forall k | k in s.rules :: s.rules[k] != CookieOf(s.counters, v)
  {
    CookieParts(v, Count(s.counters, v));
    forall k | k in s.rules ensures s.rules[k] != CookieOf(s.counters, v) { assert Dealt(s.counters, k, s.rules[k]); }
  }

  /** Where every rule's cookie is of its own VLAN, VLAN and rule id pick at most
      one rule. */
  lemma IdsPickOne(s: State, id: nat, vid: Vid, k: Key, k': Key)
    requires Ok(s) && Owned(s.rules)
    requires k in s.rules && k' in s.rules
    requires Picked(k, s.rules[k], Some(id), Some(vid)) && Picked(k', s.rules[k'], Some(id), Some(vid))
    ensures k == k'
  {
    assert s.rules[k] == vid * UINT32 + id && s.rules[k'] == vid * UINT32 + id;
  }

  /** Accepted additions meet the guard. */
  predicate Guarded(calls: seq<Call>) {
    forall c | c in calls && c.AddRule? && c.valid :: KeepsOwned(c.vids, c.req)
  }

  lemma {:induction false} OwnedOverRuns(s: State, calls: seq<Call>)
    requires Owned(s.rules) && Roomy(s, calls) && Guarded(calls)
    ensures Owned(Run(s, calls).rules)
    decreases |calls|
  {
    hide Add, KeepsOwned, CookieVid, Distinct;
    if calls != [] {
      match calls[0] {
        case AddRule(vids, req, valid) =>
          assert calls[0] in calls;
          if valid { OwnedExactly(s, vids, req); } else { Refused(s, vids, req); }
        case DeleteRule(id, vid) =>
      }
      OwnedOverRuns(After(s, calls[0]), calls[1..]);
    }
  }

  lemma Refused(s: State, vids: seq<Vid>, req: Request)
    ensures Add(s, vids, req, false).rules == s.rules
  {
  }

  /** Over every run of guarded additions and of deletions, VLAN and rule id pick
      at most one rule. */
  lemma IdsPickOneOverRuns(calls: seq<Call>, id: nat, vid: Vid, k: Key, k': Key)
    requires Roomy(START, calls) && Guarded(calls)
    requires var rules := Run(START, calls).rules;
             k in rules && k' in rules && Picked(k, rules[k], Some(id), Some(vid)) && Picked(k', rules[k'], Some(id), Some(vid))
    ensures k == k'
  {
    hide Run, Roomy, Guarded, Picked;
    StartOk();
    CookiesStayUnique(START, calls);
    OwnedOverRuns(START, calls);
    IdsPickOne(Run(START, calls), id, vid, k, k');
  }

  /** Without the guard two calls are enough: a rule for VLAN 5 put on the untagged
      URL, and one put on VLAN 5's, are both rule 1 of VLAN 5. */
  lemma TwoOfOneId()
    ensures var k, k' := Key(Match(5, 1), 1), Key(Match(5, 2), 1);
            var rules := Run(START, [AddRule([VLANID_NONE], Request(1, 5, 1), true), AddRule([5], Request(2, 0, 1), true)]).rules;
            && k != k' && k in rules && k' in rules
            && Picked(k, rules[k], Some(1), Some(5)) && Picked(k', rules[k'], Some(1), Some(5))
  {
    hide Add, RuleId, CookieOf;
    var first, second := Request(1, 5, 1), Request(2, 0, 1);
    var calls := [AddRule([VLANID_NONE], first, true), AddRule([5], second, true)];
    var s1 := AddOne(START, VLANID_NONE, first);
    var s2 := AddOne(s1, 5, second);
    AddSingle(START, VLANID_NONE, first);
    AddSingle(s1, 5, second);
    assert calls[1..] == [AddRule([5], second, true)] && calls[1..][1..] == [];
    assert Run(START, calls) == Run(s1, calls[1..]) == s2;
    assert CookieOf(START.counters, VLANID_NONE) == 1 && CookieOf(s1.counters, 5) == 5 * UINT32 + 1 by {
      assert Count(START.counters, VLANID_NONE) == 1 && Count(s1.counters, 5) == 1;
      CookieOfCount(START.counters, VLANID_NONE);
      CookieOfCount(s1.counters, 5);
    }
    CookieParts(0, 1);
    CookieParts(5, 1);
  }

  lemma CookieOfCount(counters: map<Vid, nat>, v: Vid)
    ensures CookieOf(counters, v) == v * UINT32 + Count(counters, v)
  {
  }

  lemma AddSingle(s: State, v: Vid, req: Request)
    ensures Add(s, [v], req, true) == AddOne(s, v, req)
  {
    AddFirst(s, [v], req);
    assert [v][1..] == [];
    AddNone(AddOne(s, v, req), if v != VLANID_NONE then req.(dlVlan := v) else req);
  }

  /** One request to two switches, with 'all' for the VLAN and data that name
      none: the first switch's last VLAN is left in the data, so the second gets
      all its rules only if the first has no tagged VLAN, and keeps its cookies
      with their VLANs only if it has that VLAN too. */
  lemma SecondSwitch(s: State, vids: seq<Vid>, req: Request, t: State, others: seq<Vid>)
    requires Distinct([VLANID_NONE] + vids) && Distinct([VLANID_NONE] + others) && req.dlVlan == VLANID_NONE
    requires Ok(t) && Owned(t.rules) && Room(t.counters, [VLANID_NONE] + others)
    ensures var left := LeftOver([VLANID_NONE] + vids, req);
            && (EachServed(t, [VLANID_NONE] + others, left) <==> vids == [])
            && (Owned(Add(t, [VLANID_NONE] + others, left, true).rules) <==> vids == [] || vids[|vids| - 1] in others)
  {
    hide Ok, Owned, Add, Distinct, Room, EachServed;
    var all := [VLANID_NONE] + vids;
    var left := LeftOver(all, req);
    TailOf(all);
    assert all[1..] == vids;
    LastIsLeft(vids, req);
    TailOf([VLANID_NONE] + others);
    assert ([VLANID_NONE] + others)[1..] == others;
    EachServedExactly(t, [VLANID_NONE] + others, left);
    OwnedExactly(t, [VLANID_NONE] + others, left);
  }

  lemma {:induction false} LastIsLeft(vids: seq<Vid>, req: Request)
    requires VLANID_NONE !in vids
    ensures LeftOver(vids, req) == if vids == [] then req else req.(dlVlan := vids[|vids| - 1])
    decreases |vids|
  {
    if vids != [] {
      assert vids[0] in vids;
      LastIsLeft(vids[1..], req.(dlVlan := vids[0]));
    }
  }

  // ------------------------------------------------------------------ object

  /** One flow of a statistics reply. */
  datatype Stat = Stat(key: Key, cookie: Cookie)

  ghost predicate Complete(rules: map<Key, Cookie>, stats: seq<Stat>) {
    && (forall s | s in stats :: s.key in rules && rules[s.key] == s.cookie)
    && (forall k | k in rules :: Stat(k, rules[k]) in stats)
  }

  class FirewallSwitch {
    var vlanList: map<Vid, nat>
    var rules: map<Key, Cookie>

    ghost function Value(): State
      reads this
    {
      State(vlanList, rules)
    }

    constructor ()
      ensures Value() == START
    {
      vlanList, rules := map[VLANID_NONE := 0], map[];
    }

    /** _get_cookie. */
    method GetCookie(vids: seq<Vid>) returns (cookies: seq<(Cookie, Vid)>)
      modifies this`vlanList
      ensures vlanList == Counted(old(vlanList), vids) && cookies == Cookies(old(vlanList), vids)
    {
      cookies := [];
      for i := 0 to |vids|
        invariant Counted(vlanList, vids[i..]) == Counted(old(vlanList), vids)
        invariant cookies + Cookies(vlanList, vids[i..]) == Cookies(old(vlanList), vids)
      {
        var v: Vid := vids[i];
        assert vids[i..][0] == v && vids[i..][1..] == vids[i + 1..];
        ghost var next := vlanList[v := Count(vlanList, v)];
        ghost var rest := Cookies(next, vids[i + 1..]);
        assert cookies + ([(CookieOf(vlanList, v), v)] + rest) == cookies + [(CookieOf(vlanList, v), v)] + rest;
        if v !in vlanList { vlanList := vlanList[v := 0]; }
        var n: nat := (vlanList[v] + 1) % UINT32;
        vlanList := vlanList[v := n];
        assert vlanList == next;
        cookies := cookies + [(v * UINT32 + n, v)];
      }
      assert vids[|vids|..] == [];
      assert cookies + [] == cookies;
    }

    /** set_rule.  The request's data are changed in place; `req` is what they
        are in the end. */
    method SetRule(vids: seq<Vid>, req0: Request, valid: bool) returns (req: Request)
      modifies this
      ensures Value() == Add(old(Value()), vids, req0, valid)
      ensures req == if valid then LeftOver(vids, req0) else req0
    {
      var cookies := GetCookie(vids);
      req := req0;
      if !valid { return; }
      CookiesInOrder(old(vlanList), vids);
      for i := 0 to |cookies|
        invariant vlanList == Counted(old(vlanList), vids)
        invariant Install(rules, cookies[i..], req) == Install(old(rules), cookies, req0)
        invariant LeftOver(vids[i..], req) == LeftOver(vids, req0)
      {
        var (c, v) := cookies[i];
        assert cookies[i..][0] == (c, v) && cookies[i..][1..] == cookies[i + 1..];
        if v != VLANID_NONE { req := req.(dlVlan := v); }
        rules := rules[Key(Match(req.dlVlan, req.fields), req.priority) := c];
      }
      assert cookies[|cookies|..] == [];
    }

    /** delete_rule: the sorting loop, the counters, the deletions. */
    method DeleteRules(id: Option<nat>, vid: Option<Vid>, stats: seq<Stat>)
      requires Complete(rules, stats)
      modifies this
      ensures Value() == Delete(old(Value()), id, vid)
    {
      hide Picked, Remaining;
      var vlans: set<Vid>, list: seq<Stat> := {}, [];
      for i := 0 to |stats|
        invariant vlans == (set s | s in stats[..i] && !Picked(s.key, s.cookie, id, vid) :: s.key.pattern.dlVlan)
        invariant forall s :: s in list <==> s in stats[..i] && Picked(s.key, s.cookie, id, vid)
      {
        var s := stats[i];
        assert stats[..i + 1] == stats[..i] + [s];
        if Picked(s.key, s.cookie, id, vid) { list := list + [s]; } else { vlans := vlans + {s.key.pattern.dlVlan}; }
      }
      assert stats[..|stats|] == stats;
      RemainingVlans(rules, stats, id, vid, vlans);
      UpdateVlanList(vlans);
      for i := 0 to |list|
        invariant rules == map k | k in old(rules) && (forall s | s in list[..i] :: s.key != k) :: old(rules)[k]
        invariant vlanList == map v | v in old(vlanList) && (v == VLANID_NONE || v in vlans) :: old(vlanList)[v]
      {
        assert list[..i + 1] == list[..i] + [list[i]];
        rules := rules - {list[i].key};
      }
      assert list[..|list|] == list;
      AllPickedGone(old(rules), stats, list, id, vid);
    }

    /** _update_vlan_list. */
    method UpdateVlanList(vlans: set<Vid>)
      modifies this`vlanList
      ensures vlanList == map v | v in old(vlanList) && (v == VLANID_NONE || v in vlans) :: old(vlanList)[v]
    {
      var todo := vlanList.Keys;
      while todo != {}
        invariant todo <= old(vlanList).Keys
        invariant vlanList == map v | v in old(vlanList) && (v in todo || v == VLANID_NONE || v in vlans) :: old(vlanList)[v]
        decreases todo
      {
        var v :| v in todo;
        todo := todo - {v};
        if v != VLANID_NONE && v !in vlans { vlanList := vlanList - {v}; }
      }
    }
  }

  lemma {:induction false} CookiesInOrder(counters: map<Vid, nat>, vids: seq<Vid>)
    ensures var cookies := Cookies(counters, vids);
            |cookies| == |vids| && forall i | 0 <= i < |vids| :: cookies[i].1 == vids[i]
    decreases |vids|
  {
    hide CookieOf, Count;
    if vids != [] { CookiesInOrder(counters[vids[0] := Count(counters, vids[0])], vids[1..]); }
  }

  lemma RemainingVlans(rules: map<Key, Cookie>, stats: seq<Stat>, id: Option<nat>, vid: Option<Vid>, vlans: set<Vid>)
    requires Complete(rules, stats)
    requires vlans == set s | s in stats && !Picked(s.key, s.cookie, id, vid) :: s.key.pattern.dlVlan
    ensures vlans == set k | k in Remaining(rules, id, vid) :: k.pattern.dlVlan
  {
    hide Picked;
    forall k | k in Remaining(rules, id, vid) ensures k.pattern.dlVlan in vlans { assert Stat(k, rules[k]) in stats; }
  }

  lemma AllPickedGone(rules: map<Key, Cookie>, stats: seq<Stat>, list: seq<Stat>, id: Option<nat>, vid: Option<Vid>)
    requires Complete(rules, stats) && forall s :: s in list <==> s in stats && Picked(s.key, s.cookie, id, vid)
    ensures (map k | k in rules && (forall s | s in list :: s.key != k) :: rules[k]) == Remaining(rules, id, vid)
  {
    hide Picked;
    forall k | k in rules ensures Picked(k, rules[k], id, vid) <==> exists s :: s in list && s.key == k {
      if Picked(k, rules[k], id, vid) { assert Stat(k, rules[k]) in list; }
    }
  }
}
