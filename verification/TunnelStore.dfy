/** The tunnel store of controller/tunnels.py: one key per network, and for each
    tunnel port the switch at the far end. */
module TunnelStore {
  import opened Wrappers
  import opened TenantStore

  type Key = nat

  datatype Tunnels = Tunnels(keys: map<NetworkId, Key>, remotes: map<PortId, Dpid>)

  datatype TunnelError =
    | NetworkExists | TunnelKeyExists | TunnelPortExists | RemoteExists | NoSuchPort

  /** A call's new state, or the exception it raised (nothing is changed then). */
  type Changed = Result<Tunnels, TunnelError>

  function RegisterKey(t: Tunnels, n: NetworkId, k: Key): Changed {
    if n in t.keys then Err(NetworkExists)
    else if k in t.keys.Values then Err(TunnelKeyExists)
    else Ok(t.(keys := t.keys[n := k]))
  }

  function UpdateKey(t: Tunnels, n: NetworkId, k: Key): Changed {
    if n !in t.keys && k in t.keys.Values then Err(TunnelKeyExists)
    else if n !in t.keys then Ok(t.(keys := t.keys[n := k]))
    else if t.keys[n] != k then Err(NetworkExists)
    else Ok(t)
  }

  function RegisterPort(t: Tunnels, at: PortId, remote: Dpid): Changed {
    if at in t.remotes then Err(TunnelPortExists) else Ok(t.(remotes := t.remotes[at := remote]))
  }

  function UpdateRemote(t: Tunnels, at: PortId, remote: Dpid): Changed {
    if at !in t.remotes then Ok(t.(remotes := t.remotes[at := remote]))
    else if t.remotes[at] != remote then Err(RemoteExists)
    else Ok(t)
  }

  function DeletePort(t: Tunnels, at: PortId): Changed {
    if at !in t.remotes then Err(NoSuchPort) else Ok(t.(remotes := t.remotes - {at}))
  }

  /** get_port: the ports of switch `d` that lead to `remote`. */
  function PortsTo(t: Tunnels, d: Dpid, remote: Dpid): set<PortNo> {
    set at | at in t.remotes && at.dpid == d && t.remotes[at] == remote :: at.port
  }

  /** No two networks share a key. */
  ghost predicate Injective(keys: map<NetworkId, Key>) {
    forall n, n' :: n in keys && n' in keys && keys[n] == keys[n'] ==> n == n'
  }

  /** get_port's own assertion: at most one port of a switch leads to another. */
  ghost predicate OnePortEach(t: Tunnels) {
    forall at, at' :: at in t.remotes && at' in t.remotes && at.dpid == at'.dpid && t.remotes[at] == t.remotes[at']
                      ==> at == at'
  }

  /** Keys stay injective whatever is registered or updated. */
  lemma KeysStayInjective(t: Tunnels, n: NetworkId, k: Key)
    requires Injective(t.keys)
    ensures RegisterKey(t, n, k).Ok? ==> Injective(RegisterKey(t, n, k).value.keys)
    ensures UpdateKey(t, n, k).Ok? ==> Injective(UpdateKey(t, n, k).value.keys)
    ensures RegisterKey(t, n, k).Ok? <==> n !in t.keys && forall x | x in t.keys :: t.keys[x] != k
  {
    assert forall x | x in t.keys :: t.keys[x] in t.keys.Values;
  }

  /** Registering a tunnel port keeps get_port's assertion true exactly when no
      other port of the switch leads to the same remote. */
  lemma PortRegistrationKeepsOnePort(t: Tunnels, at: PortId, remote: Dpid)
    requires OnePortEach(t)
    ensures RegisterPort(t, at, remote).Ok? ==>
              (OnePortEach(RegisterPort(t, at, remote).value) <==> PortsTo(t, at.dpid, remote) == {})
    ensures UpdateRemote(t, at, remote).Ok? ==>
              (OnePortEach(UpdateRemote(t, at, remote).value) <==> PortsTo(t, at.dpid, remote) <= {at.port})
  {
    var t' := t.(remotes := t.remotes[at := remote]);
    if at !in t.remotes {
      forall x | x in t.remotes && x.dpid == at.dpid && t.remotes[x] == remote ensures !OnePortEach(t') {
        assert x in t'.remotes && at in t'.remotes && x != at;
      }
      assert PortsTo(t, at.dpid, remote) == {} || !OnePortEach(t');
      assert forall x | x in t.remotes && x.dpid == at.dpid && t.remotes[x] == remote ::
          x.port in PortsTo(t, at.dpid, remote);
    } else {
      AtMostOnePort(t, at.dpid, t.remotes[at], at.port);
    }
  }

  lemma AtMostOnePort(t: Tunnels, d: Dpid, remote: Dpid, p: PortNo)
    requires OnePortEach(t) && p in PortsTo(t, d, remote)
    ensures PortsTo(t, d, remote) == {p}
  {
    forall q | q in PortsTo(t, d, remote) ensures q == p {
      assert PortId(d, p) in t.remotes && PortId(d, q) in t.remotes;
    }
  }

  // ------------------------------------------------------------------ object

  /** TunnelKeys and DPIDs; the source nests the ports by switch. */
  class TunnelRegistry {
    var keys: map<NetworkId, Key>
    var remotes: map<PortId, Dpid>

    ghost function Value(): Tunnels
      reads this
    {
      Tunnels(keys, remotes)
    }

    /** The call did what the specification says, or raised and changed nothing. */
    twostate predicate Did(new call: Changed, new error: Option<TunnelError>)
      reads this
    {
      match call
      case Ok(t) => error == None && Value() == t
      case Err(e) => error == Some(e) && Value() == old(Value())
    }

    constructor ()
      ensures Value() == Tunnels(map[], map[])
    {
      keys, remotes := map[], map[];
    }

    method AddKey(n: NetworkId, k: Key) returns (error: Option<TunnelError>)
      modifies this
      ensures Did(RegisterKey(old(Value()), n, k), error)
    {
      if n in keys { return Some(NetworkExists); }
      if k in keys.Values { return Some(TunnelKeyExists); }
      keys := keys[n := k];
      error := None;
    }

    method ChangeKey(n: NetworkId, k: Key) returns (error: Option<TunnelError>)
      modifies this
      ensures Did(UpdateKey(old(Value()), n, k), error)
    {
      if n !in keys && k in keys.Values { return Some(TunnelKeyExists); }
      if n !in keys {
        keys := keys[n := k];
      } else if keys[n] != k {
        return Some(NetworkExists);
      }
      error := None;
    }

    method AddPort(at: PortId, remote: Dpid) returns (error: Option<TunnelError>)
      modifies this
      ensures Did(RegisterPort(old(Value()), at, remote), error)
    {
      if at in remotes { return Some(TunnelPortExists); }
      remotes := remotes[at := remote];
      error := None;
    }

    method ChangePort(at: PortId, remote: Dpid) returns (error: Option<TunnelError>)
      modifies this
      ensures Did(UpdateRemote(old(Value()), at, remote), error)
    {
      if at !in remotes {
        remotes := remotes[at := remote];
      } else if remotes[at] != remote {
        return Some(RemoteExists);
      }
      error := None;
    }

    method RemovePort(at: PortId) returns (error: Option<TunnelError>)
      modifies this
      ensures Did(DeletePort(old(Value()), at), error)
    {
      if at !in remotes { return Some(NoSuchPort); }
      remotes := remotes - {at};
      error := None;
    }

    /** get_port with its assertion; None is PortNotFound. */
    method GetPort(d: Dpid, remote: Dpid) returns (port: Option<PortNo>)
      requires OnePortEach(Value())
      ensures PortsTo(Value(), d, remote) == if port.Some? then {port.value} else {}
    {
      var found: set<PortNo> := {};
      var todo := remotes.Keys;
      while todo != {}
        invariant todo <= remotes.Keys
        invariant found == set at | at in remotes && at !in todo && at.dpid == d && remotes[at] == remote :: at.port
        decreases todo
      {
        var at :| at in todo;
        todo := todo - {at};
        if at.dpid == d && remotes[at] == remote { found := found + {at.port}; }
      }
      if found == {} { return None; }
      var p :| p in found;
      AtMostOnePort(Value(), d, remote, p);
      port := Some(p);
    }
  }
}
