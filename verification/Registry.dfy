/** The server's registry of subscribed clients and their hosts (registry.go). */
module Registry {
  import opened Text
  import opened NetAddr
  import IdText

  type Id = IdText.Id

  /** A handle on a listening socket. */
  type Listener = nat

  datatype Registration = Registration(hosts: seq<string>, listeners: seq<Listener>)

  /** `Void` is the shared item of a client that is subscribed but holds nothing; a registration with empty lists is not void. */
  datatype Slot = Void | Held(reg: Registration)

  datatype Records = Records(items: map<Id, Slot>, hosts: map<string, Id>)

  const EMPTY := Records(map[], map[])

  datatype SetError = NotSubscribed | Overwrite | HostOccupied(host: string)

  // --------------------------------------------- what each operation computes

  function Trimmed(hosts: seq<string>): set<string> {
    set h | h in hosts :: TrimPort(h)
  }

  function Subscribed(s: Records, id: Id): Records {
    if id in s.items then s else s.(items := s.items[id := Void])
  }

  function HostsOf(slot: Slot): seq<string> {
    match slot
    case Void => []
    case Held(reg) => reg.hosts
  }

  function Unsubscribed(s: Records, id: Id): Records {
    if id !in s.items then s
    else Records(s.items - {id}, s.hosts - Trimmed(HostsOf(s.items[id])))
  }

  function Cleared(s: Records, id: Id): Records {
    if id !in s.items || s.items[id].Void? then s
    else Records(s.items[id := Void], s.hosts - Trimmed(s.items[id].reg.hosts))
  }

  /** The registration that `clear` returns, if any. */
  function HeldBy(s: Records, id: Id): Option<Registration> {
    if id in s.items && s.items[id].Held? then Some(s.items[id].reg) else None
  }

  function FirstOccupied(taken: map<string, Id>, hosts: seq<string>): (r: Option<string>)
    ensures r == None <==> Trimmed(hosts) !! taken.Keys
  {
    if hosts == [] then None
    else if TrimPort(hosts[0]) in taken then
      assert TrimPort(hosts[0]) in Trimmed(hosts);
      Some(hosts[0])
    else
      TrimmedCons(hosts);
      FirstOccupied(taken, hosts[1..])
  }

  lemma TrimmedCons(hosts: seq<string>)
    requires hosts != []
    ensures Trimmed(hosts) == {TrimPort(hosts[0])} + Trimmed(hosts[1..])
  {
    assert hosts == [hosts[0]] + hosts[1..];
  }

  lemma TrimmedSnoc(hosts: seq<string>, h: string)
    ensures Trimmed(hosts + [h]) == Trimmed(hosts) + {TrimPort(h)}
  {
  }

  /** `hosts` with every listed host pointing at `id`. */
  function Assigned(hosts: map<string, Id>, list: seq<string>, id: Id): map<string, Id> {
    hosts + (map h | h in Trimmed(list) :: id)
  }

  lemma AssignedSnoc(hosts: map<string, Id>, list: seq<string>, h: string, id: Id)
    ensures Assigned(hosts, list + [h], id) == Assigned(hosts, list, id)[TrimPort(h) := id]
  {
    hide Trimmed, TrimPort;
    TrimmedSnoc(list, h);
  }

  /** Why `set` refuses, if it does. */
  function Refusal(s: Records, reg: Registration, id: Id): Option<SetError> {
    if id !in s.items then Some(NotSubscribed)
    else if s.items[id].Held? then Some(Overwrite)
    else match FirstOccupied(s.hosts, reg.hosts)
      case Some(h) => Some(HostOccupied(h))
      case None => None
  }

  function AfterSet(s: Records, reg: Registration, id: Id): Records {
    if Refusal(s, reg, id).Some? then s
    else Records(s.items[id := Held(reg)], Assigned(s.hosts, reg.hosts, id))
  }

  function Owner(s: Records, hostPort: string): Option<Id> {
    var h := TrimPort(hostPort);
    if h in s.hosts then Some(s.hosts[h]) else None
  }

  // ------------------------------------------------------------- the registry

  /** `registry`; each method is one critical section under the registry's mutex. */
  class Table {
    var items: map<Id, Slot>
    var hosts: map<string, Id>

    function Contents(): Records
      reads this
    {
      Records(items, hosts)
    }

    constructor ()
      ensures Contents() == EMPTY
    {
      items, hosts := map[], map[];
    }

    method Subscribe(id: Id)
      modifies this
      ensures Contents() == Subscribed(old(Contents()), id)
    {
      if id in items {
        return;
      }
      items := items[id := Void];
    }

    method IsSubscribed(id: Id) returns (ok: bool)
      ensures ok <==> id in items
    {
      ok := id in items;
    }

    method Subscriber(hostPort: string) returns (id: Option<Id>)
      ensures id == Owner(Contents(), hostPort)
    {
      var host := TrimPort(hostPort);
      if host !in hosts {
        return None;
      }
      return Some(hosts[host]);
    }

    /** Deletes every listed host from the index. */
    method DeleteHosts(list: seq<string>)
      modifies this`hosts
      ensures hosts == old(hosts) - Trimmed(list)
    {
      assert list[..0] == [];
      for i := 0 to |list|
        invariant hosts == old(hosts) - Trimmed(list[..i])
      {
        assert list[..i + 1] == list[..i] + [list[i]];
        TrimmedSnoc(list[..i], list[i]);
        hosts := hosts - {TrimPort(list[i])};
      }
      assert list[..|list|] == list;
    }

    /** The first listed host that already has an owner. */
    method FindOccupied(list: seq<string>) returns (host: Option<string>)
      ensures host == FirstOccupied(hosts, list)
    {
      for i := 0 to |list|
        invariant FirstOccupied(hosts, list) == FirstOccupied(hosts, list[i..])
      {
        if TrimPort(list[i]) in hosts {
          return Some(list[i]);
        }
      }
      return None;
    }

    /** Points every listed host at `id`. */
    method PutHosts(list: seq<string>, id: Id)
      modifies this`hosts
      ensures hosts == Assigned(old(hosts), list, id)
    {
      assert Assigned(hosts, list[..0], id) == hosts;
      for i := 0 to |list|
        invariant hosts == Assigned(old(hosts), list[..i], id)
      {
        hide Assigned;
        assert list[..i + 1] == list[..i] + [list[i]];
        AssignedSnoc(old(hosts), list[..i], list[i], id);
        hosts := hosts[TrimPort(list[i]) := id];
      }
      assert list[..|list|] == list;
    }

    method Unsubscribe(id: Id) returns (item: Option<Slot>)
      modifies this
      ensures Contents() == Unsubscribed(old(Contents()), id)
      ensures item == if id in old(items) then Some(old(items)[id]) else None
    {
      if id !in items {
        return None;
      }
      item := Some(items[id]);
      DeleteHosts(HostsOf(items[id]));
      items := items - {id};
    }

    method Set(reg: Registration, id: Id) returns (error: Option<SetError>)
      modifies this
      ensures error == Refusal(old(Contents()), reg, id)
      ensures Contents() == AfterSet(old(Contents()), reg, id)
    {
      if id !in items {
        return Some(NotSubscribed);
      }
      if items[id].Held? {
        return Some(Overwrite);
      }
      var occupied := FindOccupied(reg.hosts);
      if occupied.Some? {
        return Some(HostOccupied(occupied.value));
      }
      PutHosts(reg.hosts, id);
      items := items[id := Held(reg)];
      return None;
    }

    method Clear(id: Id) returns (item: Option<Registration>)
      modifies this
      ensures Contents() == Cleared(old(Contents()), id)
      ensures item == HeldBy(old(Contents()), id)
    {
      if id !in items || items[id].Void? {
        return None;
      }
      item := Some(items[id].reg);
      DeleteHosts(items[id].reg.hosts);
      items := items[id := Void];
    }
  }

  // ------------------------------------------------------- the inverse index

  ghost predicate Owns(s: Records, id: Id, h: string) {
    id in s.items && s.items[id].Held? && h in Trimmed(s.items[id].reg.hosts)
  }

  /** `hosts` is the inverse index of `items`: it maps `h` to `id` exactly when `h` is a trimmed host of `id`'s registration. */
  ghost predicate Indexed(s: Records) {
    forall h, id :: (h in s.hosts && s.hosts[h] == id) <==> Owns(s, id, h)
  }

  datatype Op =
    | OpSubscribe(id: Id)
    | OpUnsubscribe(id: Id)
    | OpSet(reg: Registration, id: Id)
    | OpClear(id: Id)

  function Apply(s: Records, op: Op): Records {
    match op
    case OpSubscribe(id) => Subscribed(s, id)
    case OpUnsubscribe(id) => Unsubscribed(s, id)
    case OpSet(reg, id) => AfterSet(s, reg, id)
    case OpClear(id) => Cleared(s, id)
  }

  function Run(s: Records, ops: seq<Op>): Records
    decreases |ops|
  {
    if ops == [] then s else Run(Apply(s, ops[0]), ops[1..])
  }

  lemma SubscribedIndexed(s: Records, id: Id)
    requires Indexed(s)
    ensures Indexed(Subscribed(s, id))
  {
    var t := Subscribed(s, id);
    forall h, j ensures (h in t.hosts && t.hosts[h] == j) <==> Owns(t, j, h) {
      assert Owns(s, j, h) <==> Owns(t, j, h);
    }
  }

  lemma AfterSetIndexed(s: Records, reg: Registration, id: Id)
    requires Indexed(s)
    ensures Indexed(AfterSet(s, reg, id))
  {
    var t := AfterSet(s, reg, id);
    if Refusal(s, reg, id) == None {
      forall h, j ensures (h in t.hosts && t.hosts[h] == j) <==> Owns(t, j, h) {
        if j != id {
          assert Owns(s, j, h) <==> Owns(t, j, h);
        } else {
          assert !Owns(s, id, h);
        }
      }
    }
  }

  /** Dropping one client's hosts leaves the index of all the others. */
  lemma DropIndexed(s: Records, t: Records, id: Id)
    requires Indexed(s) && id in s.items
    requires t.hosts == s.hosts - Trimmed(HostsOf(s.items[id]))
    requires t.items - {id} == s.items - {id}
    requires id in t.items ==> t.items[id].Void?
    ensures Indexed(t)
  {
    forall h, j ensures (h in t.hosts && t.hosts[h] == j) <==> Owns(t, j, h) {
      if j != id {
        assert j in t.items <==> j in t.items - {id};
        assert j in s.items <==> j in s.items - {id};
        assert j in t.items ==> t.items[j] == (t.items - {id})[j] == (s.items - {id})[j] == s.items[j];
        assert Owns(s, j, h) <==> Owns(t, j, h);
        assert Owns(s, j, h) ==> s.hosts[h] == j;
        assert Owns(s, j, h) ==> !Owns(s, id, h);
      } else {
        assert (h in s.hosts && s.hosts[h] == id) ==> Owns(s, id, h);
      }
    }
  }

  lemma ClearedIndexed(s: Records, id: Id)
    requires Indexed(s)
    ensures Indexed(Cleared(s, id))
  {
    if id in s.items && s.items[id].Held? {
      var t := Cleared(s, id);
      assert t.items - {id} == s.items - {id};
      DropIndexed(s, t, id);
    }
  }

  lemma UnsubscribedIndexed(s: Records, id: Id)
    requires Indexed(s)
    ensures Indexed(Unsubscribed(s, id))
  {
    if id in s.items {
      var t := Unsubscribed(s, id);
      assert t.items - {id} == s.items - {id};
      DropIndexed(s, t, id);
    }
  }

  lemma ApplyIndexed(s: Records, op: Op)
    requires Indexed(s)
    ensures Indexed(Apply(s, op))
  {
    match op
    case OpSubscribe(id) => SubscribedIndexed(s, id);
    case OpUnsubscribe(id) => UnsubscribedIndexed(s, id);
    case OpSet(reg, id) => AfterSetIndexed(s, reg, id);
    case OpClear(id) => ClearedIndexed(s, id);
  }

  /** `h` is listed, its trimmed form has an owner, and that of no host before it has. */
  ghost predicate IsFirstOccupied(s: Records, hosts: seq<string>, h: string) {
    exists k :: 0 <= k < |hosts| && hosts[k] == h && TrimPort(h) in s.hosts
                && forall j :: 0 <= j < k ==> TrimPort(hosts[j]) !in s.hosts
  }

  lemma {:induction false} FirstOccupiedIs(s: Records, hosts: seq<string>)
    ensures FirstOccupied(s.hosts, hosts).Some? ==> IsFirstOccupied(s, hosts, FirstOccupied(s.hosts, hosts).value)
  {
    hide TrimPort;
    if hosts != [] && TrimPort(hosts[0]) !in s.hosts && FirstOccupied(s.hosts, hosts).Some? {
      FirstOccupiedIs(s, hosts[1..]);
      var h := FirstOccupied(s.hosts, hosts).value;
      var k :| 0 <= k < |hosts| - 1 && hosts[1..][k] == h && TrimPort(h) in s.hosts
               && forall j :: 0 <= j < k ==> TrimPort(hosts[1..][j]) !in s.hosts;
      assert hosts[k + 1] == h;
      assert forall j :: 0 < j < k + 1 ==> hosts[j] == hosts[1..][j - 1];
    }
  }

  /**
   * Why `set` refuses, and that it then changes nothing: the client is not
   * subscribed; it is, and has an item; it has none, and a host is taken, of
   * which the first is named. In no other case does it refuse.
   */
  lemma SetRefuses(s: Records, reg: Registration, id: Id)
    ensures id !in s.items ==> Refusal(s, reg, id) == Some(NotSubscribed)
    ensures id in s.items && s.items[id] != Void ==> Refusal(s, reg, id) == Some(Overwrite)
    ensures id in s.items && s.items[id] == Void && (exists h :: h in reg.hosts && TrimPort(h) in s.hosts) ==>
              && Refusal(s, reg, id).Some? && Refusal(s, reg, id).value.HostOccupied?
              && IsFirstOccupied(s, reg.hosts, Refusal(s, reg, id).value.host)
    ensures id in s.items && s.items[id] == Void && (forall h :: h in reg.hosts ==> TrimPort(h) !in s.hosts) ==>
              Refusal(s, reg, id) == None
    ensures Refusal(s, reg, id).Some? ==> AfterSet(s, reg, id) == s
  {
    hide TrimPort, IsFirstOccupied;
    FirstOccupiedIs(s, reg.hosts);
    if h :| h in reg.hosts && TrimPort(h) in s.hosts {
      assert TrimPort(h) in Trimmed(reg.hosts);
    }
  }

  /** In every registry reached from the empty one, failed operations and duplicate hosts included, the index is exact. */
  lemma {:induction false} RunIndexed(s: Records, ops: seq<Op>)
    requires Indexed(s)
    ensures Indexed(Run(s, ops))
    decreases |ops|
  {
    if ops != [] {
      ApplyIndexed(s, ops[0]);
      RunIndexed(Apply(s, ops[0]), ops[1..]);
    }
  }

  /** From the empty registry: no host has two owners, and every owner is subscribed. */
  lemma ReachableOwners(ops: seq<Op>, h: string, a: Id, b: Id)
    ensures var s := Run(EMPTY, ops);
            && (Owns(s, a, h) && Owns(s, b, h) ==> a == b)
            && (h in s.hosts ==> s.hosts[h] in s.items && Owns(s, s.hosts[h], h))
  {
    forall k, j ensures !Owns(EMPTY, j, k) {}
    RunIndexed(EMPTY, ops);
    var s := Run(EMPTY, ops);
    if Owns(s, a, h) && Owns(s, b, h) {
      assert s.hosts[h] == a && s.hosts[h] == b;
    }
    if h in s.hosts {
      assert Owns(s, s.hosts[h], h);
    }
  }

  /** The host table carries no information of its own: the items determine it. */
  lemma HostsDetermined(s: Records, t: Records)
    requires Indexed(s) && Indexed(t) && s.items == t.items
    ensures s.hosts == t.hosts
  {
    forall h ensures h in s.hosts <==> h in t.hosts
      ensures h in s.hosts && h in t.hosts ==> s.hosts[h] == t.hosts[h]
    {
      if h in s.hosts { assert Owns(s, s.hosts[h], h) && Owns(t, s.hosts[h], h); }
      if h in t.hosts { assert Owns(t, t.hosts[h], h) && Owns(s, t.hosts[h], h); }
    }
  }

  /** `clear` undoes an accepted `set`, hosts and all. */
  lemma ClearUndoesSet(s: Records, reg: Registration, id: Id)
    requires Indexed(s) && Refusal(s, reg, id) == None
    ensures Cleared(AfterSet(s, reg, id), id) == s
    ensures HeldBy(AfterSet(s, reg, id), id) == Some(reg)
  {
    var t := AfterSet(s, reg, id);
    AfterSetIndexed(s, reg, id);
    ClearedIndexed(t, id);
    assert Cleared(t, id).items == s.items;
    HostsDetermined(Cleared(t, id), s);
  }

  /** Clearing or unsubscribing one client leaves every other client's item and hosts alone. */
  lemma ClearLeavesOthers(s: Records, id: Id, other: Id, h: string)
    requires Indexed(s) && id != other && Owns(s, other, h)
    ensures Owns(Cleared(s, id), other, h) && Owns(Unsubscribed(s, id), other, h)
    ensures h in Cleared(s, id).hosts && Cleared(s, id).hosts[h] == other
    ensures h in Unsubscribed(s, id).hosts && Unsubscribed(s, id).hosts[h] == other
  {
    hide Trimmed;
    ClearedIndexed(s, id);
    UnsubscribedIndexed(s, id);
    OthersStay(s, id, other);
    assert Owns(Cleared(s, id), other, h) && Owns(Unsubscribed(s, id), other, h);
    IndexLookup(Cleared(s, id), other, h);
    IndexLookup(Unsubscribed(s, id), other, h);
  }

  lemma OthersStay(s: Records, id: Id, other: Id)
    requires id != other && other in s.items
    ensures other in Cleared(s, id).items && Cleared(s, id).items[other] == s.items[other]
    ensures other in Unsubscribed(s, id).items && Unsubscribed(s, id).items[other] == s.items[other]
  {
  }

  lemma IndexLookup(s: Records, id: Id, h: string)
    requires Indexed(s) && Owns(s, id, h)
    ensures h in s.hosts && s.hosts[h] == id
  {
  }
}
