/**
 * When operations run one after the other, pool and registry together behave
 * as one map from subscribed clients to their sessions.
 */
module Sequential {
  import opened Text
  import opened Registry
  import opened World

  datatype Session = Session(pair: ConnPair, reg: Registration)

  /** Every subscribed client, with its session if it is connected. */
  type Sessions = map<Id, Option<Session>>

  /** A client is pooled exactly when its item is not void. */
  ghost predicate Coupled(w: State) {
    && Indexed(w.reg)
    && forall id :: id in w.pool <==> id in w.reg.items && w.reg.items[id].Held?
  }

  ghost function SessionOf(w: State, id: Id): Option<Session>
    requires Coupled(w) && id in w.reg.items
  {
    match w.reg.items[id]
    case Void => None
    case Held(reg) => Some(Session(w.pool[id], reg))
  }

  ghost function SessionsOf(w: State): Sessions
    requires Coupled(w)
  {
    map id | id in w.reg.items :: SessionOf(w, id)
  }

  // -------------------------------------------- the operations on one map

  function Subscribe(s: Sessions, id: Id): Sessions {
    if id in s then s else s[id := None]
  }

  function End(s: Sessions, id: Id): Sessions {
    if id in s then s[id := None] else s
  }

  /** No connected client serves any of the host names. */
  ghost predicate HostsFree(s: Sessions, hosts: seq<string>) {
    forall id :: id in s && s[id].Some? ==> Trimmed(s[id].value.reg.hosts) !! Trimmed(hosts)
  }

  /** A connection attempt, in terms of sessions alone. */
  ghost function Attend(s: Sessions, config: Config, conn: Conn, id: Id, a: Attempt): Sessions {
    if !a.identified then s
    else
      var s1 := if config.autoSubscribe then Subscribe(s, id) else s;
      if id !in s1 || !a.deadlineSet || (s1[id].Some? && a.alive) then s1
      else Welcome(End(s1, id), config, conn, id, a)
  }

  /** A client without a session gets one, if its tunnels can be built and its hosts are free. */
  ghost function Welcome(s: Sessions, config: Config, conn: Conn, id: Id, a: Attempt): Sessions {
    if a.dialed == None || a.handshake == None || a.handshake.value == [] then s
    else
      var (batch, error) := Build(config.baseDomain, a.handshake.value, EMPTY_BATCH);
      if error == None && HostsFree(s, batch.hosts)
      then s[id := Some(Session(ConnPair(conn, a.dialed.value), batch))]
      else s
  }

  // ------------------------------------------------------------- refinement

  /** The registry's host table answers the question of whether the hosts are free. */
  lemma HostsFreeMeans(w: State, hosts: seq<string>)
    requires Coupled(w)
    ensures HostsFree(SessionsOf(w), hosts) <==> FirstOccupied(w.reg.hosts, hosts) == None
  {
    var s := SessionsOf(w);
    if FirstOccupied(w.reg.hosts, hosts) == None {
      forall id | id in s && s[id].Some? ensures Trimmed(s[id].value.reg.hosts) !! Trimmed(hosts) {
        forall h | h in Trimmed(s[id].value.reg.hosts) ensures h !in Trimmed(hosts) {
          assert Owns(w.reg, id, h);
        }
      }
    } else {
      var h :| h in Trimmed(hosts) && h in w.reg.hosts;
      var id := w.reg.hosts[h];
      assert Owns(w.reg, id, h);
      assert s[id].Some?;
    }
  }

  lemma CloseEntryRefines(w: State, id: Id)
    requires Coupled(w) && id in w.pool
    ensures Coupled(CloseEntry(w, id))
    ensures SessionsOf(CloseEntry(w, id)) == End(SessionsOf(w), id)
  {
    var v := CloseEntry(w, id);
    ClearedIndexed(w.reg, id);
    assert v.reg.items == w.reg.items[id := Void];
    assert Coupled(v);
    forall j | j in v.reg.items ensures SessionOf(v, j) == End(SessionsOf(w), id)[j] {
      assert j != id ==> SessionOf(v, j) == SessionOf(w, j);
    }
  }

  lemma DeleteRefines(w: State, id: Id)
    requires Coupled(w)
    ensures Coupled(DeleteConn(w, id))
    ensures SessionsOf(DeleteConn(w, id)) == End(SessionsOf(w), id)
  {
    if id in w.pool {
      CloseEntryRefines(w, id);
    } else {
      assert id in w.reg.items ==> SessionOf(w, id) == None;
    }
  }

  lemma SubscribeRefines(w: State, id: Id)
    requires Coupled(w)
    ensures var v := w.(reg := Subscribed(w.reg, id));
            Coupled(v) && SessionsOf(v) == Subscribe(SessionsOf(w), id)
  {
    SubscribedIndexed(w.reg, id);
    var v := w.(reg := Subscribed(w.reg, id));
    assert Coupled(v);
    forall j | j in v.reg.items ensures SessionOf(v, j) == Subscribe(SessionsOf(w), id)[j] {}
  }

  lemma UnsubscribeRefines(w: State, id: Id)
    requires Coupled(w)
    ensures Coupled(AfterUnsubscribe(w, id))
    ensures SessionsOf(AfterUnsubscribe(w, id)) == SessionsOf(w) - {id}
  {
    DeleteRefines(w, id);
    var d := DeleteConn(w, id);
    var v := AfterUnsubscribe(w, id);
    UnsubscribedIndexed(d.reg, id);
    assert id !in d.pool;
    assert Coupled(v);
    forall j | j in v.reg.items ensures j in SessionsOf(w) && SessionOf(v, j) == SessionsOf(w)[j] {
      assert SessionOf(v, j) == SessionOf(d, j) == SessionsOf(d)[j];
    }
  }

  /** Closing a connection that was never pooled, or opening and closing listeners, changes no session. */
  lemma SameSessions(w: State, v: State)
    requires Coupled(w) && v.reg == w.reg && v.pool == w.pool
    ensures Coupled(v) && SessionsOf(v) == SessionsOf(w)
  {
    forall id | id in w.reg.items ensures Coupled(v) && SessionOf(v, id) == SessionOf(w, id) {}
  }

  /** From a client that is pooled but not registered yet to the end of its attempt. */
  lemma WelcomeRefines(w: State, config: Config, conn: Conn, id: Id, a: Attempt)
    requires Coupled(w) && id !in w.pool && id in w.reg.items && a.dialed.Some?
    ensures var p := w.(pool := w.pool[id := ConnPair(conn, a.dialed.value)]);
            var v := AfterPooled(p, config, id, a.handshake);
            Coupled(v) && SessionsOf(v) == Welcome(SessionsOf(w), config, conn, id, a)
  {
    var p := w.(pool := w.pool[id := ConnPair(conn, a.dialed.value)]);
    assert w.reg.items[id].Void?;
    if a.handshake == None || a.handshake.value == [] {
      RejectedRefines(w, p, id);
    } else {
      var offers := a.handshake.value;
      var (batch, error) := Build(config.baseDomain, offers, EMPTY_BATCH);
      HostsFreeMeans(w, batch.hosts);
      var o := AfterAddTunnels(p, config.baseDomain, offers, id);
      if AddTunnelsError(p, config.baseDomain, offers, id) == None {
        AcceptedRefines(w, o, id, ConnPair(conn, a.dialed.value), batch);
      } else {
        RejectedRefines(w, o, id);
      }
    }
  }

  /** Setting the item of a client that was just pooled gives it the session. */
  lemma AcceptedRefines(w: State, o: State, id: Id, pair: ConnPair, batch: Registration)
    requires Coupled(w) && id !in w.pool && Refusal(w.reg, batch, id) == None
    requires o.reg == AfterSet(w.reg, batch, id) && o.pool == w.pool[id := pair]
    ensures Coupled(o) && SessionsOf(o) == SessionsOf(w)[id := Some(Session(pair, batch))]
  {
    AfterSetIndexed(w.reg, batch, id);
    assert o.reg.items == w.reg.items[id := Held(batch)];
    assert Coupled(o);
    forall j | j in o.reg.items ensures SessionOf(o, j) == SessionsOf(w)[id := Some(Session(pair, batch))][j] {
      assert j != id ==> SessionOf(o, j) == SessionOf(w, j);
    }
  }

  /** Deleting a connection that was pooled for nothing restores the sessions. */
  lemma RejectedRefines(w: State, o: State, id: Id)
    requires Coupled(w) && id !in w.pool && id in w.reg.items
    requires id in o.pool && o.reg == w.reg && o.pool - {id} == w.pool
    ensures Coupled(DeleteConn(o, id)) && SessionsOf(DeleteConn(o, id)) == SessionsOf(w)
  {
    assert w.reg.items[id].Void?;
    SameSessions(w, DeleteConn(o, id));
  }

  /** A whole connection attempt. */
  lemma HandleRefines(w: State, config: Config, conn: Conn, id: Id, a: Attempt)
    requires Coupled(w)
    ensures Coupled(AfterHandle(w, config, conn, id, a))
    ensures SessionsOf(AfterHandle(w, config, conn, id, a)) == Attend(SessionsOf(w), config, conn, id, a)
  {
    SubscribeRefines(w, id);
    var v := Admitted(w, config, id);
    if !a.identified {
      SameSessions(w, CloseConn(w, conn));
    } else if id !in v.reg.items || !a.deadlineSet {
      SameSessions(v, CloseConn(v, conn));
    } else if id in v.pool && a.alive {
      SameSessions(v, CloseConn(v, conn));
      assert SessionOf(v, id).Some?;
    } else {
      DeleteRefines(v, id);
      var d := DeleteConn(v, id);
      assert id in v.pool <==> SessionOf(v, id).Some?;
      assert SessionsOf(d) == End(SessionsOf(v), id);
      if a.dialed == None {
        SameSessions(d, CloseConn(CloseConn(d, conn), conn));
      } else {
        WelcomeRefines(d, config, conn, id, a);
      }
    }
  }

  // ------------------------------------------------------------------- runs

  datatype Call =
    | CallSubscribe(id: Id)
    | CallHandle(conn: Conn, id: Id, attempt: Attempt)
    | CallUnsubscribe(id: Id)
    | CallDrop(id: Id)

  /** One operation from beginning to end; `CallDrop` is the pool losing a client's connection between handlers. */
  function Perform(w: State, config: Config, call: Call): State {
    match call
    case CallSubscribe(id) => w.(reg := Subscribed(w.reg, id))
    case CallHandle(conn, id, a) => AfterHandle(w, config, conn, id, a)
    case CallUnsubscribe(id) => AfterUnsubscribe(w, id)
    case CallDrop(id) => DeleteConn(w, id)
  }

  ghost function Specify(s: Sessions, config: Config, call: Call): Sessions {
    match call
    case CallSubscribe(id) => Subscribe(s, id)
    case CallHandle(conn, id, a) => Attend(s, config, conn, id, a)
    case CallUnsubscribe(id) => s - {id}
    case CallDrop(id) => End(s, id)
  }

  function PerformAll(w: State, config: Config, calls: seq<Call>): State
    decreases |calls|
  {
    if calls == [] then w else PerformAll(Perform(w, config, calls[0]), config, calls[1..])
  }

  ghost function SpecifyAll(s: Sessions, config: Config, calls: seq<Call>): Sessions
    decreases |calls|
  {
    if calls == [] then s else SpecifyAll(Specify(s, config, calls[0]), config, calls[1..])
  }

  /** Over every sequence of operations, pool and registry implement the one map of sessions. */
  lemma {:induction false} RunRefines(w: State, config: Config, calls: seq<Call>)
    requires Coupled(w)
    ensures Coupled(PerformAll(w, config, calls))
    ensures SessionsOf(PerformAll(w, config, calls)) == SpecifyAll(SessionsOf(w), config, calls)
    decreases |calls|
  {
    if calls != [] {
      match calls[0] {
        case CallSubscribe(id) => SubscribeRefines(w, id);
        case CallHandle(conn, id, a) => HandleRefines(w, config, conn, id, a);
        case CallUnsubscribe(id) => UnsubscribeRefines(w, id);
        case CallDrop(id) => DeleteRefines(w, id);
      }
      RunRefines(Perform(w, config, calls[0]), config, calls[1..]);
    }
  }
}
