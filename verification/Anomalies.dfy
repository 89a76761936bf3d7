/** Two things one might expect of the server that some interleavings break. */
module Anomalies {
  import opened Text
  import opened Proto
  import opened Registry
  import opened World
  import opened Lifecycle
  import opened Sessions
  import opened Solo

  /** A lone request for a TCP tunnel. */
  const TCP_REQUEST := Request("t", Tunnel(TCP, "", "0.0.0.0:1"))

  lemma ReachLeads(config: Config, c: Conn, m: Server, n: Server)
    requires Reachable(config, m) && Leads(config, c, m, n)
    ensures Reachable(config, n)
  {
    hide Runs, After, AllOwn;
    var a :| Runs(config, INITIAL, a) && After(config, INITIAL, a) == m;
    var b :| Runs(config, m, b) && AllOwn(config, m, b, c) && After(config, m, b) == n;
    RunsAppend(config, INITIAL, a, b);
  }

  /** A new connection of a subscribed client that is not pooled takes its place in the pool. */
  lemma Succeed(config: Config, m: Server, id: Id, d: Conn, dd: ClientConn) returns (n: Server)
    requires Reachable(config, m) && m.lock.Unlocked?
    requires id !in m.w.pool && id in m.w.reg.items && d !in m.handlers && dd !in m.wrapped
    ensures Reachable(config, n) && n.lock.Unlocked? && n.wrapped == m.wrapped[dd := d]
    ensures n.origins == m.origins && n.lookups == m.lookups
    ensures n.w == m.w.(pool := m.w.pool[id := ConnPair(d, dd)])
    ensures n.handlers == m.handlers[d := Handler(id, Handshaking)]
  {
    hide Leads, Reachable;
    DoAccept(config, d, m, id);
    var k := AcceptStep(m, d, id);
    ReachLeads(config, d, m, k);
    n := SucceedAccepted(config, k, id, d, dd);
  }

  lemma SucceedAccepted(config: Config, m: Server, id: Id, d: Conn, dd: ClientConn) returns (n: Server)
    requires Reachable(config, m) && m.lock.Unlocked? && At(m, d, Starting) && m.handlers[d].id == id
    requires id !in m.w.pool && id in m.w.reg.items && dd !in m.wrapped
    ensures Reachable(config, n) && n.lock.Unlocked? && n.wrapped == m.wrapped[dd := d]
    ensures n.origins == m.origins && n.lookups == m.lookups
    ensures n.w == m.w.(pool := m.w.pool[id := ConnPair(d, dd)])
    ensures n.handlers == m.handlers[d := Handler(id, Handshaking)]
  {
    hide Leads, Reachable;
    DoAdmit(config, d, m);
    var k := AdmitStep(config, m, d);
    assert Subscribed(m.w.reg, id) == m.w.reg;
    ReachLeads(config, d, m, k);
    DoAdd(config, d, k, false, Some(dd));
    n := AddStep(k, d, false, Some(dd));
    ReachLeads(config, d, k, n);
  }

  /** Some reachable server on which `id` is subscribed and its handler `c` was just pooled. */
  lemma PooledServer(config: Config, id: Id, c: Conn, cc: ClientConn) returns (m: Server)
    ensures Reachable(config, m) && m.lock.Unlocked?
    ensures m.handlers == map[c := Handler(id, Handshaking)] && m.wrapped == map[cc := c]
    ensures m.w == State(Records(map[id := Void], map[]), map[id := ConnPair(c, cc)], {}, {}, [])
  {
    assert Runs(config, INITIAL, []) && After(config, INITIAL, []) == INITIAL;
    ReachStep(config, INITIAL, Subscribe(id));
    m := Succeed(config, Next(config, INITIAL, Subscribe(id)), id, c, cc);
  }

  /** The pool finds the connection of a client without a registration dead, and finishes with it. */
  lemma Drop(config: Config, m: Server, id: Id) returns (n: Server)
    requires Reachable(config, m) && m.lock.Unlocked?
    requires id in m.w.pool && id in m.w.reg.items && m.w.reg.items[id].Void?
    ensures Reachable(config, n) && n.lock.Unlocked? && n.handlers == m.handlers && n.wrapped == m.wrapped
    ensures n.lookups == m.lookups
    ensures n.w == m.w.(pool := m.w.pool - {id}, closedConns := m.w.closedConns + {m.w.pool[id].conn})
  {
    hide Leads, Reachable;
    var c := m.w.pool[id].conn;
    ReachStep(config, m, MarkDead(id, m.w.pool[id].clientConn));
    var k := Lifecycle.Remove(m, id, LeavePool);
    var f := SoloFree(config, c, k);
    DoLeave(config, c, f);
    n := f.(lock := Unlocked);
    LeadsTrans(config, c, k, f, n);
    ReachLeads(config, c, k, n);
  }

  /** A handler whose connection is pooled gets a request for one TCP tunnel. */
  lemma Ask(config: Config, m: Server, id: Id, c: Conn) returns (n: Server)
    requires Reachable(config, m) && At(m, c, Handshaking) && IsPooled(m, c) && m.handlers[c].id == id
    ensures Reachable(config, n) && n.lock == m.lock && n.w == m.w && n.wrapped == m.wrapped
    ensures n.handlers == m.handlers[c := Handler(id, Opening([TCP_REQUEST], EMPTY_BATCH))]
  {
    hide Leads, Reachable;
    var todo := [TCP_REQUEST];
    DoHandshake(config, c, m, Some(todo));
    n := HandshakeStep(m, c, Some(todo));
    ReachLeads(config, c, m, n);
  }

  /** It opens the listener and registers it. */
  lemma RegisterOpened(config: Config, m: Server, id: Id, c: Conn, l: Listener) returns (n: Server)
    requires Reachable(config, m) && At(m, c, Opening([TCP_REQUEST], EMPTY_BATCH)) && m.handlers[c].id == id
    requires id in m.w.reg.items && m.w.reg.items[id].Void? && l !in m.w.everOpened
    ensures Reachable(config, n) && n.lock == m.lock && n.w.pool == m.w.pool && Registered(n, id)
    ensures n.wrapped == m.wrapped && n.handlers == m.handlers[c := Handler(id, Finished)]
    ensures id in n.origins && n.origins[id] == Origin(c, IsPooled(m, c))
  {
    hide Leads, Reachable;
    DoOpen(config, c, m, Some(l));
    var k := OpenStep(config.baseDomain, m, c, Some(l));
    OpenedOne(config.baseDomain, m, c, l);
    ReachLeads(config, c, m, k);
    DoSet(config, c, k);
    n := SetStep(k, c);
    SetOne(k, id, c, l);
    ReachLeads(config, c, k, n);
  }

  lemma OpenedOne(base: string, m: Server, c: Conn, l: Listener)
    requires At(m, c, Opening([TCP_REQUEST], EMPTY_BATCH))
    ensures var k := OpenStep(base, m, c, Some(l));
            && k.handlers == m.handlers[c := m.handlers[c].(pc := Opening([], Registration([], [l])))]
            && k.w == m.w.(everOpened := k.w.everOpened) && k.lock == m.lock && k.wrapped == m.wrapped
  {
    var none: seq<Listener> := [];
    assert [TCP_REQUEST][1..] == [] && none + [l] == [l];
  }

  lemma SetOne(k: Server, id: Id, c: Conn, l: Listener)
    requires At(k, c, Opening([], Registration([], [l]))) && k.handlers[c].id == id
    requires id in k.w.reg.items && k.w.reg.items[id].Void?
    ensures var n := SetStep(k, c);
            && n.lock == k.lock && n.w.pool == k.w.pool && n.wrapped == k.wrapped && Registered(n, id)
            && n.handlers == k.handlers[c := Handler(id, Finished)]
            && id in n.origins && n.origins[id] == Origin(c, IsPooled(k, c))
  {
  }

  /**
   * "Registered implies connected" fails: a connection lost between handshake and
   * `set` leaves a registration behind it.
   */
  lemma RegisteredNotConnected(config: Config, id: Id, c: Conn, cc: ClientConn, l: Listener)
    returns (m: Server)
    ensures Reachable(config, m) && m.lock.Unlocked? && Registered(m, id) && id !in m.w.pool
    ensures id in m.origins && m.origins[id].conn == c && !IsPooled(m, c)
    ensures m.wrapped == map[cc := c] && m.handlers == map[c := Handler(id, Finished)]
  {
    hide Reachable;
    m := PooledServer(config, id, c, cc);
    m := Ask(config, m, id, c);
    m := Drop(config, m, id);
    m := RegisterOpened(config, m, id, c, l);
  }

  /** The client can then be connected through another connection than the one that registered it. */
  lemma ConnectedThroughAnother(config: Config, id: Id, c: Conn, d: Conn, cc: ClientConn, dd: ClientConn, l: Listener)
    returns (m: Server)
    requires c != d && cc != dd
    ensures Reachable(config, m) && m.lock.Unlocked? && Registered(m, id) && StoredAt(m, d, id)
    ensures id in m.origins && m.origins[id].conn == c && !IsPooled(m, c)
  {
    hide Reachable;
    m := RegisteredNotConnected(config, id, c, cc, l);
    m := Succeed(config, m, id, d, dd);
  }

  /** A rejecting handler can close its successor's connection. */
  lemma RejectClosesSuccessor(config: Config, id: Id, c: Conn, d: Conn, cc: ClientConn, dd: ClientConn)
    returns (m: Server)
    requires c != d && cc != dd
    ensures Reachable(config, m) && Enabled(m, Reject(c)) && StoredAt(m, d, id) && d !in m.w.closedConns
    ensures d in Next(config, m, Reject(c)).w.closedConns
  {
    m := PooledServer(config, id, c, cc);
    m := Drop(config, m, id);
    m := Succeed(config, m, id, d, dd);
    ReachStep(config, m, Handshake(c, None));
    m := Next(config, m, Handshake(c, None));
    ConnectionConservation(config, m, d);
  }

  /** An eviction can come after the connection that it is for was replaced; it then does nothing. */
  lemma LateEviction(config: Config, id: Id, c: Conn, d: Conn, cc: ClientConn, dd: ClientConn)
    returns (m: Server)
    requires c != d && cc != dd
    ensures Reachable(config, m) && m.lock.Unlocked? && id in m.w.pool && m.w.pool[id] == ConnPair(d, dd)
    ensures Enabled(m, Evict(id, ConnPair(c, cc))) && Next(config, m, Evict(id, ConnPair(c, cc))) == m
  {
    m := PooledServer(config, id, c, cc);
    ReachStep(config, m, Lookup(id));
    m := Next(config, m, Lookup(id));
    m := Drop(config, m, id);
    m := Succeed(config, m, id, d, dd);
  }
}
