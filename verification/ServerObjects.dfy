/**
 * The server's objects, updated in place: the connection pool (pool.go) and
 * the session handling of server.go. Each method is proved to do to the
 * shared state what `World` says the operation does when it runs alone.
 */
module ServerObjects {
  import opened Text
  import opened Registry
  import opened World

  /** What the operating system knows of the server's sockets. */
  class Sockets {
    var everOpened: set<Listener>
    var closed: seq<Listener>
    var closedConns: set<Conn>

    constructor ()
      ensures everOpened == {} && closed == [] && closedConns == {}
    {
      everOpened, closed, closedConns := {}, [], {};
    }

    method Open(l: Listener)
      modifies this`everOpened
      ensures everOpened == old(everOpened) + {l}
    {
      everOpened := everOpened + {l};
    }

    method CloseListener(l: Listener)
      modifies this`closed
      ensures closed == old(closed) + [l]
    {
      closed := closed + [l];
    }

    method CloseAll(ls: seq<Listener>)
      modifies this`closed
      ensures closed == old(closed) + ls
    {
      assert ls[..0] == [];
      for i := 0 to |ls|
        invariant closed == old(closed) + ls[..i]
      {
        assert ls[..i + 1] == ls[..i] + [ls[i]];
        CloseListener(ls[i]);
      }
      assert ls[..|ls|] == ls;
    }

    method CloseConn(conn: Conn)
      modifies this`closedConns
      ensures closedConns == old(closedConns) + {conn}
    {
      closedConns := closedConns + {conn};
    }
  }

  /** The pool's free callback, bound to the server's registry. */
  class Disconnector {
    const registry: Table
    const sockets: Sockets

    constructor (registry: Table, sockets: Sockets)
      ensures this.registry == registry && this.sockets == sockets
    {
      this.registry, this.sockets := registry, sockets;
    }

    /** `Server.disconnected` */
    method Disconnected(id: Id)
      modifies registry, sockets`closed
      ensures registry.Contents() == Cleared(old(registry.Contents()), id)
      ensures sockets.closed == old(sockets.closed) + ListenersOf(HeldBy(old(registry.Contents()), id))
    {
      var item := registry.Clear(id);
      if item == None {
        assert sockets.closed == sockets.closed + [];
        return;
      }
      sockets.CloseAll(item.value.listeners);
    }
  }

  // ------------------------------------------------------------- pool entries

  /** Every key is the printed address of a client. */
  ghost predicate Keyed(conns: map<string, ConnPair>) {
    forall k :: k in conns ==> k == Addr(Identifier(k))
  }

  /** The pool's entries by client instead of by address. */
  ghost function ById(conns: map<string, ConnPair>): map<Id, ConnPair>
    requires Keyed(conns)
  {
    var ids := set k | k in conns :: Identifier(k);
    map id | id in ids :: conns[Addr(id)]
  }

  lemma ByIdLookup(conns: map<string, ConnPair>, id: Id)
    requires Keyed(conns)
    ensures id in ById(conns) <==> Addr(id) in conns
    ensures id in ById(conns) ==> ById(conns)[id] == conns[Addr(id)]
  {
    IdentifierOfAddr(id);
  }

  lemma ByIdInsert(conns: map<string, ConnPair>, id: Id, pair: ConnPair)
    requires Keyed(conns)
    ensures Keyed(conns[Addr(id) := pair])
    ensures ById(conns[Addr(id) := pair]) == ById(conns)[id := pair]
  {
    hide Addr, Identifier;
    IdentifierOfAddr(id);
    var after := conns[Addr(id) := pair];
    forall j ensures j in ById(after) <==> j in ById(conns)[id := pair]
      ensures j in ById(after) ==> ById(after)[j] == ById(conns)[id := pair][j]
    {
      ByIdLookup(conns, j);
      ByIdLookup(after, j);
      if Addr(j) == Addr(id) { AddrInjective(j, id); }
    }
  }

  lemma ByIdDelete(conns: map<string, ConnPair>, id: Id)
    requires Keyed(conns)
    ensures Keyed(conns - {Addr(id)})
    ensures ById(conns - {Addr(id)}) == ById(conns) - {id}
  {
    hide Addr, Identifier;
    var after := conns - {Addr(id)};
    forall j ensures j in ById(after) <==> j in ById(conns) && j != id
      ensures j in ById(after) && j in ById(conns) ==> ById(after)[j] == ById(conns)[j]
    {
      ByIdLookup(conns, j);
      ByIdLookup(after, j);
      if Addr(j) == Addr(id) { AddrInjective(j, id); }
    }
  }

  /** The transport never hands out a client connection that the pool already has. */
  ghost predicate NewClientConn(pool: map<Id, ConnPair>, cc: ClientConn) {
    forall j :: j in pool ==> pool[j].clientConn != cc
  }

  /** `connPool` */
  class ConnPool {
    var conns: map<string, ConnPair>
    const free: Disconnector

    ghost predicate Valid()
      reads this
    {
      Keyed(conns) && DistinctConns(ById(conns))
    }

    /** Pool, registry and sockets as one value. */
    ghost function Contents(): State
      requires Valid()
      reads this, free.registry, free.sockets
    {
      State(free.registry.Contents(), ById(conns), free.sockets.closedConns, free.sockets.everOpened, free.sockets.closed)
    }

    constructor (free: Disconnector)
      ensures this.free == free && conns == map[] && Valid()
    {
      this.free := free;
      conns := map[];
    }

    /** `connPool.close`: the callback gets the client whose entry goes. */
    method Close(pair: ConnPair, addr: string)
      requires Valid() && addr in conns && conns[addr] == pair
      modifies this`conns, free.registry, free.sockets`closed, free.sockets`closedConns
      ensures Valid()
      ensures Identifier(addr) in old(Contents()).pool
      ensures Contents() == CloseEntry(old(Contents()), Identifier(addr))
    {
      hide Addr, Identifier;
      var id := Identifier(addr);
      ByIdLookup(conns, id);
      ByIdDelete(conns, id);
      free.sockets.CloseConn(pair.conn);
      conns := conns - {addr};
      free.Disconnected(id);
    }

    method AddConn(conn: Conn, id: Id, alive: bool, dialed: Option<ClientConn>) returns (error: Option<AddError>)
      requires Valid()
      requires dialed.Some? ==> NewClientConn(ById(conns), dialed.value)
      modifies this`conns, free.registry, free.sockets`closed, free.sockets`closedConns
      ensures Valid()
      ensures error == AddConnError(old(Contents()), id, alive, dialed)
      ensures Contents() == AfterAddConn(old(Contents()), conn, id, alive, dialed)
    {
      hide Addr, Identifier;
      var addr := Addr(id);
      ByIdLookup(conns, id);
      IdentifierOfAddr(id);
      if addr in conns {
        if !alive {
          Close(conns[addr], addr);
        } else {
          return Some(AlreadyConnected);
        }
      }
      if dialed == None {
        free.sockets.CloseConn(conn);
        return Some(NoClientConn);
      }
      ByIdInsert(conns, id, ConnPair(conn, dialed.value));
      conns := conns[addr := ConnPair(conn, dialed.value)];
      return None;
    }

    method DeleteConn(id: Id)
      requires Valid()
      modifies this`conns, free.registry, free.sockets`closed, free.sockets`closedConns
      ensures Valid()
      ensures Contents() == World.DeleteConn(old(Contents()), id)
    {
      hide Addr, Identifier;
      var addr := Addr(id);
      ByIdLookup(conns, id);
      IdentifierOfAddr(id);
      if addr in conns {
        Close(conns[addr], addr);
      }
    }

    /** `MarkDead` looks through the entries in any order. */
    method MarkDead(cc: ClientConn)
      requires Valid()
      modifies this`conns, free.registry, free.sockets`closed, free.sockets`closedConns
      ensures Valid()
      ensures Contents() == AfterMarkDead(old(Contents()), cc)
    {
      hide Addr, Identifier;
      var rest := conns.Keys;
      while rest != {}
        invariant Valid() && conns == old(conns) && Contents() == old(Contents())
        invariant rest <= conns.Keys
        invariant forall k :: k in conns && conns[k].clientConn == cc ==> k in rest
        decreases |rest|
      {
        var addr :| addr in rest;
        if conns[addr].clientConn == cc {
          ByIdLookup(conns, Identifier(addr));
          Close(conns[addr], addr);
          return;
        }
        rest := rest - {addr};
      }
      forall id | id in ById(conns) ensures ById(conns)[id].clientConn != cc {
        ByIdLookup(conns, id);
      }
    }

    /**
     * `GetClientConn`: an unusable connection is evicted if it is still there.
     * `usable` is what CanTakeNewRequest says of the connection that is found.
     */
    method GetClientConn(addr: string, usable: bool) returns (cc: Option<ClientConn>)
      requires Valid()
      modifies this`conns, free.registry, free.sockets`closed, free.sockets`closedConns
      ensures Valid()
      ensures var w := old(Contents());
              var id := Identifier(addr);
              && (cc.Some? <==> addr in old(conns) && usable)
              && (cc.Some? ==> id in w.pool && cc.value == w.pool[id].clientConn)
              && (addr in old(conns) && !usable ==> id in w.pool && Contents() == CloseEntry(w, id))
              && (addr !in old(conns) || usable ==> Contents() == w)
    {
      hide Addr, Identifier;
      if addr !in conns {
        return None;
      }
      ByIdLookup(conns, Identifier(addr));
      if usable {
        return Some(conns[addr].clientConn);
      }
      Evict(addr, conns[addr].clientConn);
      return None;
    }

    /** The second critical section of `GetClientConn`. */
    method Evict(addr: string, found: ClientConn)
      requires Valid()
      modifies this`conns, free.registry, free.sockets`closed, free.sockets`closedConns
      ensures Valid()
      ensures addr == Addr(Identifier(addr)) ==> Contents() == AfterEvict(old(Contents()), Identifier(addr), found)
      ensures addr !in old(conns) ==> Contents() == old(Contents())
    {
      hide Addr, Identifier;
      ByIdLookup(conns, Identifier(addr));
      if addr in conns && conns[addr].clientConn == found {
        Close(conns[addr], addr);
      }
    }
  }

  // ---------------------------------------------------------------- the server

  lemma RefusedUnchanged(s: Records, reg: Registration, id: Id)
    requires Refusal(s, reg, id).Some?
    ensures AfterSet(s, reg, id) == s
  {
  }

  class Server {
    const registry: Table
    const sockets: Sockets
    const pool: ConnPool
    const config: Config

    ghost predicate Valid()
      reads this, pool
    {
      pool.free.registry == registry && pool.free.sockets == sockets && pool.Valid()
    }

    ghost function Contents(): State
      requires Valid()
      reads this, pool, registry, sockets
    {
      pool.Contents()
    }

    constructor (config: Config)
      ensures Valid() && this.config == config
      ensures Contents() == State(EMPTY, map[], {}, {}, [])
      ensures fresh(registry) && fresh(sockets) && fresh(pool)
    {
      var r := new Table();
      var s := new Sockets();
      var d := new Disconnector(r, s);
      var p := new ConnPool(d);
      registry, sockets, pool, this.config := r, s, p, config;
    }

    /** The loop of `addTunnels`. */
    method BuildBatch(offers: seq<Offer>) returns (batch: Registration, error: Option<TunnelError>)
      modifies sockets`everOpened
      ensures (batch, error) == Build(config.baseDomain, offers, EMPTY_BATCH)
      ensures sockets.everOpened == old(sockets.everOpened) + (set l | l in batch.listeners)
    {
      batch, error := EMPTY_BATCH, None;
      var i := 0;
      while i < |offers| && error == None
        invariant 0 <= i <= |offers|
        invariant Build(config.baseDomain, offers, EMPTY_BATCH)
                  == if error == None then Build(config.baseDomain, offers[i..], batch) else (batch, error)
        invariant sockets.everOpened == old(sockets.everOpened) + (set l | l in batch.listeners)
        decreases |offers| - i
      {
        match Check(config.baseDomain, offers[i].name, offers[i].tunnel) {
          case NeedsListener =>
            if offers[i].listen == None {
              error := Some(ListenFailed(offers[i].tunnel.addr));
            } else {
              sockets.Open(offers[i].listen.value);
              batch := batch.(listeners := batch.listeners + [offers[i].listen.value]);
            }
          case PublicHost(fullHost) =>
            batch := batch.(hosts := batch.hosts + [fullHost]);
          case Refused(e) =>
            error := Some(e);
        }
        i := i + 1;
      }
    }

    /** `addTunnels`; the listeners are closed again on any error. */
    method AddTunnels(offers: seq<Offer>, id: Id) returns (error: Option<TunnelError>)
      requires Valid()
      modifies registry, sockets`everOpened, sockets`closed
      ensures Valid()
      ensures error == AddTunnelsError(old(Contents()), config.baseDomain, offers, id)
      ensures Contents() == AfterAddTunnels(old(Contents()), config.baseDomain, offers, id)
    {
      hide Build, Refusal, AfterSet, ById;
      var batch;
      batch, error := BuildBatch(offers);
      if error == None {
        var refusal := registry.Set(batch, id);
        if refusal.Some? {
          error := Some(SetFailed(refusal.value));
          RefusedUnchanged(old(registry.Contents()), batch, id);
        }
      }
      if error.Some? {
        sockets.CloseAll(batch.listeners);
      }
    }

    /** `handleClient`, with every outside outcome in `a`. */
    method HandleClient(conn: Conn, id: Id, a: Attempt) returns (connected: bool)
      requires Valid()
      requires a.dialed.Some? ==> NewClientConn(ById(pool.conns), a.dialed.value)
      modifies registry, sockets, pool`conns
      ensures Valid()
      ensures Contents() == AfterHandle(old(Contents()), config, conn, id, a)
      ensures connected == Connects(old(Contents()), config, conn, id, a)
    {
      hide AfterAddConn, AddConnError, AfterAddTunnels, AddTunnelsError, World.DeleteConn, ById;
      var inConnPool := false;
      label reject: {
        if !a.identified {
          break reject;
        }
        if config.autoSubscribe {
          registry.Subscribe(id);
        } else {
          var known := registry.IsSubscribed(id);
          if !known {
            break reject;
          }
        }
        if !a.deadlineSet {
          break reject;
        }
        var refused := pool.AddConn(conn, id, a.alive, a.dialed);
        if refused.Some? {
          break reject;
        }
        inConnPool := true;
        if a.handshake == None || a.handshake.value == [] {
          break reject;
        }
        var error := AddTunnels(a.handshake.value, id);
        if error.Some? {
          break reject;
        }
        return true;
      }
      if inConnPool {
        pool.DeleteConn(id);
      } else {
        sockets.CloseConn(conn);
      }
      return false;
    }

    method Unsubscribe(id: Id) returns (item: Option<Slot>)
      requires Valid()
      modifies registry, sockets, pool`conns
      ensures Valid()
      ensures Contents() == AfterUnsubscribe(old(Contents()), id)
      ensures var items := World.DeleteConn(old(Contents()), id).reg.items;
              item == if id in items then Some(items[id]) else None
    {
      pool.DeleteConn(id);
      item := registry.Unsubscribe(id);
    }
  }
}
