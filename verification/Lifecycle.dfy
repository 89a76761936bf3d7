/**
 * The server as concurrent steps. Each step is one critical section of the
 * registry's or the pool's mutex, or one event outside both. Removing a pool
 * entry takes several steps, because the pool calls back into the registry
 * and closes listeners while it holds its mutex.
 */
module Lifecycle {
  import opened Text
  import opened Proto
  import opened Registry
  import opened World

  /** What the holder of the pool's mutex does once an entry is gone. */
  datatype Then = LeavePool | FinishAdding(conn: Conn) | FinishUnsubscribe(client: Id)

  /** Where the holder of the pool's mutex is: about to clear the registration, or closing its listeners. */
  datatype Lock =
    | Unlocked
    | Freeing(id: Id, gone: Conn, next: Then)
    | Closing(id: Id, left: seq<Listener>, next: Then)

  datatype Request = Request(name: string, tunnel: Tunnel)

  /** Where a handler is in `handleClient`. */
  datatype Pc =
    | Starting
    | Adding
    | Replacing
    | Handshaking
    | Opening(todo: seq<Request>, batch: Registration)
    | Rejecting(pooled: bool, left: seq<Listener>)
    | Finished

  datatype Handler = Handler(id: Id, pc: Pc)

  /** Which handler set an item, and whether its connection was pooled at that moment. */
  datatype Origin = Origin(conn: Conn, pooled: bool)

  /**
   * `wrapped` says which connection each HTTP/2 connection was made from,
   * `lookups` holds what readers of the pool found unusable, `unsubscribing`
   * the calls of Unsubscribe that are past the pool, `handedOut` the items they
   * returned. `requested` and `origins` are history: what each handshake asked
   * for, and which handler set each item.
   */
  datatype Server = Server(
    w: State,
    lock: Lock,
    handlers: map<Conn, Handler>,
    wrapped: map<ClientConn, Conn>,
    lookups: set<(Id, ConnPair)>,
    unsubscribing: multiset<Id>,
    handedOut: seq<Registration>,
    requested: map<Conn, seq<Request>>,
    origins: map<Id, Origin>)

  const INITIAL := Server(State(EMPTY, map[], {}, {}, []), Unlocked, map[], map[], {}, multiset{}, [], map[], map[])

  datatype Step =
    | Accept(conn: Conn, id: Id)
    | Subscribe(id: Id)
    | Refuse(conn: Conn)
    | Admit(conn: Conn)
    | Add(conn: Conn, alive: bool, dialed: Option<ClientConn>)
    | FinishAdd(conn: Conn, dialed: Option<ClientConn>)
    | Handshake(conn: Conn, tunnels: Option<seq<Request>>)
    | Open(conn: Conn, listen: Option<Listener>)
    | Set(conn: Conn)
    | CloseBatch(conn: Conn)
    | Reject(conn: Conn)
    | Clear
    | CloseListener
    | Leave
    | Lookup(id: Id)
    | Evict(id: Id, found: ConnPair)
    | MarkDead(id: Id, clientConn: ClientConn)
    | Unsubscribe(id: Id)
    | Unregister(id: Id)

  predicate At(m: Server, c: Conn, pc: Pc) {
    c in m.handlers && m.handlers[c].pc == pc
  }

  predicate FreshClientConn(m: Server, dialed: Option<ClientConn>) {
    dialed.Some? ==> dialed.value !in m.wrapped
  }

  predicate IsOpening(m: Server, c: Conn) { c in m.handlers && m.handlers[c].pc.Opening? }

  predicate IsRejecting(m: Server, c: Conn) { c in m.handlers && m.handlers[c].pc.Rejecting? }

  predicate Enabled(m: Server, step: Step) {
    match step
    case Accept(c, _) => c !in m.handlers
    case Subscribe(_) => true
    case Refuse(c) => At(m, c, Starting) || At(m, c, Adding)
    case Admit(c) => At(m, c, Starting)
    case Add(c, _, dialed) => At(m, c, Adding) && m.lock.Unlocked? && FreshClientConn(m, dialed)
    case FinishAdd(c, dialed) =>
      && At(m, c, Replacing) && FreshClientConn(m, dialed)
      && m.lock.Closing? && m.lock.left == [] && m.lock.next == FinishAdding(c)
    case Handshake(c, _) => At(m, c, Handshaking)
    case Open(c, l) =>
      && IsOpening(m, c) && m.handlers[c].pc.todo != []
      && (l.Some? ==> l.value !in m.w.everOpened)
    case Set(c) => IsOpening(m, c) && m.handlers[c].pc.todo == []
    case CloseBatch(c) => IsRejecting(m, c) && m.handlers[c].pc.left != []
    case Reject(c) =>
      && IsRejecting(m, c) && m.handlers[c].pc.left == []
      && (m.handlers[c].pc.pooled ==> m.lock.Unlocked?)
    case Clear => m.lock.Freeing?
    case CloseListener => m.lock.Closing? && m.lock.left != []
    case Leave => m.lock.Closing? && m.lock.left == [] && !m.lock.next.FinishAdding?
    case Lookup(id) => m.lock.Unlocked? && id in m.w.pool
    case Evict(id, found) => m.lock.Unlocked? && (id, found) in m.lookups
    case MarkDead(id, cc) => m.lock.Unlocked? && id in m.w.pool && m.w.pool[id].clientConn == cc
    case Unsubscribe(_) => m.lock.Unlocked?
    case Unregister(id) => id in m.unsubscribing
  }

  function Goto(m: Server, c: Conn, pc: Pc): Server
    requires c in m.handlers
  {
    m.(handlers := m.handlers[c := m.handlers[c].(pc := pc)])
  }

  function SetReg(m: Server, reg: Records): Server {
    m.(w := m.w.(reg := reg))
  }

  /** The first half of `connPool.close`: the connection is closed and the entry deleted. */
  function Remove(m: Server, id: Id, next: Then): Server
    requires id in m.w.pool
  {
    m.(w := m.w.(pool := m.w.pool - {id}, closedConns := m.w.closedConns + {m.w.pool[id].conn}),
       lock := Freeing(id, m.w.pool[id].conn, next))
  }

  /** The end of `AddConn`: NewClientConn and the new entry. */
  function Dial(m: Server, c: Conn, dialed: Option<ClientConn>): Server
    requires c in m.handlers
  {
    match dialed
    case None => Goto(m.(w := CloseConn(m.w, c)), c, Rejecting(false, []))
    case Some(cc) =>
      Goto(m.(w := m.w.(pool := m.w.pool[m.handlers[c].id := ConnPair(c, cc)]),
              wrapped := m.wrapped[cc := c]), c, Handshaking)
  }

  function AddStep(m: Server, c: Conn, alive: bool, dialed: Option<ClientConn>): Server
    requires c in m.handlers
  {
    var id := m.handlers[c].id;
    if id !in m.w.pool then Dial(m, c, dialed)
    else if alive then Goto(m, c, Rejecting(false, []))
    else Remove(Goto(m, c, Replacing), id, FinishAdding(c))
  }

  /** The listener that one round of `addTunnels` opens, if any. */
  function NewListeners(base: string, r: Request, listen: Option<Listener>): seq<Listener> {
    if Check(base, r.name, r.tunnel).NeedsListener? && listen.Some? then [listen.value] else []
  }

  function OpenStep(base: string, m: Server, c: Conn, listen: Option<Listener>): Server
    requires IsOpening(m, c) && m.handlers[c].pc.todo != []
  {
    var Opening(todo, batch) := m.handlers[c].pc;
    var (next, error) := BuildOne(base, Offer(todo[0].name, todo[0].tunnel, listen), batch);
    var more := NewListeners(base, todo[0], listen);
    Goto(m.(w := m.w.(everOpened := m.w.everOpened + (set l | l in more))), c,
         if error.Some? then Rejecting(true, batch.listeners) else Opening(todo[1..], next))
  }

  function SetStep(m: Server, c: Conn): Server
    requires IsOpening(m, c)
  {
    var id, batch := m.handlers[c].id, m.handlers[c].pc.batch;
    if Refusal(m.w.reg, batch, id).Some? then Goto(m, c, Rejecting(true, batch.listeners))
    else
      var pooled := id in m.w.pool && m.w.pool[id].conn == c;
      Goto(SetReg(m, AfterSet(m.w.reg, batch, id)).(origins := m.origins[id := Origin(c, pooled)]), c, Finished)
  }

  function RejectStep(m: Server, c: Conn): Server
    requires IsRejecting(m, c)
  {
    var id := m.handlers[c].id;
    if !m.handlers[c].pc.pooled then Goto(m.(w := CloseConn(m.w, c)), c, Finished)
    else if id in m.w.pool then Remove(Goto(m, c, Finished), id, LeavePool)
    else Goto(m, c, Finished)
  }

  /** The item that `Unsubscribe` hands out, if the client still has one. */
  function ItemsOf(reg: Records, id: Id): seq<Registration> {
    match HeldBy(reg, id)
    case None => []
    case Some(item) => [item]
  }

  function UnregisterStep(m: Server, id: Id): Server {
    SetReg(m, Unsubscribed(m.w.reg, id))
      .(unsubscribing := m.unsubscribing - multiset{id},
        handedOut := m.handedOut + ItemsOf(m.w.reg, id))
  }

  function AcceptStep(m: Server, c: Conn, id: Id): Server {
    m.(handlers := m.handlers[c := Handler(id, Starting)])
  }

  function AdmitStep(config: Config, m: Server, c: Conn): Server
    requires c in m.handlers
  {
    var id := m.handlers[c].id;
    if config.autoSubscribe then Goto(SetReg(m, Subscribed(m.w.reg, id)), c, Adding)
    else Goto(m, c, if id in m.w.reg.items then Adding else Rejecting(false, []))
  }

  function HandshakeStep(m: Server, c: Conn, tunnels: Option<seq<Request>>): Server
    requires c in m.handlers
  {
    Goto(if tunnels.Some? then m.(requested := m.requested[c := tunnels.value]) else m, c,
         if tunnels.Some? && tunnels.value != [] then Opening(tunnels.value, EMPTY_BATCH) else Rejecting(true, []))
  }

  function CloseBatchStep(m: Server, c: Conn): Server
    requires IsRejecting(m, c) && m.handlers[c].pc.left != []
  {
    var pc := m.handlers[c].pc;
    Goto(m.(w := m.w.(closed := m.w.closed + [pc.left[0]])), c, pc.(left := pc.left[1..]))
  }

  function ClearStep(m: Server): Server
    requires m.lock.Freeing?
  {
    var Freeing(id, _, next) := m.lock;
    SetReg(m, Cleared(m.w.reg, id)).(lock := Closing(id, ListenersOf(HeldBy(m.w.reg, id)), next))
  }

  function CloseListenerStep(m: Server): Server
    requires m.lock.Closing? && m.lock.left != []
  {
    m.(w := m.w.(closed := m.w.closed + [m.lock.left[0]]), lock := m.lock.(left := m.lock.left[1..]))
  }

  function LeaveStep(m: Server): Server
    requires m.lock.Closing?
  {
    if m.lock.next.FinishUnsubscribe?
    then m.(lock := Unlocked, unsubscribing := m.unsubscribing + multiset{m.lock.next.client})
    else m.(lock := Unlocked)
  }

  function EvictStep(m: Server, id: Id, found: ConnPair): Server {
    if id in m.w.pool && m.w.pool[id].clientConn == found.clientConn then Remove(m, id, LeavePool) else m
  }

  function UnsubscribeStep(m: Server, id: Id): Server {
    if id in m.w.pool then Remove(m, id, FinishUnsubscribe(id))
    else m.(unsubscribing := m.unsubscribing + multiset{id})
  }

  function Next(config: Config, m: Server, step: Step): Server
    requires Enabled(m, step)
  {
    match step
    case Accept(c, id) => AcceptStep(m, c, id)
    case Subscribe(id) => SetReg(m, Subscribed(m.w.reg, id))
    case Refuse(c) => Goto(m, c, Rejecting(false, []))
    case Admit(c) => AdmitStep(config, m, c)
    case Add(c, alive, dialed) => AddStep(m, c, alive, dialed)
    case FinishAdd(c, dialed) => Dial(m.(lock := Unlocked), c, dialed)
    case Handshake(c, tunnels) => HandshakeStep(m, c, tunnels)
    case Open(c, listen) => OpenStep(config.baseDomain, m, c, listen)
    case Set(c) => SetStep(m, c)
    case CloseBatch(c) => CloseBatchStep(m, c)
    case Reject(c) => RejectStep(m, c)
    case Clear => ClearStep(m)
    case CloseListener => CloseListenerStep(m)
    case Leave => LeaveStep(m)
    case Lookup(id) => m.(lookups := m.lookups + {(id, m.w.pool[id])})
    case Evict(id, found) => EvictStep(m, id, found)
    case MarkDead(id, _) => Remove(m, id, LeavePool)
    case Unsubscribe(id) => UnsubscribeStep(m, id)
    case Unregister(id) => UnregisterStep(m, id)
  }

  /** Steps that take or hold the pool's mutex: operations of the pool, and the clearing that runs inside them. */
  predicate NeedsPool(m: Server, step: Step) {
    || step.Add? || step.FinishAdd? || (step.Reject? && IsRejecting(m, step.conn) && m.handlers[step.conn].pc.pooled)
    || step.Clear? || step.CloseListener? || step.Leave?
    || step.Lookup? || step.Evict? || step.MarkDead? || step.Unsubscribe?
  }

  /** While the mutex is held, the only steps of the pool are those of its holder. */
  lemma MutexExcludes(m: Server, step: Step)
    requires Enabled(m, step) && NeedsPool(m, step) && !m.lock.Unlocked?
    ensures step.Clear? || step.CloseListener? || step.Leave? || (step.FinishAdd? && m.lock.next == FinishAdding(step.conn))
  {
  }

  /**
   * All other steps, those of the registry among them, are possible or not
   * whoever holds the pool's mutex, and whatever is pooled, registered or closed:
   * only where the handler is decides. A handshake can succeed on a connection
   * that has left the pool meanwhile.
   */
  lemma MutexIrrelevant(m: Server, step: Step, lock: Lock, w: State)
    requires !NeedsPool(m, step) && w.everOpened == m.w.everOpened
    ensures Enabled(m, step) <==> Enabled(m.(lock := lock, w := w), step)
  {
  }

  /** The steps can be taken one after the other from `m`. */
  ghost predicate Runs(config: Config, m: Server, steps: seq<Step>)
    decreases |steps|
  {
    steps == [] || (Enabled(m, steps[0]) && Runs(config, Next(config, m, steps[0]), steps[1..]))
  }

  ghost function After(config: Config, m: Server, steps: seq<Step>): Server
    requires Runs(config, m, steps)
    decreases |steps|
  {
    if steps == [] then m else After(config, Next(config, m, steps[0]), steps[1..])
  }

  // ------------------------------------------------------------- invariants

  /** The handler is past `AddConn`. */
  predicate PastPool(pc: Pc) {
    pc.Handshaking? || pc.Opening? || (pc.Rejecting? && pc.pooled) || pc.Finished?
  }

  predicate BeforePool(pc: Pc) {
    pc.Starting? || pc.Adding? || pc.Replacing?
  }

  predicate IsPooled(m: Server, c: Conn) {
    c in m.handlers && m.handlers[c].id in m.w.pool && m.w.pool[m.handlers[c].id].conn == c
  }

  ghost predicate EntryOk(m: Server, id: Id)
    requires id in m.w.pool
  {
    var ConnPair(c, cc) := m.w.pool[id];
    && c in m.handlers && m.handlers[c].id == id && PastPool(m.handlers[c].pc)
    && c !in m.w.closedConns
    && cc in m.wrapped && m.wrapped[cc] == c
  }

  ghost predicate HandlerOk(m: Server, c: Conn)
    requires c in m.handlers
  {
    var pc := m.handlers[c].pc;
    && (PastPool(pc) ==> (c in m.w.closedConns || IsPooled(m, c)))
    && (BeforePool(pc) ==> c !in m.w.closedConns)
    && (pc.Replacing? ==> !m.lock.Unlocked? && m.lock.next == FinishAdding(c))
  }

  ghost predicate LockOk(m: Server) {
    m.lock.Unlocked? || (
      && m.lock.id !in m.w.pool
      && (m.lock.next.FinishAdding? ==>
           var c := m.lock.next.conn;
           At(m, c, Replacing) && m.handlers[c].id == m.lock.id)
      && (m.lock.Freeing? ==>
           var c := m.lock.gone;
           c in m.handlers && m.handlers[c].id == m.lock.id && c in m.w.closedConns))
  }

  /** The removal of the connection that set `id`'s item is under way but has not reached the registry. */
  predicate ClearPending(m: Server, id: Id, c: Conn) {
    m.lock.Freeing? && m.lock.id == id && m.lock.gone == c
  }

  ghost predicate ItemOk(m: Server, id: Id) {
    id in m.w.reg.items && m.w.reg.items[id].Held? ==>
      && id in m.origins
      && var Origin(c, pooled) := m.origins[id];
         && At(m, c, Finished) && m.handlers[c].id == id
         && (pooled ==> IsPooled(m, c) || ClearPending(m, id, c))
         && (!pooled ==> c in m.w.closedConns)
  }

  ghost predicate Inv(m: Server) {
    && (forall id :: id in m.w.pool ==> EntryOk(m, id))
    && (forall c :: c in m.handlers ==> HandlerOk(m, c))
    && (forall c :: c in m.w.closedConns ==> c in m.handlers)
    && LockOk(m)
    && (forall id :: ItemOk(m, id))
    && (forall x :: x in m.lookups ==> x.1.clientConn in m.wrapped && m.wrapped[x.1.clientConn] == x.1.conn)
    && Indexed(m.w.reg)
  }

  /** A handler that moves on without touching anything shared. */
  lemma GotoInv(m: Server, c: Conn, pc: Pc)
    requires Inv(m) && c in m.handlers
    requires !m.handlers[c].pc.Finished? && !m.handlers[c].pc.Replacing? && !pc.Replacing?
    requires PastPool(pc) ==> PastPool(m.handlers[c].pc) || c in m.w.closedConns
    requires PastPool(m.handlers[c].pc) ==> PastPool(pc)
    requires BeforePool(pc) ==> BeforePool(m.handlers[c].pc)
    ensures Inv(Goto(m, c, pc))
  {
    var n := Goto(m, c, pc);
    forall id | id in n.w.pool ensures EntryOk(n, id) { assert EntryOk(m, id); }
    forall d | d in n.handlers ensures HandlerOk(n, d) { assert HandlerOk(m, d); }
    forall id ensures ItemOk(n, id) { assert ItemOk(m, id); }
  }

  lemma RemoveInv(m: Server, id: Id, next: Then)
    requires Inv(m) && id in m.w.pool && m.lock.Unlocked? && !next.FinishAdding?
    ensures Inv(Remove(m, id, next))
  {
    var n := Remove(m, id, next);
    var gone := m.w.pool[id].conn;
    assert EntryOk(m, id);
    forall j | j in n.w.pool ensures EntryOk(n, j) { assert EntryOk(m, j); }
    forall d | d in n.handlers ensures HandlerOk(n, d) { assert HandlerOk(m, d); }
    forall j ensures ItemOk(n, j) { assert ItemOk(m, j); }
  }

  /** Replacing a dead peer: the entry goes while the new handler waits for the mutex it already holds. */
  lemma ReplaceInv(m: Server, c: Conn)
    requires Inv(m) && At(m, c, Adding) && m.lock.Unlocked? && m.handlers[c].id in m.w.pool
    ensures Inv(Remove(Goto(m, c, Replacing), m.handlers[c].id, FinishAdding(c)))
  {
    var id := m.handlers[c].id;
    var n := Remove(Goto(m, c, Replacing), id, FinishAdding(c));
    assert EntryOk(m, id);
    forall j | j in n.w.pool ensures EntryOk(n, j) { assert EntryOk(m, j); }
    forall d | d in n.handlers ensures HandlerOk(n, d) { assert HandlerOk(m, d); }
    forall j ensures ItemOk(n, j) { assert ItemOk(m, j); }
  }

  lemma DialInv(m: Server, c: Conn, dialed: Option<ClientConn>)
    requires c in m.handlers && BeforePool(m.handlers[c].pc) && FreshClientConn(m, dialed)
    requires m.handlers[c].id !in m.w.pool && Inv(m)
    requires m.lock.Unlocked? || (m.lock.Closing? && m.lock.next == FinishAdding(c))
    ensures Inv(Dial(m.(lock := Unlocked), c, dialed))
  {
    var n := Dial(m.(lock := Unlocked), c, dialed);
    assert HandlerOk(m, c);
    forall j | j in n.w.pool ensures EntryOk(n, j) { assert j in m.w.pool ==> EntryOk(m, j); }
    forall d | d in n.handlers ensures HandlerOk(n, d) { assert HandlerOk(m, d); }
    forall j ensures ItemOk(n, j) { assert ItemOk(m, j); }
  }

  /** A step of the registry that puts nothing new under any client. */
  lemma RegistryInv(m: Server, reg: Records)
    requires Inv(m) && Indexed(reg)
    requires forall id :: id in reg.items && reg.items[id].Held? ==> id in m.w.reg.items && m.w.reg.items[id] == reg.items[id]
    ensures Inv(SetReg(m, reg))
  {
    var n := SetReg(m, reg);
    forall j | j in n.w.pool ensures EntryOk(n, j) { assert EntryOk(m, j); }
    forall d | d in n.handlers ensures HandlerOk(n, d) { assert HandlerOk(m, d); }
    forall j ensures ItemOk(n, j) { assert ItemOk(m, j); }
  }

  lemma SetInv(m: Server, c: Conn)
    requires Inv(m) && Enabled(m, Set(c))
    ensures Inv(SetStep(m, c))
  {
    var id, batch := m.handlers[c].id, m.handlers[c].pc.batch;
    if Refusal(m.w.reg, batch, id).Some? {
      GotoInv(m, c, Rejecting(true, batch.listeners));
    } else {
      var n := SetStep(m, c);
      AfterSetIndexed(m.w.reg, batch, id);
      assert HandlerOk(m, c);
      forall j | j in n.w.pool ensures EntryOk(n, j) { assert EntryOk(m, j); }
      forall d | d in n.handlers ensures HandlerOk(n, d) { assert HandlerOk(m, d); }
      forall j ensures ItemOk(n, j) { assert ItemOk(m, j); }
    }
  }

  lemma ClearInv(m: Server)
    requires Inv(m) && m.lock.Freeing?
    ensures Inv(ClearStep(m))
  {
    var n := ClearStep(m);
    ClearedIndexed(m.w.reg, m.lock.id);
    forall j | j in n.w.pool ensures EntryOk(n, j) { assert EntryOk(m, j); }
    forall d | d in n.handlers ensures HandlerOk(n, d) { assert HandlerOk(m, d); }
    forall j ensures ItemOk(n, j) { assert ItemOk(m, j); }
  }

  /** Handlers, pool, registry, connections and lookups all as they were; only private bookkeeping differs. */
  lemma FrameInv(m: Server, n: Server)
    requires Inv(m)
    requires n.w.pool == m.w.pool && n.w.reg == m.w.reg && n.w.closedConns == m.w.closedConns
    requires n.handlers == m.handlers && n.wrapped == m.wrapped && n.origins == m.origins
    requires n.lookups == m.lookups || exists id :: id in m.w.pool && n.lookups == m.lookups + {(id, m.w.pool[id])}
    requires n.lock == m.lock
             || (n.lock.Unlocked? && m.lock.Closing? && !m.lock.next.FinishAdding?)
             || (n.lock.Closing? && m.lock.Closing? && n.lock.id == m.lock.id && n.lock.next == m.lock.next)
    ensures Inv(n)
  {
    forall j | j in n.w.pool ensures EntryOk(n, j) { assert EntryOk(m, j); }
    forall d | d in n.handlers ensures HandlerOk(n, d) { assert HandlerOk(m, d); }
    forall j ensures ItemOk(n, j) { assert ItemOk(m, j); }
    forall x | x in n.lookups
      ensures x.1.clientConn in n.wrapped && n.wrapped[x.1.clientConn] == x.1.conn
    {
      if x !in m.lookups {
        assert EntryOk(m, x.0);
      }
    }
  }

  lemma RejectInv(m: Server, c: Conn)
    requires Inv(m) && Enabled(m, Reject(c))
    ensures Inv(RejectStep(m, c))
  {
    var id := m.handlers[c].id;
    if !m.handlers[c].pc.pooled {
      var n := RejectStep(m, c);
      forall j | j in n.w.pool ensures EntryOk(n, j) { assert EntryOk(m, j); }
      forall d | d in n.handlers ensures HandlerOk(n, d) { assert HandlerOk(m, d); }
      forall j ensures ItemOk(n, j) { assert ItemOk(m, j); }
    } else {
      GotoInv(m, c, Finished);
      if id in m.w.pool {
        RemoveInv(Goto(m, c, Finished), id, LeavePool);
      }
    }
  }

  lemma AcceptInv(m: Server, c: Conn, id: Id)
    requires Inv(m) && c !in m.handlers
    ensures Inv(AcceptStep(m, c, id))
  {
    var n := AcceptStep(m, c, id);
    forall j | j in n.w.pool ensures EntryOk(n, j) { assert EntryOk(m, j); }
    forall d | d in n.handlers ensures HandlerOk(n, d) { assert d in m.handlers ==> HandlerOk(m, d); }
    forall j ensures ItemOk(n, j) { assert ItemOk(m, j); }
  }

  lemma AdmitInv(config: Config, m: Server, c: Conn)
    requires Inv(m) && Enabled(m, Admit(c))
    ensures Inv(AdmitStep(config, m, c))
  {
    var id := m.handlers[c].id;
    if config.autoSubscribe {
      SubscribedIndexed(m.w.reg, id);
      RegistryInv(m, Subscribed(m.w.reg, id));
      GotoInv(SetReg(m, Subscribed(m.w.reg, id)), c, Adding);
    } else {
      GotoInv(m, c, if id in m.w.reg.items then Adding else Rejecting(false, []));
    }
  }

  lemma AddInv(config: Config, m: Server, c: Conn, alive: bool, dialed: Option<ClientConn>)
    requires Inv(m) && Enabled(m, Add(c, alive, dialed))
    ensures Inv(AddStep(m, c, alive, dialed))
  {
    if m.handlers[c].id !in m.w.pool {
      DialInv(m, c, dialed);
      assert m.(lock := Unlocked) == m;
    } else if alive {
      GotoInv(m, c, Rejecting(false, []));
    } else {
      ReplaceInv(m, c);
    }
  }

  /** A handler that opens or closes listeners of its own. */
  lemma BatchInv(m: Server, c: Conn, w: State, pc: Pc)
    requires Inv(m) && c in m.handlers && PastPool(m.handlers[c].pc) && !m.handlers[c].pc.Finished?
    requires PastPool(pc) && w == m.w.(everOpened := w.everOpened, closed := w.closed)
    ensures Inv(Goto(m.(w := w), c, pc))
  {
    FrameInv(m, m.(w := w));
    GotoInv(m.(w := w), c, pc);
  }

  lemma HandshakeInv(m: Server, c: Conn, tunnels: Option<seq<Request>>)
    requires Inv(m) && At(m, c, Handshaking)
    ensures Inv(HandshakeStep(m, c, tunnels))
  {
    hide Inv;
    var n := HandshakeStep(m, c, tunnels);
    var k := m.(requested := n.requested);
    FrameInv(m, k);
    GotoInv(k, c, n.handlers[c].pc);
  }

  lemma UnregisterInv(m: Server, id: Id)
    requires Inv(m)
    ensures Inv(UnregisterStep(m, id))
  {
    UnsubscribedIndexed(m.w.reg, id);
    RegistryInv(m, Unsubscribed(m.w.reg, id));
    FrameInv(SetReg(m, Unsubscribed(m.w.reg, id)), UnregisterStep(m, id));
  }

  /** Steps that belong to a handler. */
  predicate ByHandler(step: Step) {
    step.Accept? || step.Refuse? || step.Admit? || step.Add? || step.FinishAdd?
    || step.Handshake? || step.Open? || step.Set? || step.CloseBatch? || step.Reject?
  }

  lemma OpenInv(base: string, m: Server, c: Conn, listen: Option<Listener>)
    requires Inv(m) && IsOpening(m, c) && m.handlers[c].pc.todo != []
    ensures Inv(OpenStep(base, m, c, listen))
  {
    hide Inv, BuildOne, NewListeners;
    var n := OpenStep(base, m, c, listen);
    BatchInv(m, c, n.w, n.handlers[c].pc);
  }

  lemma CloseBatchInv(m: Server, c: Conn)
    requires Inv(m) && IsRejecting(m, c) && m.handlers[c].pc.left != []
    ensures Inv(CloseBatchStep(m, c))
  {
    hide Inv;
    var n := CloseBatchStep(m, c);
    FrameInv(m, m.(w := n.w));
    GotoInv(m.(w := n.w), c, n.handlers[c].pc);
  }

  lemma FinishAddInv(m: Server, c: Conn, dialed: Option<ClientConn>)
    requires Inv(m) && Enabled(m, FinishAdd(c, dialed))
    ensures Inv(Dial(m.(lock := Unlocked), c, dialed))
  {
    assert LockOk(m);
    hide Inv;
    DialInv(m, c, dialed);
  }

  lemma HandlerStepInv(config: Config, m: Server, step: Step)
    requires Inv(m) && Enabled(m, step) && ByHandler(step)
    ensures Inv(Next(config, m, step))
  {
    hide Inv, AcceptStep, AdmitStep, AddStep, Dial, HandshakeStep, OpenStep, SetStep, CloseBatchStep, RejectStep;
    match step
    case Accept(c, id) => AcceptInv(m, c, id);
    case Refuse(c) => GotoInv(m, c, Rejecting(false, []));
    case Admit(c) => AdmitInv(config, m, c);
    case Add(c, alive, dialed) => AddInv(config, m, c, alive, dialed);
    case FinishAdd(c, dialed) => FinishAddInv(m, c, dialed);
    case Handshake(c, tunnels) => HandshakeInv(m, c, tunnels);
    case Open(c, listen) => OpenInv(config.baseDomain, m, c, listen);
    case Set(c) => SetInv(m, c);
    case CloseBatch(c) => CloseBatchInv(m, c);
    case Reject(c) => RejectInv(m, c);
  }

  lemma EvictInv(m: Server, id: Id, found: ConnPair)
    requires Inv(m) && m.lock.Unlocked?
    ensures Inv(EvictStep(m, id, found))
  {
    hide Inv;
    if id in m.w.pool && m.w.pool[id].clientConn == found.clientConn {
      RemoveInv(m, id, LeavePool);
    }
  }

  lemma UnsubscribeInv(m: Server, id: Id)
    requires Inv(m) && m.lock.Unlocked?
    ensures Inv(UnsubscribeStep(m, id))
  {
    hide Inv;
    if id in m.w.pool {
      RemoveInv(m, id, FinishUnsubscribe(id));
    } else {
      FrameInv(m, UnsubscribeStep(m, id));
    }
  }

  lemma ReleaseInv(m: Server)
    requires Inv(m) && m.lock.Closing?
    ensures m.lock.left != [] ==> Inv(CloseListenerStep(m))
    ensures !m.lock.next.FinishAdding? ==> Inv(LeaveStep(m))
  {
    hide Inv;
    if m.lock.left != [] {
      FrameInv(m, CloseListenerStep(m));
    }
    if !m.lock.next.FinishAdding? {
      FrameInv(m, LeaveStep(m));
    }
  }

  lemma LookupInv(m: Server, id: Id)
    requires Inv(m) && id in m.w.pool
    ensures Inv(m.(lookups := m.lookups + {(id, m.w.pool[id])}))
  {
    hide Inv;
    FrameInv(m, m.(lookups := m.lookups + {(id, m.w.pool[id])}));
  }

  lemma SharedStepInv(config: Config, m: Server, step: Step)
    requires Inv(m) && Enabled(m, step) && !ByHandler(step)
    ensures Inv(Next(config, m, step))
  {
    assert Indexed(m.w.reg);
    hide Inv, Indexed, Remove, ClearStep, CloseListenerStep, LeaveStep, EvictStep, UnsubscribeStep, UnregisterStep;
    match step
    case Subscribe(id) =>
      SubscribedIndexed(m.w.reg, id);
      RegistryInv(m, Subscribed(m.w.reg, id));
    case Clear => ClearInv(m);
    case CloseListener => ReleaseInv(m);
    case Leave => ReleaseInv(m);
    case Lookup(id) => LookupInv(m, id);
    case Evict(id, found) => EvictInv(m, id, found);
    case MarkDead(id, _) => RemoveInv(m, id, LeavePool);
    case Unsubscribe(id) => UnsubscribeInv(m, id);
    case Unregister(id) => UnregisterInv(m, id);
  }

  lemma StepInv(config: Config, m: Server, step: Step)
    requires Inv(m) && Enabled(m, step)
    ensures Inv(Next(config, m, step))
  {
    if ByHandler(step) {
      HandlerStepInv(config, m, step);
    } else {
      SharedStepInv(config, m, step);
    }
  }

  lemma {:induction false} RunInv(config: Config, m: Server, steps: seq<Step>)
    requires Inv(m) && Runs(config, m, steps)
    ensures Inv(After(config, m, steps))
    decreases |steps|
  {
    if steps != [] {
      StepInv(config, m, steps[0]);
      RunInv(config, Next(config, m, steps[0]), steps[1..]);
    }
  }

  /** Reached by some interleaving from a server that has just started. */
  ghost predicate Reachable(config: Config, m: Server) {
    exists steps :: Runs(config, INITIAL, steps) && After(config, INITIAL, steps) == m
  }

  lemma ReachableInv(config: Config, m: Server)
    requires Reachable(config, m)
    ensures Inv(m)
  {
    forall h, id ensures !Owns(EMPTY, id, h) {}
    var steps :| Runs(config, INITIAL, steps) && After(config, INITIAL, steps) == m;
    RunInv(config, INITIAL, steps);
  }

  lemma {:induction false} RunsAppend(config: Config, m: Server, a: seq<Step>, b: seq<Step>)
    requires Runs(config, m, a) && Runs(config, After(config, m, a), b)
    ensures Runs(config, m, a + b)
    ensures After(config, m, a + b) == After(config, After(config, m, a), b)
    decreases |a|
  {
    if a == [] {
      assert a + b == b;
    } else {
      assert (a + b)[0] == a[0] && (a + b)[1..] == a[1..] + b;
      RunsAppend(config, Next(config, m, a[0]), a[1..], b);
    }
  }

  lemma OneStep(config: Config, m: Server, step: Step)
    requires Enabled(m, step)
    ensures Runs(config, m, [step]) && After(config, m, [step]) == Next(config, m, step)
  {
    var n := Next(config, m, step);
    assert [step][1..] == [];
    assert Runs(config, n, []) && After(config, n, []) == n;
  }

  lemma ReachStep(config: Config, m: Server, step: Step)
    requires Reachable(config, m) && Enabled(m, step)
    ensures Reachable(config, Next(config, m, step))
  {
    var steps :| Runs(config, INITIAL, steps) && After(config, INITIAL, steps) == m;
    OneStep(config, m, step);
    RunsAppend(config, INITIAL, steps, [step]);
  }
}
