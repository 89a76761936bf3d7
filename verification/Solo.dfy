/**
 * One connection attempt without interference: its steps can be taken to the
 * end, and then add up to `World.AfterHandle`. The steps of the other
 * operations add up in the same way.
 */
module Solo {
  import opened Text
  import opened Proto
  import opened Registry
  import opened World
  import opened Lifecycle
  import opened Tunnels
  import Listeners

  /** The handler looks its own client up in the pool: for the handshake request, or to report an error. */
  predicate OwnLookup(m: Server, step: Step, c: Conn) {
    && c in m.handlers && (m.handlers[c].pc.Handshaking? || m.handlers[c].pc == Rejecting(true, []))
    && (step == Lookup(m.handlers[c].id) || (step.Evict? && step.id == m.handlers[c].id))
  }

  /**
   * The step is one of handler `c`, its own lookups included, or of whoever holds
   * the pool's mutex. A handshake succeeds only over a connection in the pool.
   */
  predicate OwnStep(m: Server, step: Step, c: Conn) {
    || step.Clear? || step.CloseListener? || step.Leave?
    || (ByHandler(step) && step.conn == c && (step.Handshake? && step.tunnels.Some? ==> IsPooled(m, c)))
    || OwnLookup(m, step, c)
  }

  /** A run without interference. */
  ghost predicate AllOwn(config: Config, m: Server, steps: seq<Step>, c: Conn)
    requires Runs(config, m, steps)
    decreases |steps|
  {
    steps == [] || (OwnStep(m, steps[0], c) && AllOwn(config, Next(config, m, steps[0]), steps[1..], c))
  }

  /** Steps of handler `c` and of the pool's mutex alone lead from `m` to `n`. */
  ghost predicate Leads(config: Config, c: Conn, m: Server, n: Server) {
    exists steps :: Runs(config, m, steps) && AllOwn(config, m, steps, c) && After(config, m, steps) == n
  }

  lemma {:induction false} AllOwnAppend(config: Config, m: Server, a: seq<Step>, b: seq<Step>, c: Conn)
    requires Runs(config, m, a) && AllOwn(config, m, a, c)
    requires Runs(config, After(config, m, a), b) && AllOwn(config, After(config, m, a), b, c)
    ensures Runs(config, m, a + b) && AllOwn(config, m, a + b, c)
    ensures After(config, m, a + b) == After(config, After(config, m, a), b)
    decreases |a|
  {
    hide Next, Enabled, OwnStep;
    RunsAppend(config, m, a, b);
    if a == [] {
      assert a + b == b;
    } else {
      assert (a + b)[1..] == a[1..] + b;
      AllOwnAppend(config, Next(config, m, a[0]), a[1..], b, c);
    }
  }

  lemma LeadsTrans(config: Config, c: Conn, m: Server, n: Server, o: Server)
    requires Leads(config, c, m, n) && Leads(config, c, n, o)
    ensures Leads(config, c, m, o)
  {
    hide Runs, AllOwn, After;
    var a :| Runs(config, m, a) && AllOwn(config, m, a, c) && After(config, m, a) == n;
    var b :| Runs(config, n, b) && AllOwn(config, n, b, c) && After(config, n, b) == o;
    AllOwnAppend(config, m, a, b, c);
  }

  lemma LeadsSelf(config: Config, c: Conn, m: Server)
    ensures Leads(config, c, m, m)
  {
    assert Runs(config, m, []) && AllOwn(config, m, [], c) && After(config, m, []) == m;
  }

  lemma LeadsStep(config: Config, c: Conn, m: Server, step: Step)
    requires Enabled(m, step) && OwnStep(m, step, c)
    ensures Leads(config, c, m, Next(config, m, step))
  {
    hide Next, Enabled, OwnStep;
    OneStep(config, m, step);
    assert AllOwn(config, m, [step], c);
  }

  // Each step by name, so that longer runs need not look into `Next`.

  lemma DoAccept(config: Config, c: Conn, m: Server, id: Id)
    requires c !in m.handlers
    ensures Leads(config, c, m, AcceptStep(m, c, id))
  {
    LeadsStep(config, c, m, Accept(c, id));
  }

  lemma DoRefuse(config: Config, c: Conn, m: Server)
    requires At(m, c, Starting) || At(m, c, Adding)
    ensures Leads(config, c, m, Goto(m, c, Rejecting(false, [])))
  {
    LeadsStep(config, c, m, Refuse(c));
  }

  lemma DoAdmit(config: Config, c: Conn, m: Server)
    requires At(m, c, Starting)
    ensures Leads(config, c, m, AdmitStep(config, m, c))
  {
    LeadsStep(config, c, m, Admit(c));
  }

  lemma DoAdd(config: Config, c: Conn, m: Server, alive: bool, dialed: Option<ClientConn>)
    requires At(m, c, Adding) && m.lock.Unlocked? && FreshClientConn(m, dialed)
    ensures Leads(config, c, m, AddStep(m, c, alive, dialed))
  {
    LeadsStep(config, c, m, Add(c, alive, dialed));
  }

  lemma DoFinishAdd(config: Config, c: Conn, m: Server, dialed: Option<ClientConn>)
    requires At(m, c, Replacing) && FreshClientConn(m, dialed)
    requires m.lock.Closing? && m.lock.left == [] && m.lock.next == FinishAdding(c)
    ensures Leads(config, c, m, Dial(m.(lock := Unlocked), c, dialed))
  {
    LeadsStep(config, c, m, FinishAdd(c, dialed));
  }

  lemma DoHandshake(config: Config, c: Conn, m: Server, tunnels: Option<seq<Request>>)
    requires At(m, c, Handshaking) && (tunnels.Some? ==> IsPooled(m, c))
    ensures Leads(config, c, m, HandshakeStep(m, c, tunnels))
  {
    LeadsStep(config, c, m, Handshake(c, tunnels));
  }

  lemma DoOpen(config: Config, c: Conn, m: Server, listen: Option<Listener>)
    requires IsOpening(m, c) && m.handlers[c].pc.todo != []
    requires listen.Some? ==> listen.value !in m.w.everOpened
    ensures Leads(config, c, m, OpenStep(config.baseDomain, m, c, listen))
  {
    LeadsStep(config, c, m, Open(c, listen));
  }

  lemma DoSet(config: Config, c: Conn, m: Server)
    requires IsOpening(m, c) && m.handlers[c].pc.todo == []
    ensures Leads(config, c, m, SetStep(m, c))
  {
    LeadsStep(config, c, m, Set(c));
  }

  lemma DoCloseBatch(config: Config, c: Conn, m: Server)
    requires IsRejecting(m, c) && m.handlers[c].pc.left != []
    ensures Leads(config, c, m, CloseBatchStep(m, c))
  {
    LeadsStep(config, c, m, CloseBatch(c));
  }

  lemma DoReject(config: Config, c: Conn, m: Server)
    requires IsRejecting(m, c) && m.handlers[c].pc.left == []
    requires m.handlers[c].pc.pooled ==> m.lock.Unlocked?
    ensures Leads(config, c, m, RejectStep(m, c))
  {
    LeadsStep(config, c, m, Reject(c));
  }

  lemma DoClear(config: Config, c: Conn, m: Server)
    requires m.lock.Freeing?
    ensures Leads(config, c, m, ClearStep(m))
  {
    LeadsStep(config, c, m, Clear);
  }

  lemma DoCloseListener(config: Config, c: Conn, m: Server)
    requires m.lock.Closing? && m.lock.left != []
    ensures Leads(config, c, m, CloseListenerStep(m))
  {
    LeadsStep(config, c, m, CloseListener);
  }

  lemma DoLeave(config: Config, c: Conn, m: Server)
    requires m.lock.Closing? && m.lock.left == [] && m.lock.next == LeavePool
    ensures Leads(config, c, m, m.(lock := Unlocked))
  {
    LeadsStep(config, c, m, Leave);
  }

  /** The state once the close list has been worked off. */
  function ListClosed(m: Server): Server
    requires m.lock.Closing?
  {
    m.(w := m.w.(closed := m.w.closed + m.lock.left), lock := m.lock.(left := []))
  }

  lemma ListClosedStep(m: Server)
    requires m.lock.Closing?
    ensures m.lock.left == [] ==> ListClosed(m) == m
    ensures m.lock.left != [] ==> ListClosed(CloseListenerStep(m)) == ListClosed(m)
  {
    if m.lock.left == [] {
      assert m.w.closed + [] == m.w.closed;
    } else {
      assert m.lock.left == [m.lock.left[0]] + m.lock.left[1..];
      assert (m.w.closed + [m.lock.left[0]]) + m.lock.left[1..] == m.w.closed + m.lock.left;
    }
  }

  lemma {:induction false} SoloClosing(config: Config, c: Conn, m: Server)
    requires m.lock.Closing?
    ensures Leads(config, c, m, ListClosed(m))
    decreases |m.lock.left|
  {
    ListClosedStep(m);
    if m.lock.left == [] {
      LeadsSelf(config, c, m);
    } else {
      var k := CloseListenerStep(m);
      DoCloseListener(config, c, m);
      SoloClosing(config, c, k);
      LeadsTrans(config, c, m, k, ListClosed(m));
    }
  }

  /** The freeing of one pool entry, up to leaving the critical section. */
  lemma SoloFree(config: Config, c: Conn, m: Server) returns (n: Server)
    requires m.lock.Freeing?
    ensures Leads(config, c, m, n)
    ensures n == m.(w := m.w.(reg := Cleared(m.w.reg, m.lock.id),
                              closed := m.w.closed + ListenersOf(HeldBy(m.w.reg, m.lock.id))),
                    lock := Closing(m.lock.id, [], m.lock.next))
  {
    var k := ClearStep(m);
    DoClear(config, c, m);
    SoloClosing(config, c, k);
    n := ListClosed(k);
    LeadsTrans(config, c, m, k, n);
  }

  /** The handler at `pc`, and the listeners and registry as in `w`. */
  function Moved(m: Server, w: State, c: Conn, pc: Pc): Server
    requires c in m.handlers
  {
    Goto(m.(w := w), c, pc)
  }

  lemma MovedTwice(m: Server, v: State, w: State, c: Conn, pc: Pc, qc: Pc)
    requires c in m.handlers
    ensures Moved(Moved(m, v, c, pc), w, c, qc) == Moved(m, w, c, qc)
  {
    assert Moved(Moved(m, v, c, pc), w, c, qc).handlers == Moved(m, w, c, qc).handlers;
  }

  lemma MovedNowhere(m: Server, c: Conn)
    requires c in m.handlers
    ensures Moved(m, m.w, c, m.handlers[c].pc) == m
  {
    assert Moved(m, m.w, c, m.handlers[c].pc).handlers == m.handlers;
  }

  /** The state once a rejecting handler has closed the listeners of its batch. */
  function BatchClosed(m: Server, c: Conn): Server
    requires IsRejecting(m, c)
  {
    var Rejecting(pooled, left) := m.handlers[c].pc;
    Moved(m, m.w.(closed := m.w.closed + left), c, Rejecting(pooled, []))
  }

  lemma BatchClosedStep(m: Server, c: Conn)
    requires IsRejecting(m, c)
    ensures m.handlers[c].pc.left == [] ==> BatchClosed(m, c) == m
    ensures m.handlers[c].pc.left != [] ==> BatchClosed(CloseBatchStep(m, c), c) == BatchClosed(m, c)
  {
    var Rejecting(pooled, left) := m.handlers[c].pc;
    if left == [] {
      assert m.w.closed + [] == m.w.closed;
      MovedNowhere(m, c);
    } else {
      var w := m.w.(closed := m.w.closed + [left[0]]);
      assert CloseBatchStep(m, c) == Moved(m, w, c, Rejecting(pooled, left[1..]));
      assert left == [left[0]] + left[1..];
      assert w.closed + left[1..] == m.w.closed + left;
      MovedTwice(m, w, m.w.(closed := m.w.closed + left), c, Rejecting(pooled, left[1..]), Rejecting(pooled, []));
    }
  }

  lemma {:induction false} SoloRollback(config: Config, c: Conn, m: Server)
    requires IsRejecting(m, c)
    ensures Leads(config, c, m, BatchClosed(m, c))
    decreases |m.handlers[c].pc.left|
  {
    BatchClosedStep(m, c);
    if m.handlers[c].pc.left == [] {
      LeadsSelf(config, c, m);
    } else {
      var k := CloseBatchStep(m, c);
      DoCloseBatch(config, c, m);
      SoloRollback(config, c, k);
      LeadsTrans(config, c, m, k, BatchClosed(m, c));
    }
  }

  /** A rejecting handler that still has its pool entry, or has none. */
  lemma SoloReject(config: Config, c: Conn, m: Server) returns (n: Server)
    requires IsRejecting(m, c) && m.handlers[c].pc == Rejecting(true, []) && m.lock.Unlocked?
    ensures Leads(config, c, m, n)
    ensures n == Goto(m.(w := DeleteConn(m.w, m.handlers[c].id)), c, Finished)
  {
    var k := RejectStep(m, c);
    DoReject(config, c, m);
    if m.handlers[c].id in m.w.pool {
      var f := SoloFree(config, c, k);
      LeadsTrans(config, c, m, k, f);
      n := f.(lock := Unlocked);
      DoLeave(config, c, f);
      LeadsTrans(config, c, m, f, n);
    } else {
      n := k;
    }
  }

  function Requests(offers: seq<Offer>): (todo: seq<Request>)
    ensures |todo| == |offers|
    ensures forall k :: 0 <= k < |offers| ==> todo[k] == Request(offers[k].name, offers[k].tunnel)
  {
    seq(|offers|, k requires 0 <= k < |offers| => Request(offers[k].name, offers[k].tunnel))
  }

  /** net.Listen returns a listener never seen before, each time. */
  ghost predicate FreshOffers(everOpened: set<Listener>, offers: seq<Offer>) {
    NeverSeen(everOpened, offers) && Listeners.NoDuplicates(OfferedBatch("", offers).listeners)
  }

  /** The first listener is new, and the others are new also once it is open. */
  lemma FreshTail(everOpened: set<Listener>, offers: seq<Offer>)
    requires offers != [] && FreshOffers(everOpened, offers)
    ensures forall l :: l in ItemOf("", offers[0]).listeners ==> l !in everOpened
    ensures FreshOffers(everOpened + (set l | l in ItemOf("", offers[0]).listeners), offers[1..])
  {
    Listeners.SplitDistinct(ItemOf("", offers[0]).listeners, OfferedBatch("", offers[1..]).listeners);
  }

  function WithListeners(w: State, ls: seq<Listener>): State {
    w.(everOpened := w.everOpened + (set l | l in ls))
  }

  /** Where the loop of `addTunnels` leaves the handler. */
  function LoopEnd(base: string, offers: seq<Offer>, batch: Registration): Pc {
    var (b, error) := Build(base, offers, batch);
    if error.Some? then Rejecting(true, b.listeners) else Opening([], b)
  }

  /** The loop of `addTunnels`, one step a tunnel. */
  lemma {:induction false} SoloOpening(config: Config, c: Conn, m: Server, offers: seq<Offer>, batch: Registration)
    returns (n: Server)
    requires At(m, c, Opening(Requests(offers), batch)) && FreshOffers(m.w.everOpened, offers)
    requires forall l :: l in batch.listeners ==> l in m.w.everOpened
    ensures Leads(config, c, m, n)
    ensures n == Moved(m, WithListeners(m.w, Build(config.baseDomain, offers, batch).0.listeners), c,
                       LoopEnd(config.baseDomain, offers, batch))
    decreases |offers|
  {
    if offers == [] {
      n := m;
      LeadsSelf(config, c, m);
      assert WithListeners(m.w, batch.listeners) == m.w;
      MovedNowhere(m, c);
    } else {
      var listen := Consulted(offers[0]);
      FreshTail(m.w.everOpened, offers);
      ConsultedIsFresh(m.w.everOpened, offers);
      OpenMatches(config, c, m, offers, batch);
      var k := OpenStep(config.baseDomain, m, c, listen);
      DoOpen(config, c, m, listen);
      var (next, error) := BuildOne(config.baseDomain, offers[0], batch);
      if error.Some? {
        n := k;
        assert WithListeners(m.w, batch.listeners) == m.w == WithListeners(m.w, []);
      } else {
        n := SoloOpening(config, c, k, offers[1..], next);
        LeadsTrans(config, c, m, k, n);
        MovedTwice(m, k.w, n.w, c, Opening(Requests(offers[1..]), next), LoopEnd(config.baseDomain, offers[1..], next));
        BuildGrows(config.baseDomain, offers[1..], next);
        var b := Build(config.baseDomain, offers, batch).0;
        assert WithListeners(k.w, b.listeners) == WithListeners(m.w, b.listeners);
      }
    }
  }

  /** Only a TCP tunnel consults net.Listen. */
  function Consulted(offer: Offer): Option<Listener> {
    if IsTcp(offer.tunnel.protocol) then offer.listen else None
  }

  lemma ConsultedIsFresh(everOpened: set<Listener>, offers: seq<Offer>)
    requires offers != [] && FreshOffers(everOpened, offers)
    ensures Consulted(offers[0]).Some? ==> Consulted(offers[0]).value !in everOpened
  {
    FreshTail(everOpened, offers);
    assert Consulted(offers[0]).Some? ==> Consulted(offers[0]).value in ItemOf("", offers[0]).listeners;
  }

  /** The outcome of one round of the loop, for an acceptable tunnel and for any other. */
  lemma RoundOutcome(base: string, offer: Offer, listen: Option<Listener>, batch: Registration)
    requires listen == Consulted(offer)
    ensures var request := Request(offer.name, offer.tunnel);
            var (next, error) := BuildOne(base, offer, batch);
            && BuildOne(base, Offer(request.name, request.tunnel, listen), batch) == (next, error)
            && NewListeners(base, request, listen) == ItemOf("", offer).listeners
            && (error.Some? ==> next == batch && ItemOf("", offer).listeners == [])
            && (error == None ==> next.listeners == batch.listeners + ItemOf("", offer).listeners)
  {
    assert batch.listeners + [] == batch.listeners;
  }

  /** One Open step does what one round of the loop computes. */
  lemma OpenMatches(config: Config, c: Conn, m: Server, offers: seq<Offer>, batch: Registration)
    requires offers != [] && At(m, c, Opening(Requests(offers), batch))
    ensures var (next, error) := BuildOne(config.baseDomain, offers[0], batch);
            && OpenStep(config.baseDomain, m, c, Consulted(offers[0]))
               == Moved(m, WithListeners(m.w, ItemOf("", offers[0]).listeners), c,
                        if error.Some? then Rejecting(true, batch.listeners) else Opening(Requests(offers[1..]), next))
            && (error.Some? ==> next == batch && ItemOf("", offers[0]).listeners == [])
            && (error == None ==> next.listeners == batch.listeners + ItemOf("", offers[0]).listeners)
  {
    var offer := offers[0];
    RoundOutcome(config.baseDomain, offer, Consulted(offer), batch);
    assert Requests(offers)[0] == Request(offer.name, offer.tunnel);
    assert Requests(offers)[1..] == Requests(offers[1..]);
  }

  lemma {:induction false} BuildGrows(base: string, offers: seq<Offer>, batch: Registration)
    ensures forall l :: l in batch.listeners ==> l in Build(base, offers, batch).0.listeners
    decreases |offers|
  {
    if offers != [] {
      var (next, error) := BuildOne(base, offers[0], batch);
      if error == None {
        BuildGrows(base, offers[1..], next);
      }
    }
  }

  /** The attempt is over: its handler finished, nobody in the pool, the shared state `w`. */
  predicate EndsAs(m: Server, c: Conn, n: Server, w: State)
    requires c in m.handlers
  {
    && n.w == w && n.lock.Unlocked?
    && n.handlers == m.handlers[c := Handler(m.handlers[c].id, Finished)]
  }

  lemma EndsLater(m: Server, k: Server, c: Conn, n: Server, w: State, pc: Pc)
    requires c in m.handlers && k.handlers == m.handlers[c := Handler(m.handlers[c].id, pc)]
    requires EndsAs(k, c, n, w)
    ensures EndsAs(m, c, n, w)
  {
  }

  /** A handler that is refused before it is pooled closes its own connection. */
  lemma SoloRefused(config: Config, c: Conn, m: Server)
    requires At(m, c, Rejecting(false, []))
    ensures Leads(config, c, m, Moved(m, CloseConn(m.w, c), c, Finished))
  {
    DoReject(config, c, m);
  }

  /** Closing the batch, then leaving the pool. */
  lemma SoloUndo(config: Config, c: Conn, m: Server) returns (n: Server)
    requires IsRejecting(m, c) && m.handlers[c].pc.pooled && m.lock.Unlocked?
    ensures Leads(config, c, m, n)
    ensures EndsAs(m, c, n, DeleteConn(m.w.(closed := m.w.closed + m.handlers[c].pc.left), m.handlers[c].id))
  {
    SoloRollback(config, c, m);
    var r := BatchClosed(m, c);
    n := SoloReject(config, c, r);
    LeadsTrans(config, c, m, r, n);
  }

  /** From the end of the loop in `addTunnels` to the end of the attempt. */
  lemma SoloSet(config: Config, c: Conn, m: Server, w: State, offers: seq<Offer>) returns (n: Server)
    requires c in m.handlers && m.lock.Unlocked?
    requires m.w == WithListeners(w, Build(config.baseDomain, offers, EMPTY_BATCH).0.listeners)
    requires m.handlers[c].pc == LoopEnd(config.baseDomain, offers, EMPTY_BATCH)
    ensures Leads(config, c, m, n)
    ensures EndsAs(m, c, n, AfterOffers(w, config, m.handlers[c].id, offers))
  {
    var (b, error) := Build(config.baseDomain, offers, EMPTY_BATCH);
    if error.Some? {
      n := SoloUndo(config, c, m);
    } else {
      DoSet(config, c, m);
      var k := SetStep(m, c);
      if Refusal(w.reg, b, m.handlers[c].id).Some? {
        n := SoloUndo(config, c, k);
        LeadsTrans(config, c, m, k, n);
        EndsLater(m, k, c, n, n.w, k.handlers[c].pc);
      } else {
        n := k;
      }
    }
  }

  /** A failed handshake. */
  lemma SoloUnoffered(config: Config, c: Conn, m: Server) returns (n: Server)
    requires At(m, c, Handshaking) && m.lock.Unlocked?
    ensures Leads(config, c, m, n) && EndsAs(m, c, n, DeleteConn(m.w, m.handlers[c].id))
  {
    DoHandshake(config, c, m, None);
    var k := HandshakeStep(m, c, None);
    n := SoloReject(config, c, k);
    LeadsTrans(config, c, m, k, n);
  }

  /** A handshake that brings tunnels. */
  lemma SoloOffered(config: Config, c: Conn, m: Server, offers: seq<Offer>) returns (n: Server)
    requires At(m, c, Handshaking) && m.lock.Unlocked? && IsPooled(m, c)
    requires offers != [] && FreshOffers(m.w.everOpened, offers)
    ensures Leads(config, c, m, n) && EndsAs(m, c, n, AfterOffers(m.w, config, m.handlers[c].id, offers))
  {
    hide Leads, AfterOffers, FreshOffers;
    var todo := Requests(offers);
    DoHandshake(config, c, m, Some(todo));
    var k := HandshakeStep(m, c, Some(todo));
    var o := SoloOpening(config, c, k, offers, EMPTY_BATCH);
    LeadsTrans(config, c, m, k, o);
    n := SoloSet(config, c, o, m.w, offers);
    LeadsTrans(config, c, m, o, n);
    EndsLater(m, o, c, n, n.w, o.handlers[c].pc);
  }

  /** From a pooled connection to the end of the attempt. */
  lemma SoloPooled(config: Config, c: Conn, m: Server, handshake: Option<seq<Offer>>) returns (n: Server)
    requires At(m, c, Handshaking) && m.lock.Unlocked? && IsPooled(m, c)
    requires handshake.Some? ==> FreshOffers(m.w.everOpened, handshake.value)
    ensures Leads(config, c, m, n) && EndsAs(m, c, n, AfterPooled(m.w, config, m.handlers[c].id, handshake))
  {
    if handshake == None || handshake.value == [] {
      n := SoloUnoffered(config, c, m);
    } else {
      n := SoloOffered(config, c, m, handshake.value);
    }
  }

  /** Replacing a dead predecessor inside `AddConn`, up to its end. */
  lemma SoloReplace(config: Config, c: Conn, m: Server, dialed: Option<ClientConn>) returns (n: Server)
    requires At(m, c, Adding) && m.lock.Unlocked? && FreshClientConn(m, dialed)
    requires m.handlers[c].id in m.w.pool
    ensures Leads(config, c, m, n)
    ensures n == Dial(Moved(m, CloseEntry(m.w, m.handlers[c].id), c, Replacing), c, dialed)
  {
    hide Leads;
    var id := m.handlers[c].id;
    DoAdd(config, c, m, false, dialed);
    var k := AddStep(m, c, false, dialed);
    var f := SoloFree(config, c, k);
    LeadsTrans(config, c, m, k, f);
    DoFinishAdd(config, c, f, dialed);
    n := Dial(f.(lock := Unlocked), c, dialed);
    LeadsTrans(config, c, m, f, n);
    assert f.(lock := Unlocked) == Moved(m, CloseEntry(m.w, id), c, Replacing);
  }

  /** `AddConn` without interference. */
  lemma SoloAdd(config: Config, c: Conn, m: Server, alive: bool, dialed: Option<ClientConn>) returns (n: Server)
    requires At(m, c, Adding) && m.lock.Unlocked? && FreshClientConn(m, dialed)
    ensures Leads(config, c, m, n) && n.lock.Unlocked?
    ensures n.w == AfterAddConn(m.w, c, m.handlers[c].id, alive, dialed)
    ensures var pc := if AddConnError(m.w, m.handlers[c].id, alive, dialed) == None then Handshaking else Rejecting(false, []);
            n.handlers == m.handlers[c := Handler(m.handlers[c].id, pc)]
  {
    hide Leads;
    var id := m.handlers[c].id;
    if id in m.w.pool && !alive {
      n := SoloReplace(config, c, m, dialed);
    } else {
      DoAdd(config, c, m, alive, dialed);
      n := AddStep(m, c, alive, dialed);
    }
  }

  /** `AddConn` and what follows, for an attempt whose subscription and deadline are settled. */
  lemma SoloEnter(config: Config, c: Conn, m: Server, a: Attempt) returns (n: Server)
    requires At(m, c, Adding) && m.lock.Unlocked? && FreshClientConn(m, a.dialed)
    requires a.handshake.Some? ==> FreshOffers(m.w.everOpened, a.handshake.value)
    requires m.handlers[c].id in m.w.reg.items && a.deadlineSet
    ensures Leads(config, c, m, n) && EndsAs(m, c, n, AfterAdmitted(m.w, config, c, m.handlers[c].id, a))
  {
    var id := m.handlers[c].id;
    var k := SoloAdd(config, c, m, a.alive, a.dialed);
    if AddConnError(m.w, id, a.alive, a.dialed).Some? {
      SoloRefused(config, c, k);
      n := Moved(k, CloseConn(k.w, c), c, Finished);
    } else {
      SameOpened(m.w, c, id, a);
      n := SoloPooled(config, c, k, a.handshake);
    }
    LeadsTrans(config, c, m, k, n);
    EndsLater(m, k, c, n, n.w, k.handlers[c].pc);
  }

  lemma SameOpened(w: State, c: Conn, id: Id, a: Attempt)
    ensures AfterAddConn(w, c, id, a.alive, a.dialed).everOpened == w.everOpened
  {
  }

  /** A handler refused before `AddConn`, for its certificate or its deadline. */
  lemma SoloTurnedAway(config: Config, c: Conn, m: Server) returns (n: Server)
    requires (At(m, c, Starting) || At(m, c, Adding)) && m.lock.Unlocked?
    ensures Leads(config, c, m, n) && EndsAs(m, c, n, CloseConn(m.w, c))
  {
    DoRefuse(config, c, m);
    var k := Goto(m, c, Rejecting(false, []));
    SoloRefused(config, c, k);
    n := Moved(k, CloseConn(k.w, c), c, Finished);
    LeadsTrans(config, c, m, k, n);
  }

  /** From the settled subscription to the end of the attempt. */
  lemma SoloAdmitted(config: Config, c: Conn, m: Server, a: Attempt) returns (n: Server)
    requires c in m.handlers && m.lock.Unlocked? && FreshClientConn(m, a.dialed)
    requires a.handshake.Some? ==> FreshOffers(m.w.everOpened, a.handshake.value)
    requires m.handlers[c].pc == if m.handlers[c].id in m.w.reg.items then Adding else Rejecting(false, [])
    ensures Leads(config, c, m, n) && EndsAs(m, c, n, AfterAdmitted(m.w, config, c, m.handlers[c].id, a))
  {
    if m.handlers[c].pc.Rejecting? {
      SoloRefused(config, c, m);
      n := Moved(m, CloseConn(m.w, c), c, Finished);
    } else if !a.deadlineSet {
      n := SoloTurnedAway(config, c, m);
    } else {
      n := SoloEnter(config, c, m, a);
    }
  }

  lemma SoloIdentified(config: Config, c: Conn, m: Server, a: Attempt) returns (n: Server)
    requires At(m, c, Starting) && m.lock.Unlocked? && FreshClientConn(m, a.dialed)
    requires a.handshake.Some? ==> FreshOffers(m.w.everOpened, a.handshake.value)
    ensures Leads(config, c, m, n)
    ensures EndsAs(m, c, n, AfterAdmitted(Admitted(m.w, config, m.handlers[c].id), config, c, m.handlers[c].id, a))
  {
    DoAdmit(config, c, m);
    var k := AdmitStep(config, m, c);
    assert k.w == Admitted(m.w, config, m.handlers[c].id);
    n := SoloAdmitted(config, c, k, a);
    LeadsTrans(config, c, m, k, n);
    EndsLater(m, k, c, n, n.w, k.handlers[c].pc);
  }

  /**
   * Atomicity: a new connection's steps, with no other step in between, can be
   * taken to the end, and together they are `handleClient` as one operation.
   */
  lemma SoloHandle(config: Config, c: Conn, id: Id, m: Server, a: Attempt) returns (n: Server)
    requires c !in m.handlers && m.lock.Unlocked? && FreshClientConn(m, a.dialed)
    requires a.handshake.Some? ==> FreshOffers(m.w.everOpened, a.handshake.value)
    ensures Leads(config, c, m, n)
    ensures n.w == AfterHandle(m.w, config, c, id, a)
    ensures n.handlers == m.handlers[c := Handler(id, Finished)] && n.lock.Unlocked?
  {
    DoAccept(config, c, m, id);
    var k := AcceptStep(m, c, id);
    if !a.identified {
      n := SoloTurnedAway(config, c, k);
    } else {
      n := SoloIdentified(config, c, k, a);
    }
    LeadsTrans(config, c, m, k, n);
  }

  // ------------------------------------------------- the other operations

  /** Some steps lead from `m` to `n`. */
  ghost predicate Reaches(config: Config, m: Server, n: Server) {
    exists steps :: Runs(config, m, steps) && After(config, m, steps) == n
  }

  lemma ReachesTrans(config: Config, m: Server, n: Server, o: Server)
    requires Reaches(config, m, n) && Reaches(config, n, o)
    ensures Reaches(config, m, o)
  {
    var a :| Runs(config, m, a) && After(config, m, a) == n;
    var b :| Runs(config, n, b) && After(config, n, b) == o;
    RunsAppend(config, m, a, b);
  }

  lemma ReachesStep(config: Config, m: Server, step: Step)
    requires Enabled(m, step)
    ensures Reaches(config, m, Next(config, m, step))
  {
    OneStep(config, m, step);
  }

  /** From the removal of an entry to the point where the pool's mutex can be released, as `connPool.close` in one go. */
  lemma SoloRemoval(config: Config, m: Server, id: Id, next: Then) returns (n: Server)
    requires id in m.w.pool
    ensures Reaches(config, Lifecycle.Remove(m, id, next), n)
    ensures n == m.(w := CloseEntry(m.w, id), lock := Closing(id, [], next))
  {
    n := SoloFree(config, m.w.pool[id].conn, Lifecycle.Remove(m, id, next));
  }

  lemma DoRelease(config: Config, m: Server)
    requires m.lock.Closing? && m.lock.left == [] && !m.lock.next.FinishAdding?
    ensures Reaches(config, m, LeaveStep(m))
  {
    ReachesStep(config, m, Leave);
  }

  /** Atomicity of `MarkDead` and of an eviction: alone, they close the entry and nothing else. */
  lemma SoloDrop(config: Config, m: Server, id: Id, evict: bool) returns (n: Server)
    requires m.lock.Unlocked? && id in m.w.pool
    requires evict ==> (id, m.w.pool[id]) in m.lookups
    ensures Reaches(config, m, n) && n == m.(w := CloseEntry(m.w, id))
  {
    var k := Lifecycle.Remove(m, id, LeavePool);
    ReachesStep(config, m, if evict then Evict(id, m.w.pool[id]) else MarkDead(id, m.w.pool[id].clientConn));
    var f := SoloRemoval(config, m, id, LeavePool);
    ReachesTrans(config, m, k, f);
    DoRelease(config, f);
    n := LeaveStep(f);
    ReachesTrans(config, m, f, n);
  }

  /** Atomicity of `Unsubscribe`: its critical sections, with no other step in between, are the operation. */
  lemma SoloUnsubscribe(config: Config, m: Server, id: Id) returns (n: Server)
    requires m.lock.Unlocked?
    ensures Reaches(config, m, n) && n.w == AfterUnsubscribe(m.w, id)
    ensures n.lock.Unlocked? && n.handlers == m.handlers && n.unsubscribing == m.unsubscribing
    ensures n.handedOut == m.handedOut + ItemsOf(DeleteConn(m.w, id).reg, id)
  {
    var k := SoloUnpool(config, m, id);
    n := UnregisterStep(k, id);
    ReachesStep(config, k, Unregister(id));
    ReachesTrans(config, m, k, n);
  }

  lemma SoloUnpool(config: Config, m: Server, id: Id) returns (n: Server)
    requires m.lock.Unlocked?
    ensures Reaches(config, m, n)
    ensures n == m.(w := DeleteConn(m.w, id), unsubscribing := m.unsubscribing + multiset{id})
  {
    ReachesStep(config, m, Unsubscribe(id));
    n := UnsubscribeStep(m, id);
    if id in m.w.pool {
      var f := SoloRemoval(config, m, id, FinishUnsubscribe(id));
      ReachesTrans(config, m, n, f);
      DoRelease(config, f);
      n := LeaveStep(f);
      ReachesTrans(config, m, f, n);
    }
  }
}
