/**
 * The server is never wedged: from every reachable state some continuation lets
 * every handler finish, with the pool's mutex free and nothing in flight.
 */
module Draining {
  import opened Text
  import opened Registry
  import opened World
  import opened Lifecycle
  import opened Solo
  import opened Listeners

  /** Whoever holds the pool's mutex can always take the next step. */
  lemma HolderCanMove(config: Config, m: Server)
    requires Reachable(config, m) && !m.lock.Unlocked?
    ensures Enabled(m, Clear) || Enabled(m, CloseListener) || Enabled(m, Leave)
            || (m.lock.next.FinishAdding? && Enabled(m, FinishAdd(m.lock.next.conn, None)))
  {
    ReachableInv(config, m);
    assert LockOk(m);
  }

  lemma LeadsReaches(config: Config, c: Conn, m: Server, n: Server)
    requires Leads(config, c, m, n)
    ensures Reaches(config, m, n)
  {
    hide Runs, After, AllOwn;
    var steps :| Runs(config, m, steps) && AllOwn(config, m, steps, c) && After(config, m, steps) == n;
  }

  lemma ReachesInv(config: Config, m: Server, n: Server)
    requires Inv(m) && Reaches(config, m, n)
    ensures Inv(n)
  {
    hide Inv, Runs, After;
    var steps :| Runs(config, m, steps) && After(config, m, steps) == n;
    RunInv(config, m, steps);
  }

  // ----------------------------------------------------------- the pool's mutex

  /** Close lists are worked off. */
  lemma ListWorkedOff(config: Config, m: Server) returns (n: Server)
    requires !m.lock.Unlocked? && Inv(m)
    ensures Reaches(config, m, n) && n.handlers == m.handlers
    ensures n.lock.Closing? && n.lock.left == [] && n.lock.next == m.lock.next
  {
    hide Leads, Reaches, Inv;
    var c: Conn := 0;
    if m.lock.Freeing? {
      n := SoloFree(config, c, m);
    } else {
      SoloClosing(config, c, m);
      n := ListClosed(m);
    }
    LeadsReaches(config, c, m, n);
  }

  /** The mutex is released; a handler that was replacing its predecessor then finds it cannot use its own connection. */
  lemma Release(config: Config, m: Server) returns (n: Server)
    requires Inv(m)
    ensures Reaches(config, m, n) && n.lock.Unlocked? && n.handlers.Keys == m.handlers.Keys
  {
    hide Reaches, Inv;
    if m.lock.Unlocked? {
      n := m;
      ReachesSelf(config, m);
    } else {
      var k := ListWorkedOff(config, m);
      ReachesInv(config, m, k);
      if k.lock.next.FinishAdding? {
        var c := k.lock.next.conn;
        ReplacingHolds(k);
        ReachesStep(config, k, FinishAdd(c, None));
        n := Dial(k.(lock := Unlocked), c, None);
      } else {
        DoRelease(config, k);
        n := LeaveStep(k);
      }
      ReachesTrans(config, m, k, n);
    }
  }

  lemma ReplacingHolds(m: Server)
    requires Inv(m) && !m.lock.Unlocked? && m.lock.next.FinishAdding?
    ensures At(m, m.lock.next.conn, Replacing)
  {
    assert LockOk(m);
  }

  lemma ReachesSelf(config: Config, m: Server)
    ensures Reaches(config, m, m)
  {
    assert Runs(config, m, []) && After(config, m, []) == m;
  }

  // ------------------------------------------------------------- one handler

  /** The handler is done, nobody holds the mutex, and no other handler has moved. */
  predicate Done(m: Server, c: Conn, n: Server)
    requires c in m.handlers
  {
    n.lock.Unlocked? && n.handlers == m.handlers[c := Handler(m.handlers[c].id, Finished)]
  }

  lemma DoneLater(m: Server, k: Server, c: Conn, n: Server, pc: Pc)
    requires c in m.handlers && k.handlers == m.handlers[c := Handler(m.handlers[c].id, pc)] && Done(k, c, n)
    ensures Done(m, c, n)
  {
  }

  lemma FinishRejecting(config: Config, m: Server, c: Conn) returns (n: Server)
    requires IsRejecting(m, c) && m.lock.Unlocked?
    ensures Leads(config, c, m, n) && Done(m, c, n)
  {
    hide Leads;
    if m.handlers[c].pc.pooled {
      n := SoloUndo(config, c, m);
    } else {
      SoloRollback(config, c, m);
      var k := BatchClosed(m, c);
      SoloRefused(config, c, k);
      n := Moved(k, CloseConn(k.w, c), c, Finished);
      LeadsTrans(config, c, m, k, n);
    }
  }

  /** No listener opens any more: the first TCP tunnel makes the batch fail, and without one it is `set` that decides. */
  lemma {:induction false} FinishOpening(config: Config, m: Server, c: Conn) returns (n: Server)
    requires IsOpening(m, c) && m.lock.Unlocked?
    ensures Leads(config, c, m, n) && Done(m, c, n)
    decreases |m.handlers[c].pc.todo|
  {
    hide Leads, BuildOne, NewListeners, Refusal, AfterSet;
    var k: Server;
    if m.handlers[c].pc.todo != [] {
      DoOpen(config, c, m, None);
      k := OpenStep(config.baseDomain, m, c, None);
      if IsRejecting(k, c) {
        n := FinishRejecting(config, k, c);
      } else {
        n := FinishOpening(config, k, c);
      }
      LeadsTrans(config, c, m, k, n);
      DoneLater(m, k, c, n, k.handlers[c].pc);
    } else {
      DoSet(config, c, m);
      k := SetStep(m, c);
      if IsRejecting(k, c) {
        n := FinishRejecting(config, k, c);
        LeadsTrans(config, c, m, k, n);
        DoneLater(m, k, c, n, k.handlers[c].pc);
      } else {
        n := k;
      }
    }
  }

  /** With the mutex free every handler can be taken to its end by its own steps. */
  lemma FinishHandler(config: Config, m: Server, c: Conn) returns (n: Server)
    requires c in m.handlers && m.lock.Unlocked? && !m.handlers[c].pc.Replacing? && !m.handlers[c].pc.Finished?
    ensures Leads(config, c, m, n) && Done(m, c, n)
  {
    hide Leads;
    match m.handlers[c].pc
    case Starting => n := SoloTurnedAway(config, c, m);
    case Adding => n := SoloTurnedAway(config, c, m);
    case Handshaking => n := SoloUnoffered(config, c, m);
    case Opening(_, _) => n := FinishOpening(config, m, c);
    case Rejecting(_, _) => n := FinishRejecting(config, m, c);
  }

  // ------------------------------------------------------------- all of them

  function Busy(m: Server): set<Conn> {
    set c | c in m.handlers && !m.handlers[c].pc.Finished?
  }

  lemma NotReplacing(m: Server, c: Conn)
    requires Inv(m) && m.lock.Unlocked? && c in m.handlers
    ensures !m.handlers[c].pc.Replacing?
  {
    assert HandlerOk(m, c);
  }

  lemma {:induction false} FinishAll(config: Config, m: Server) returns (n: Server)
    requires Inv(m) && m.lock.Unlocked?
    ensures Reaches(config, m, n) && n.lock.Unlocked? && Busy(n) == {}
    decreases |Busy(m)|
  {
    hide Reaches, Leads, Inv;
    if Busy(m) == {} {
      n := m;
      ReachesSelf(config, m);
    } else {
      var c :| c in Busy(m);
      NotReplacing(m, c);
      var k := FinishHandler(config, m, c);
      LeadsReaches(config, c, m, k);
      ReachesInv(config, m, k);
      assert Busy(k) == Busy(m) - {c};
      n := FinishAll(config, k);
      ReachesTrans(config, m, k, n);
    }
  }

  /** The calls of `Unsubscribe` that are past the pool come to their end. */
  lemma {:induction false} FinishCalls(config: Config, m: Server) returns (n: Server)
    ensures Reaches(config, m, n) && n.unsubscribing == multiset{}
    ensures n.handlers == m.handlers && n.lock == m.lock
    decreases |m.unsubscribing|
  {
    hide Reaches;
    if m.unsubscribing == multiset{} {
      n := m;
      ReachesSelf(config, m);
    } else {
      var id :| id in m.unsubscribing;
      ReachesStep(config, m, Unregister(id));
      var k := UnregisterStep(m, id);
      n := FinishCalls(config, k);
      ReachesTrans(config, m, k, n);
    }
  }

  /** The mutex is free, every handler has finished, every call has returned, and nothing is in flight. */
  ghost predicate Drained(m: Server) {
    m.lock.Unlocked? && (forall c :: c in m.handlers ==> m.handlers[c].pc.Finished?)
    && m.unsubscribing == multiset{} && Quiet(m)
  }

  /**
   * From every reachable state some continuation drains the server: no
   * interleaving leads to a state from which handlers, mutex or close lists
   * cannot come to their end.
   */
  lemma CanDrain(config: Config, m: Server) returns (n: Server)
    requires Reachable(config, m)
    ensures Reaches(config, m, n) && Reachable(config, n) && Drained(n)
  {
    hide Reaches, Reachable, Inv;
    ReachableInv(config, m);
    var r := Release(config, m);
    ReachesInv(config, m, r);
    var f := FinishAll(config, r);
    n := FinishCalls(config, f);
    ReachesTrans(config, m, r, f);
    ReachesTrans(config, m, f, n);
    ReachableFrom(config, m, n);
    assert forall c :: c in n.handlers ==> c !in Busy(n);
  }

  lemma ReachableFrom(config: Config, m: Server, n: Server)
    requires Reachable(config, m) && Reaches(config, m, n)
    ensures Reachable(config, n)
  {
    hide Runs, After;
    var a :| Runs(config, INITIAL, a) && After(config, INITIAL, a) == m;
    var b :| Runs(config, m, b) && After(config, m, b) == n;
    RunsAppend(config, INITIAL, a, b);
  }

  /** In a drained state the open listeners are exactly those of registered clients and of items handed out. */
  lemma DrainedListeners(config: Config, m: Server, l: Listener)
    requires Reachable(config, m) && Drained(m)
    ensures l in m.w.everOpened && l !in m.w.closed
            <==> (exists id :: l in HeldAt(m, Item(id))) || (exists k :: l in HeldAt(m, Handed(k)))
  {
    OpenListeners(config, m, l);
  }
}
