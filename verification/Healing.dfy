/**
 * Self-healing: what becomes of a client with a registration from an earlier
 * connection when it comes back and nobody interferes.
 */
module Healing {
  import opened Text
  import opened Registry
  import opened World
  import opened Lifecycle
  import opened Solo

  /**
   * Where a pooled attempt of a client with a stale registration can be: still
   * in the pool; or out of it, with the registration about to be cleared, or
   * cleared with stale listeners still to be closed, or done.
   */
  ghost predicate Healing(m: Server, c: Conn, id: Id, stale: seq<Listener>, others: map<Id, Slot>) {
    && c in m.handlers && m.handlers[c].id == id
    && id in m.w.reg.items && m.w.reg.items - {id} == others
    && (Stale(m, c, id, stale) || (Gone(m, c, id) && Clearing(m, id, c, stale)))
  }

  ghost predicate Stale(m: Server, c: Conn, id: Id, stale: seq<Listener>)
    requires c in m.handlers && id in m.w.reg.items
  {
    var pc := m.handlers[c].pc;
    && m.lock.Unlocked? && IsPooled(m, c) && m.handlers[c].id == id
    && m.w.reg.items[id].Held? && m.w.reg.items[id].reg.listeners == stale
    && (pc.Handshaking? || pc.Opening? || (pc.Rejecting? && pc.pooled))
  }

  /** The connection has left the pool, through a rejection or through the handler's own lookup. */
  predicate Gone(m: Server, c: Conn, id: Id)
    requires c in m.handlers
  {
    var pc := m.handlers[c].pc;
    && id !in m.w.pool && m.handlers[c].id == id && c in m.w.closedConns
    && (pc.Finished? || pc.Handshaking? || pc == Rejecting(true, []))
  }

  ghost predicate Clearing(m: Server, id: Id, c: Conn, stale: seq<Listener>)
    requires id in m.w.reg.items
  {
    match m.lock
    case Freeing(i, gone, next) =>
      i == id && gone == c && next.LeavePool? && m.w.reg.items[id].Held? && m.w.reg.items[id].reg.listeners == stale
    case Closing(_, left, next) =>
      next.LeavePool? && m.w.reg.items[id].Void? && forall l :: l in stale ==> l in m.w.closed || l in left
    case Unlocked => m.w.reg.items[id].Void? && forall l :: l in stale ==> l in m.w.closed
  }

  lemma LockHeals(config: Config, m: Server, step: Step, c: Conn, id: Id, stale: seq<Listener>, others: map<Id, Slot>)
    requires Healing(m, c, id, stale, others) && Enabled(m, step)
    requires step.Clear? || step.CloseListener? || step.Leave?
    ensures Healing(Next(config, m, step), c, id, stale, others)
  {
    var n := Next(config, m, step);
    if step.Clear? {
      assert n.w.reg.items - {id} == m.w.reg.items - {id};
    }
    if step.CloseListener? {
      forall l | l in stale ensures l in n.w.closed || l in n.lock.left {
        assert m.lock.left == [m.lock.left[0]] + n.lock.left;
      }
    }
  }

  lemma LookupHeals(config: Config, m: Server, step: Step, c: Conn, id: Id, stale: seq<Listener>, others: map<Id, Slot>)
    requires Healing(m, c, id, stale, others) && Enabled(m, step) && OwnLookup(m, step, c)
    ensures Healing(Next(config, m, step), c, id, stale, others)
  {
  }

  /** The handler's steps while its connection is pooled: `set` is refused, and a rejection removes the entry. */
  lemma PooledHeals(config: Config, m: Server, step: Step, c: Conn, id: Id, stale: seq<Listener>, others: map<Id, Slot>)
    requires Healing(m, c, id, stale, others) && Stale(m, c, id, stale)
    requires Enabled(m, step) && ByHandler(step) && step.conn == c
    ensures Healing(Next(config, m, step), c, id, stale, others)
  {
    hide BuildOne, NewListeners, FirstOccupied;
  }

  lemma GoneHeals(config: Config, m: Server, step: Step, c: Conn, id: Id, stale: seq<Listener>, others: map<Id, Slot>)
    requires Healing(m, c, id, stale, others) && Gone(m, c, id)
    requires Enabled(m, step) && ByHandler(step) && OwnStep(m, step, c)
    ensures Healing(Next(config, m, step), c, id, stale, others)
  {
    assert step.Handshake? || step.Reject? by {
      hide Healing, Next;
    }
    hide AcceptStep, AdmitStep, AddStep, Dial, OpenStep, SetStep, CloseBatchStep;
  }

  lemma HealingStep(config: Config, m: Server, step: Step, c: Conn, id: Id, stale: seq<Listener>, others: map<Id, Slot>)
    requires Healing(m, c, id, stale, others) && Enabled(m, step) && OwnStep(m, step, c)
    ensures Healing(Next(config, m, step), c, id, stale, others)
  {
    if step.Clear? || step.CloseListener? || step.Leave? {
      LockHeals(config, m, step, c, id, stale, others);
    } else if OwnLookup(m, step, c) {
      LookupHeals(config, m, step, c, id, stale, others);
    } else if Stale(m, c, id, stale) {
      PooledHeals(config, m, step, c, id, stale, others);
    } else {
      GoneHeals(config, m, step, c, id, stale, others);
    }
  }

  lemma {:induction false} HealingRun(config: Config, m: Server, steps: seq<Step>, c: Conn, id: Id, stale: seq<Listener>, others: map<Id, Slot>)
    requires Healing(m, c, id, stale, others) && Runs(config, m, steps) && AllOwn(config, m, steps, c)
    ensures Healing(After(config, m, steps), c, id, stale, others)
    decreases |steps|
  {
    hide Next, Enabled, OwnStep, Healing;
    if steps != [] {
      HealingStep(config, m, steps[0], c, id, stale, others);
      HealingRun(config, Next(config, m, steps[0]), steps[1..], c, id, stale, others);
    }
  }

  /**
   * A pooled attempt of a client that still has a registration from before,
   * left to itself, ends rejected: the item is void, every stale listener is
   * closed, no other client is affected, and `set` will not refuse the client's
   * next attempt as an overwrite. So it is in every run without interference,
   * also when the handler's own lookup evicts its connection.
   */
  lemma SelfHealing(config: Config, m: Server, steps: seq<Step>, c: Conn)
    requires At(m, c, Handshaking) && IsPooled(m, c) && m.lock.Unlocked?
    requires HeldBy(m.w.reg, m.handlers[c].id).Some?
    requires Runs(config, m, steps) && AllOwn(config, m, steps, c)
    requires At(After(config, m, steps), c, Finished) && After(config, m, steps).lock.Unlocked?
    ensures var n := After(config, m, steps);
            var id := m.handlers[c].id;
            && id in n.w.reg.items && n.w.reg.items[id].Void? && id !in n.w.pool && c in n.w.closedConns
            && (forall l :: l in HeldBy(m.w.reg, id).value.listeners ==> l in n.w.closed)
            && n.w.reg.items - {id} == m.w.reg.items - {id}
            && (forall batch :: Refusal(n.w.reg, batch, id) != Some(Overwrite))
  {
    hide Next, Enabled, OwnStep, Runs, AllOwn, After;
    var id := m.handlers[c].id;
    HealingRun(config, m, steps, c, id, HeldBy(m.w.reg, id).value.listeners, m.w.reg.items - {id});
  }

  // ------------------------------------------------ two whole attempts in a row

  /** The attempt gets as far as `AddConn` with a connection that can be used. */
  predicate Enters(w: State, config: Config, id: Id, a: Attempt) {
    a.identified && a.deadlineSet && a.dialed.Some? && (config.autoSubscribe || id in w.reg.items)
  }

  predicate BringsTunnels(a: Attempt) { a.handshake.Some? && a.handshake.value != [] }

  /** `set` refuses a client that has a registration, whatever it brings. */
  lemma StaleRefused(w: State, base: string, offers: seq<Offer>, id: Id)
    requires HeldBy(w.reg, id).Some?
    ensures AddTunnelsError(w, base, offers, id).Some? && AfterAddTunnels(w, base, offers, id).reg == w.reg
  {
  }

  /** One whole attempt of a client with a stale registration: it fails and clears the registration. */
  lemma StaleAttempt(w: State, config: Config, c: Conn, id: Id, a: Attempt)
    requires HeldBy(w.reg, id).Some? && id !in w.pool && Enters(w, config, id, a)
    ensures var v := AfterHandle(w, config, c, id, a);
            && v.reg == Cleared(w.reg, id) && v.pool == w.pool && c in v.closedConns
            && forall l :: l in HeldBy(w.reg, id).value.listeners ==> l in v.closed
  {
    hide AddTunnelsError, AfterAddTunnels, Cleared;
    assert Subscribed(w.reg, id) == w.reg;
    var p := w.(pool := w.pool[id := ConnPair(c, a.dialed.value)]);
    if BringsTunnels(a) {
      StaleRefused(p, config.baseDomain, a.handshake.value, id);
      PoolKept(p, config.baseDomain, a.handshake.value, id);
    }
  }

  lemma PoolKept(w: State, base: string, offers: seq<Offer>, id: Id)
    ensures AfterAddTunnels(w, base, offers, id).pool == w.pool
  {
  }

  /** No client but `id` serves any of the host names. */
  ghost predicate NoOtherOwns(s: Records, id: Id, hosts: seq<string>) {
    forall other, h :: other != id && Owns(s, other, h) ==> h !in Trimmed(hosts)
  }

  /** Once a client's item is cleared, what is occupied is what other clients own. */
  lemma ClearedFrees(s: Records, id: Id, hosts: seq<string>)
    requires Indexed(s)
    ensures FirstOccupied(Cleared(s, id).hosts, hosts) == None <==> NoOtherOwns(s, id, hosts)
  {
    hide Trimmed;
    var t := Cleared(s, id);
    ClearedIndexed(s, id);
    if FirstOccupied(t.hosts, hosts) == None {
      forall other, h | other != id && Owns(s, other, h) ensures h !in Trimmed(hosts) {
        ClearLeavesOthers(s, id, other, h);
      }
    } else {
      var h :| h in Trimmed(hosts) && h in t.hosts;
      assert Owns(t, t.hosts[h], h);
      assert t.hosts[h] != id && Owns(s, t.hosts[h], h);
    }
  }

  /**
   * The attempt after a failed one of that kind is decided on its merits: it is
   * connected and registered exactly when its tunnels can be built and no other
   * client has a host of them, as if there had never been a registration.
   */
  lemma HealedAttempt(w: State, config: Config, c: Conn, d: Conn, id: Id, a: Attempt, b: Attempt)
    requires HeldBy(w.reg, id).Some? && id !in w.pool && Enters(w, config, id, a)
    requires Enters(w, config, id, b) && BringsTunnels(b)
    ensures var v := AfterHandle(w, config, c, id, a);
            var u := AfterHandle(v, config, d, id, b);
            var (batch, error) := Build(config.baseDomain, b.handshake.value, EMPTY_BATCH);
            && (id in u.pool <==> error == None && FirstOccupied(Cleared(w.reg, id).hosts, batch.hosts) == None)
            && (id in u.pool ==> u.pool[id].conn == d && HeldBy(u.reg, id) == Some(batch))
            && (Indexed(w.reg) ==> (id in u.pool <==> error == None && NoOtherOwns(w.reg, id, batch.hosts)))
  {
    hide Build, FirstOccupied, Indexed, NoOtherOwns;
    var batch := Build(config.baseDomain, b.handshake.value, EMPTY_BATCH).0;
    if Indexed(w.reg) {
      ClearedFrees(w.reg, id, batch.hosts);
    }
    StaleAttempt(w, config, c, id, a);
    var v := AfterHandle(w, config, c, id, a);
    assert v.reg.items[id].Void? && id !in v.pool && Subscribed(v.reg, id) == v.reg;
    var p := v.(pool := v.pool[id := ConnPair(d, b.dialed.value)]);
    AttendVoid(v, config, d, id, b);
    PoolKept(p, config.baseDomain, b.handshake.value, id);
  }

  /** An attempt of a client that is neither pooled nor registered comes down to `addTunnels`. */
  lemma AttendVoid(w: State, config: Config, d: Conn, id: Id, b: Attempt)
    requires id in w.reg.items && id !in w.pool && Enters(w, config, id, b) && BringsTunnels(b)
    ensures AfterHandle(w, config, d, id, b)
            == AfterOffers(w.(pool := w.pool[id := ConnPair(d, b.dialed.value)]), config, id, b.handshake.value)
  {
    hide AfterOffers;
    assert Subscribed(w.reg, id) == w.reg;
  }
}
