/** How registrations relate to pooled connections, over every interleaving. */
module Sessions {
  import opened Text
  import opened Registry
  import opened World
  import opened Lifecycle

  ghost predicate Registered(m: Server, id: Id) {
    id in m.w.reg.items && m.w.reg.items[id].Held?
  }

  /**
   * The connection whose handler set the item is still pooled exactly when it
   * was pooled at that moment and no clear of that item is about to run. So a
   * registration outlives its connection only if the connection left first.
   */
  lemma RegistrationOutlives(config: Config, m: Server, id: Id)
    requires Reachable(config, m) && Registered(m, id)
    ensures id in m.origins && At(m, m.origins[id].conn, Finished)
    ensures m.handlers[m.origins[id].conn].id == id
    ensures var Origin(c, pooled) := m.origins[id];
            && (IsPooled(m, c) <==> pooled && !ClearPending(m, id, c))
            && (c in m.w.closedConns <==> !IsPooled(m, c))
  {
    ReachableInv(config, m);
    assert ItemOk(m, id);
    var c := m.origins[id].conn;
    assert HandlerOk(m, c);
    if IsPooled(m, c) {
      assert EntryOk(m, id);
    }
  }

  /** Some handler of the client is past `AddConn` with its connection open. */
  ghost predicate HasOpenConn(m: Server, id: Id) {
    exists c :: c in m.handlers && m.handlers[c].id == id && PastPool(m.handlers[c].pc) && c !in m.w.closedConns
  }

  /** A client, registered or not, is connected exactly when a connection of its that got through `AddConn` is open. */
  lemma ConnectedExactly(config: Config, m: Server, id: Id)
    requires Reachable(config, m)
    ensures id in m.w.pool <==> HasOpenConn(m, id)
  {
    ReachableInv(config, m);
    if id in m.w.pool {
      assert EntryOk(m, id);
    }
    if c :| c in m.handlers && m.handlers[c].id == id && PastPool(m.handlers[c].pc) && c !in m.w.closedConns {
      assert HandlerOk(m, c);
    }
  }

  /** Step `k` is an accepted `set`: the handler of `o` puts `reg` under `id`, its connection pooled or not as `o` records. */
  ghost predicate PutAt(config: Config, m: Server, steps: seq<Step>, k: int, id: Id, o: Origin, reg: Registration) {
    && 0 <= k < |steps| && steps[k] == Set(o.conn)
    && Runs(config, m, steps[..k])
    && Puts(After(config, m, steps[..k]), id, o, reg)
  }

  /** The handler of `o` is about to put `reg` under `id`, and the registry takes it. */
  predicate Puts(before: Server, id: Id, o: Origin, reg: Registration) {
    && IsOpening(before, o.conn) && before.handlers[o.conn].id == id
    && before.handlers[o.conn].pc == Opening([], reg)
    && Refusal(before.w.reg, reg, id) == None
    && (IsPooled(before, o.conn) <==> o.pooled)
  }

  /** After each of the first `j` steps of the run, for `j` from `i` on, `reg` is under `id`. */
  ghost predicate StandsFrom(config: Config, m: Server, steps: seq<Step>, i: int, id: Id, reg: Registration) {
    forall j :: 0 <= i <= j <= |steps| ==>
      Runs(config, m, steps[..j]) && HeldBy(After(config, m, steps[..j]).w.reg, id) == Some(reg)
  }

  /** The item of `id` and its origin are as they were. */
  predicate KeepsItem(m: Server, n: Server, id: Id, reg: Registration)
    requires id in n.origins
  {
    HeldBy(m.w.reg, id) == Some(reg) && id in m.origins && m.origins[id] == n.origins[id]
  }

  lemma SetPuts(m: Server, c: Conn, id: Id, reg: Registration)
    requires Enabled(m, Set(c))
    requires HeldBy(SetStep(m, c).w.reg, id) == Some(reg) && id in SetStep(m, c).origins
    ensures var n := SetStep(m, c);
            KeepsItem(m, n, id, reg) || (n.origins[id].conn == c && Puts(m, id, n.origins[id], reg))
  {
    hide FirstOccupied, Assigned;
  }

  /** A change of the registry that puts nothing under any client. */
  ghost predicate PutsNothing(s: Records, t: Records) {
    forall id :: HeldBy(t, id).Some? ==> HeldBy(s, id) == HeldBy(t, id)
  }

  lemma RegistryPutsNothing(s: Records)
    ensures PutsNothing(s, s)
    ensures forall id :: PutsNothing(s, Subscribed(s, id))
    ensures forall id :: PutsNothing(s, Cleared(s, id))
    ensures forall id :: PutsNothing(s, Unsubscribed(s, id))
  {
    hide Trimmed;
  }

  lemma ArrivalPutsNothing(config: Config, m: Server, step: Step)
    requires Enabled(m, step) && (step.Accept? || step.Refuse? || step.Admit?)
    ensures PutsNothing(m.w.reg, Next(config, m, step).w.reg) && Next(config, m, step).origins == m.origins
  {
    hide Subscribed, PutsNothing;
    RegistryPutsNothing(m.w.reg);
  }

  lemma AddingPutsNothing(config: Config, m: Server, step: Step)
    requires Enabled(m, step) && (step.Add? || step.FinishAdd?)
    ensures PutsNothing(m.w.reg, Next(config, m, step).w.reg) && Next(config, m, step).origins == m.origins
  {
    hide Subscribed, PutsNothing;
    RegistryPutsNothing(m.w.reg);
  }

  lemma OfferPutsNothing(config: Config, m: Server, step: Step)
    requires Enabled(m, step) && (step.Handshake? || step.Open? || step.CloseBatch? || step.Reject?)
    ensures PutsNothing(m.w.reg, Next(config, m, step).w.reg) && Next(config, m, step).origins == m.origins
  {
    hide BuildOne, NewListeners, PutsNothing;
    RegistryPutsNothing(m.w.reg);
  }

  lemma LockPutsNothing(config: Config, m: Server, step: Step)
    requires Enabled(m, step) && (step.Clear? || step.CloseListener? || step.Leave? || step.Subscribe? || step.Unregister?)
    ensures PutsNothing(m.w.reg, Next(config, m, step).w.reg) && Next(config, m, step).origins == m.origins
  {
    hide Subscribed, Cleared, Unsubscribed, PutsNothing;
    RegistryPutsNothing(m.w.reg);
  }

  lemma PoolPutsNothing(config: Config, m: Server, step: Step)
    requires Enabled(m, step) && (step.Lookup? || step.Evict? || step.MarkDead? || step.Unsubscribe?)
    ensures PutsNothing(m.w.reg, Next(config, m, step).w.reg) && Next(config, m, step).origins == m.origins
  {
    hide HeldBy, PutsNothing;
    RegistryPutsNothing(m.w.reg);
  }

  /** An item that is there after a step was there before it, with its origin, or was put by it. */
  lemma ItemStep(config: Config, m: Server, step: Step, id: Id, reg: Registration)
    requires Enabled(m, step)
    requires HeldBy(Next(config, m, step).w.reg, id) == Some(reg) && id in Next(config, m, step).origins
    ensures var n := Next(config, m, step);
            KeepsItem(m, n, id, reg) || (step == Set(n.origins[id].conn) && Puts(m, id, n.origins[id], reg))
  {
    if step.Set? {
      hide KeepsItem, Puts, HeldBy, SetStep;
      SetPuts(m, step.conn, id, reg);
    } else {
      hide Next, Enabled, HeldBy;
      var n := Next(config, m, step);
      if step.Lookup? || step.Evict? || step.MarkDead? || step.Unsubscribe? {
        PoolPutsNothing(config, m, step);
      } else if !ByHandler(step) {
        LockPutsNothing(config, m, step);
      } else if step.Handshake? || step.Open? || step.CloseBatch? || step.Reject? {
        OfferPutsNothing(config, m, step);
      } else if step.Add? || step.FinishAdd? {
        AddingPutsNothing(config, m, step);
      } else {
        ArrivalPutsNothing(config, m, step);
      }
      assert HeldBy(n.w.reg, id).Some?;
    }
  }

  lemma RunsPrefix(config: Config, m: Server, steps: seq<Step>, j: nat)
    requires steps != [] && Enabled(m, steps[0]) && j < |steps|
    requires Runs(config, Next(config, m, steps[0]), steps[1..][..j])
    ensures Runs(config, m, steps[..j + 1])
    ensures After(config, m, steps[..j + 1]) == After(config, Next(config, m, steps[0]), steps[1..][..j])
  {
    hide Next, Enabled;
    assert steps[..j + 1][1..] == steps[1..][..j];
  }

  lemma StandsLater(config: Config, m: Server, steps: seq<Step>, i: nat, id: Id, reg: Registration)
    requires steps != [] && Enabled(m, steps[0])
    requires StandsFrom(config, Next(config, m, steps[0]), steps[1..], i, id, reg)
    ensures StandsFrom(config, m, steps, i + 1, id, reg)
  {
    hide Next, Enabled, Runs, After, HeldBy;
    forall j | i + 1 <= j <= |steps|
      ensures Runs(config, m, steps[..j]) && HeldBy(After(config, m, steps[..j]).w.reg, id) == Some(reg)
    {
      RunsPrefix(config, m, steps, j - 1);
    }
  }

  lemma StandsEarlier(config: Config, m: Server, steps: seq<Step>, id: Id, reg: Registration)
    requires StandsFrom(config, m, steps, 1, id, reg) && HeldBy(m.w.reg, id) == Some(reg)
    ensures StandsFrom(config, m, steps, 0, id, reg)
  {
    hide Next, Enabled, HeldBy;
    assert steps[..0] == [];
  }

  lemma PutLater(config: Config, m: Server, steps: seq<Step>, k: nat, id: Id, o: Origin, reg: Registration)
    requires steps != [] && Enabled(m, steps[0])
    requires PutAt(config, Next(config, m, steps[0]), steps[1..], k, id, o, reg)
    ensures PutAt(config, m, steps, k + 1, id, o, reg)
  {
    hide Next, Enabled, Runs, After, Puts;
    RunsPrefix(config, m, steps, k);
  }

  lemma PutFirst(config: Config, m: Server, steps: seq<Step>, id: Id, o: Origin, reg: Registration)
    requires steps != [] && steps[0] == Set(o.conn) && Puts(m, id, o, reg)
    ensures PutAt(config, m, steps, 0, id, o, reg)
  {
    hide Next, Enabled, Puts;
    assert steps[..0] == [];
  }

  /**
   * The item a client has after a run was there from the start, or was put by an
   * accepted `set` of the handler on record, and it has stood ever since.
   */
  lemma {:induction false} OriginTraced(config: Config, m: Server, steps: seq<Step>, id: Id, reg: Registration)
    returns (k: int)
    requires Runs(config, m, steps)
    requires HeldBy(After(config, m, steps).w.reg, id) == Some(reg) && id in After(config, m, steps).origins
    ensures var o := After(config, m, steps).origins[id];
            && StandsFrom(config, m, steps, k + 1, id, reg) && -1 <= k
            && if k == -1 then id in m.origins && m.origins[id] == o else PutAt(config, m, steps, k, id, o, reg)
    decreases |steps|
  {
    hide PutAt, Puts, StandsFrom, Next, Enabled, HeldBy;
    if steps == [] {
      k := -1;
      StandsNow(config, m, id, reg);
    } else {
      var n := Next(config, m, steps[0]);
      var o := After(config, m, steps).origins[id];
      k := OriginTraced(config, n, steps[1..], id, reg);
      StandsLater(config, m, steps, k + 1, id, reg);
      if k >= 0 {
        PutLater(config, m, steps, k, id, o, reg);
        k := k + 1;
      } else {
        k := OriginFirst(config, m, steps, id, reg, o);
      }
    }
  }

  lemma StandsNow(config: Config, m: Server, id: Id, reg: Registration)
    requires HeldBy(m.w.reg, id) == Some(reg)
    ensures StandsFrom(config, m, [], 0, id, reg)
  {
    var none: seq<Step> := [];
    assert none[..0] == [];
  }

  /** An item that has stood since the first step: was it put by that step? */
  lemma OriginFirst(config: Config, m: Server, steps: seq<Step>, id: Id, reg: Registration, o: Origin) returns (k: int)
    requires steps != [] && Enabled(m, steps[0]) && StandsFrom(config, m, steps, 1, id, reg)
    requires id in Next(config, m, steps[0]).origins && Next(config, m, steps[0]).origins[id] == o
    ensures StandsFrom(config, m, steps, k + 1, id, reg) && -1 <= k
    ensures if k == -1 then id in m.origins && m.origins[id] == o else PutAt(config, m, steps, k, id, o, reg)
  {
    hide PutAt, Puts, Next, Enabled, HeldBy;
    assert steps[..1] == [steps[0]];
    OneStep(config, m, steps[0]);
    ItemStep(config, m, steps[0], id, reg);
    if KeepsItem(m, Next(config, m, steps[0]), id, reg) {
      k := -1;
      StandsEarlier(config, m, steps, id, reg);
    } else {
      k := 0;
      PutFirst(config, m, steps, id, o, reg);
    }
  }

  /**
   * Every registration was put by one accepted `set` and has stood ever since.
   * The connection of the handler that put it is pooled now if and only if it was
   * pooled at that step and its removal is not about to clear the registration.
   */
  lemma RegistrationTraced(config: Config, steps: seq<Step>, id: Id) returns (k: int)
    requires Runs(config, INITIAL, steps) && Registered(After(config, INITIAL, steps), id)
    ensures var m := After(config, INITIAL, steps);
            && id in m.origins
            && var o, reg := m.origins[id], m.w.reg.items[id].reg;
               && PutAt(config, INITIAL, steps, k, id, o, reg)
               && StandsFrom(config, INITIAL, steps, k + 1, id, reg)
               && (IsPooled(m, o.conn) <==>
                    IsPooled(After(config, INITIAL, steps[..k]), o.conn) && !ClearPending(m, id, o.conn))
  {
    hide Runs, After, IsPooled, ClearPending, StandsFrom;
    var m := After(config, INITIAL, steps);
    assert Reachable(config, m);
    RegistrationOutlives(config, m, id);
    k := OriginTraced(config, INITIAL, steps, id, m.w.reg.items[id].reg);
  }

  // ------------------------------------------------ conservation of connections

  predicate HeldByHandler(m: Server, c: Conn) {
    c in m.handlers && !PastPool(m.handlers[c].pc) && c !in m.w.closedConns
  }

  ghost predicate StoredAt(m: Server, c: Conn, id: Id) {
    id in m.w.pool && m.w.pool[id].conn == c
  }

  /** Every accepted connection is held by its handler, or stored under one key, or closed: one of the three, always. */
  lemma ConnectionConservation(config: Config, m: Server, c: Conn)
    requires Reachable(config, m) && c in m.handlers
    ensures var id := m.handlers[c].id;
            && (HeldByHandler(m, c) <==> !StoredAt(m, c, id) && c !in m.w.closedConns)
            && (StoredAt(m, c, id) <==> !HeldByHandler(m, c) && c !in m.w.closedConns)
    ensures forall id :: StoredAt(m, c, id) ==> id == m.handlers[c].id
  {
    ReachableInv(config, m);
    assert HandlerOk(m, c);
    forall id | StoredAt(m, c, id) ensures id == m.handlers[c].id && c !in m.w.closedConns && PastPool(m.handlers[c].pc) {
      assert EntryOk(m, id);
    }
  }

  /** No step drops or overwrites a pool entry without closing its connection, and nothing closed is reopened. */
  lemma NothingDropped(config: Config, m: Server, step: Step, id: Id)
    requires Reachable(config, m) && Enabled(m, step) && id in m.w.pool
    ensures var n := Next(config, m, step);
            && m.w.closedConns <= n.w.closedConns
            && ((id in n.w.pool && n.w.pool[id] == m.w.pool[id]) || m.w.pool[id].conn in n.w.closedConns)
  {
    ReachableInv(config, m);
    if ByHandler(step) {
      assert LockOk(m);
      HandlerDropsNothing(config, m, step, id);
    } else {
      SharedDropsNothing(config, m, step, id);
    }
  }

  lemma HandlerDropsNothing(config: Config, m: Server, step: Step, id: Id)
    requires LockOk(m) && Enabled(m, step) && id in m.w.pool && ByHandler(step)
    ensures var n := Next(config, m, step);
            && m.w.closedConns <= n.w.closedConns
            && ((id in n.w.pool && n.w.pool[id] == m.w.pool[id]) || m.w.pool[id].conn in n.w.closedConns)
  {
    if !step.Add? && !step.FinishAdd? && !step.Reject? {
      PrivateStep(config, m, step);
    }
  }

  /** Steps of a handler that neither the pool nor any connection notices. */
  lemma PrivateStep(config: Config, m: Server, step: Step)
    requires Enabled(m, step) && ByHandler(step) && !step.Add? && !step.FinishAdd? && !step.Reject?
    ensures Next(config, m, step).w.pool == m.w.pool && Next(config, m, step).w.closedConns == m.w.closedConns
  {
  }

  lemma SharedDropsNothing(config: Config, m: Server, step: Step, id: Id)
    requires Enabled(m, step) && id in m.w.pool && !ByHandler(step)
    ensures var n := Next(config, m, step);
            && m.w.closedConns <= n.w.closedConns
            && ((id in n.w.pool && n.w.pool[id] == m.w.pool[id]) || m.w.pool[id].conn in n.w.closedConns)
  {
  }

  /** A reader that found a connection unusable evicts that very connection or nothing, whatever happened in between. */
  lemma EvictionIsExact(config: Config, m: Server, id: Id, found: ConnPair)
    requires Reachable(config, m) && Enabled(m, Evict(id, found))
    ensures var n := Next(config, m, Evict(id, found));
            if id in m.w.pool && m.w.pool[id] == found
            then n.w.pool == m.w.pool - {id} && n.lock == Freeing(id, found.conn, LeavePool)
            else n == m
  {
    ReachableInv(config, m);
    assert (id, found) in m.lookups;
    if id in m.w.pool && m.w.pool[id].clientConn == found.clientConn {
      assert EntryOk(m, id);
      assert (id, found).1.clientConn in m.wrapped;
    }
  }

  /**
   * A rejecting handler removes by client, not by connection: it closes the entry it finds, and
   * that entry is its own connection if and only if its connection is still open.
   */
  lemma RejectExactly(config: Config, m: Server, c: Conn)
    requires Reachable(config, m) && Enabled(m, Reject(c)) && m.handlers[c].pc.pooled
    requires m.handlers[c].id in m.w.pool
    ensures var id := m.handlers[c].id;
            && Next(config, m, Reject(c)).w.closedConns == m.w.closedConns + {m.w.pool[id].conn}
            && (m.w.pool[id].conn == c <==> c !in m.w.closedConns)
  {
    ReachableInv(config, m);
    assert HandlerOk(m, c);
    assert EntryOk(m, m.handlers[c].id);
  }
}
