/** Over every interleaving, each listener the server opens is in exactly one place. */
module Listeners {
  import opened Text
  import opened Registry
  import opened World
  import opened Lifecycle

  /** The places a listener can be: a handler's own batch, an item, the pool's close list, an item handed out by Unsubscribe, or closed. */
  datatype Place = Batch(conn: Conn) | Item(id: Id) | Pending | Handed(index: nat) | Shut

  function BatchOf(pc: Pc): seq<Listener> {
    match pc
    case Opening(_, batch) => batch.listeners
    case Rejecting(_, left) => left
    case _ => []
  }

  function HeldAt(m: Server, place: Place): seq<Listener> {
    match place
    case Batch(c) => if c in m.handlers then BatchOf(m.handlers[c].pc) else []
    case Item(id) => ListenersOf(HeldBy(m.w.reg, id))
    case Pending => if m.lock.Closing? then m.lock.left else []
    case Handed(k) => if k < |m.handedOut| then m.handedOut[k].listeners else []
    case Shut => m.w.closed
  }

  ghost predicate NoDuplicates(s: seq<Listener>) {
    forall i, j :: 0 <= i < j < |s| ==> s[i] != s[j]
  }

  lemma SplitDistinct(a: seq<Listener>, b: seq<Listener>)
    requires NoDuplicates(a + b)
    ensures NoDuplicates(a) && NoDuplicates(b)
    ensures forall l :: l in a ==> l !in b
  {
    assert forall i :: 0 <= i < |a| ==> a[i] == (a + b)[i];
    assert forall i :: 0 <= i < |b| ==> b[i] == (a + b)[|a| + i];
  }

  lemma JoinDistinct(a: seq<Listener>, b: seq<Listener>)
    requires NoDuplicates(a) && NoDuplicates(b)
    requires forall l :: l in a ==> l !in b
    ensures NoDuplicates(a + b)
  {
    forall i, j | 0 <= i < j < |a + b| ensures (a + b)[i] != (a + b)[j] {
      if i < |a| && |a| <= j {
        assert (a + b)[i] in a && (a + b)[j] == b[j - |a|];
      }
    }
  }

  /** `where` says of each listener ever opened the one place that holds it, once. */
  ghost predicate Locates(m: Server, where: map<Listener, Place>) {
    && where.Keys == m.w.everOpened
    && (forall p :: NoDuplicates(HeldAt(m, p)))
    && (forall p, l :: l in HeldAt(m, p) <==> l in where && where[l] == p)
  }

  ghost predicate SameElsewhere(m: Server, n: Server, p: Place, q: Place) {
    forall r :: r != p && r != q ==> HeldAt(n, r) == HeldAt(m, r)
  }

  /** A step moves `ls` from the front of one place to the end of another. */
  lemma Transfer(m: Server, n: Server, where: map<Listener, Place>, p: Place, q: Place, ls: seq<Listener>)
    returns (after: map<Listener, Place>)
    requires Locates(m, where) && p != q
    requires n.w.everOpened == m.w.everOpened && SameElsewhere(m, n, p, q)
    requires HeldAt(m, p) == ls + HeldAt(n, p) && HeldAt(n, q) == HeldAt(m, q) + ls
    ensures Locates(n, after)
  {
    hide HeldAt;
    after := map l | l in where :: if l in ls then q else where[l];
    assert NoDuplicates(HeldAt(m, p)) && NoDuplicates(HeldAt(m, q));
    SplitDistinct(ls, HeldAt(n, p));
    forall l | l in ls ensures l in where && where[l] == p {
      assert l in HeldAt(m, p);
    }
    forall r, l ensures l in HeldAt(n, r) <==> l in after && after[l] == r {
      assert l in HeldAt(m, r) <==> l in where && where[l] == r;
    }
    forall l | l in HeldAt(m, q) ensures l !in ls {
      assert where[l] == q;
    }
    JoinDistinct(HeldAt(m, q), ls);
    forall r ensures NoDuplicates(HeldAt(n, r)) {
      assert NoDuplicates(HeldAt(m, r));
    }
  }

  /** A step opens one listener into a handler's batch. */
  lemma Create(m: Server, n: Server, where: map<Listener, Place>, p: Place, l: Listener)
    returns (after: map<Listener, Place>)
    requires Locates(m, where) && l !in m.w.everOpened
    requires n.w.everOpened == m.w.everOpened + {l} && SameElsewhere(m, n, p, p)
    requires HeldAt(n, p) == HeldAt(m, p) + [l]
    ensures Locates(n, after)
  {
    after := where[l := p];
    forall r, k ensures k in HeldAt(n, r) <==> k in after && after[k] == r {
      assert k in HeldAt(m, r) <==> k in where && where[k] == r;
    }
    forall r ensures NoDuplicates(HeldAt(n, r)) {
      assert NoDuplicates(HeldAt(m, r));
      assert l !in HeldAt(m, p);
    }
  }

  /** A step that leaves every listener where it is. */
  lemma Stay(m: Server, n: Server, where: map<Listener, Place>)
    requires Locates(m, where)
    requires n.w.everOpened == m.w.everOpened && SameElsewhere(m, n, Shut, Shut) && n.w.closed == m.w.closed
    ensures Locates(n, where)
  {
    assert HeldAt(n, Shut) == HeldAt(m, Shut);
    forall p ensures HeldAt(n, p) == HeldAt(m, p) {}
    forall p ensures NoDuplicates(HeldAt(n, p)) { assert NoDuplicates(HeldAt(m, p)); }
    forall p, l ensures l in HeldAt(n, p) <==> l in where && where[l] == p {
      assert l in HeldAt(m, p) <==> l in where && where[l] == p;
    }
  }

  lemma OpenLocates(config: Config, m: Server, c: Conn, listen: Option<Listener>, where: map<Listener, Place>)
    returns (after: map<Listener, Place>)
    requires Locates(m, where) && Enabled(m, Open(c, listen))
    ensures Locates(Next(config, m, Open(c, listen)), after)
  {
    var n := Next(config, m, Open(c, listen));
    var more := NewListeners(config.baseDomain, m.handlers[c].pc.todo[0], listen);
    if more == [] {
      after := where;
      assert HeldAt(n, Batch(c)) == HeldAt(m, Batch(c));
      Stay(m, n, where);
    } else {
      after := Create(m, n, where, Batch(c), more[0]);
    }
  }

  /** A place other than the batch of `c` and the item of `id` does not notice changes there. */
  lemma OnlyThere(m: Server, n: Server, c: Conn, id: Id)
    requires forall d :: d != c ==> (d in n.handlers <==> d in m.handlers)
    requires forall d :: d != c && d in m.handlers ==> n.handlers[d].pc == m.handlers[d].pc
    requires forall j :: j != id ==> HeldBy(n.w.reg, j) == HeldBy(m.w.reg, j)
    requires HeldAt(n, Pending) == HeldAt(m, Pending) && n.handedOut == m.handedOut && n.w.closed == m.w.closed
    ensures SameElsewhere(m, n, Batch(c), Item(id))
  {
  }

  lemma AcceptedLocates(m: Server, c: Conn, where: map<Listener, Place>)
    returns (after: map<Listener, Place>)
    requires Locates(m, where) && IsOpening(m, c)
    requires Refusal(m.w.reg, m.handlers[c].pc.batch, m.handlers[c].id) == None
    ensures Locates(SetStep(m, c), after)
  {
    var id, ls := m.handlers[c].id, m.handlers[c].pc.batch.listeners;
    var n := SetStep(m, c);
    OnlyThere(m, n, c, id);
    var p, q := Batch(c), Item(id);
    assert HeldAt(m, p) == ls + HeldAt(n, p) by { assert HeldAt(n, p) == []; }
    assert HeldAt(n, q) == HeldAt(m, q) + ls by { assert HeldAt(m, q) == []; }
    after := Transfer(m, n, where, p, q, ls);
  }

  lemma RefusedLocates(m: Server, c: Conn, where: map<Listener, Place>)
    requires Locates(m, where) && IsOpening(m, c)
    requires Refusal(m.w.reg, m.handlers[c].pc.batch, m.handlers[c].id).Some?
    ensures Locates(SetStep(m, c), where)
  {
    Stay(m, SetStep(m, c), where);
  }

  lemma SetLocates(m: Server, c: Conn, where: map<Listener, Place>)
    returns (after: map<Listener, Place>)
    requires Locates(m, where) && IsOpening(m, c)
    ensures Locates(SetStep(m, c), after)
  {
    if Refusal(m.w.reg, m.handlers[c].pc.batch, m.handlers[c].id).Some? {
      after := where;
      RefusedLocates(m, c, where);
    } else {
      after := AcceptedLocates(m, c, where);
    }
  }

  /** Handler steps that open, hand on and close nothing. */
  lemma HandlerStay(config: Config, m: Server, step: Step, where: map<Listener, Place>)
    requires Locates(m, where) && Enabled(m, step)
    requires ByHandler(step) && !step.Open? && !step.Set? && !step.CloseBatch?
    ensures Locates(Next(config, m, step), where)
  {
    match step {
      case Add(c, alive, dialed) => AddHolds(m, c, alive, dialed);
      case FinishAdd(c, dialed) => FinishAddHolds(m, c, dialed);
      case Reject(c) => RejectHolds(m, c);
      case _ => StartingHolds(config, m, step);
    }
    Stay(m, Next(config, m, step), where);
  }

  ghost predicate Unmoved(m: Server, n: Server) {
    SameElsewhere(m, n, Shut, Shut) && n.w.everOpened == m.w.everOpened && n.w.closed == m.w.closed
  }

  lemma AddHolds(m: Server, c: Conn, alive: bool, dialed: Option<ClientConn>)
    requires At(m, c, Adding) && m.lock.Unlocked?
    ensures Unmoved(m, AddStep(m, c, alive, dialed))
  {
    QuietHandler(m, AddStep(m, c, alive, dialed), c);
  }

  lemma FinishAddHolds(m: Server, c: Conn, dialed: Option<ClientConn>)
    requires At(m, c, Replacing) && m.lock.Closing? && m.lock.left == []
    ensures Unmoved(m, Dial(m.(lock := Unlocked), c, dialed))
  {
    QuietHandler(m, Dial(m.(lock := Unlocked), c, dialed), c);
  }

  lemma RejectHolds(m: Server, c: Conn)
    requires Enabled(m, Reject(c))
    ensures Unmoved(m, RejectStep(m, c))
  {
    QuietHandler(m, RejectStep(m, c), c);
  }

  /** A handler without listeners moves on, and no place notices. */
  lemma QuietHandler(m: Server, n: Server, c: Conn)
    requires c in m.handlers && c in n.handlers && n.handlers == m.handlers[c := n.handlers[c]]
    requires BatchOf(m.handlers[c].pc) == BatchOf(n.handlers[c].pc) == []
    requires HeldAt(n, Pending) == HeldAt(m, Pending)
    requires n.w.reg == m.w.reg && n.handedOut == m.handedOut
    ensures SameElsewhere(m, n, Shut, Shut)
  {
  }

  lemma StartingHolds(config: Config, m: Server, step: Step)
    requires Enabled(m, step) && (step.Accept? || step.Refuse? || step.Admit? || step.Handshake?)
    ensures Unmoved(m, Next(config, m, step))
  {
    var n := Next(config, m, step);
    assert HeldAt(n, Batch(step.conn)) == HeldAt(m, Batch(step.conn)) == [];
  }

  lemma ClearLocates(config: Config, m: Server, where: map<Listener, Place>)
    returns (after: map<Listener, Place>)
    requires Locates(m, where) && Enabled(m, Clear)
    ensures Locates(Next(config, m, Clear), after)
  {
    var p := Item(m.lock.id);
    after := Transfer(m, Next(config, m, Clear), where, p, Pending, HeldAt(m, p));
  }

  lemma UnregisterLocates(config: Config, m: Server, id: Id, where: map<Listener, Place>)
    returns (after: map<Listener, Place>)
    requires Locates(m, where) && Enabled(m, Unregister(id))
    ensures Locates(Next(config, m, Unregister(id)), after)
  {
    var n := UnregisterStep(m, id);
    var p, q := Item(id), Handed(|m.handedOut|);
    if HeldBy(m.w.reg, id) == None {
      after := where;
      Stay(m, n, where);
    } else {
      assert SameElsewhere(m, n, p, q);
      after := Transfer(m, n, where, p, q, HeldAt(m, p));
    }
  }

  /** Neither listeners nor whoever holds one are touched, and no close list is at work. */
  predicate Quieted(m: Server, n: Server) {
    && n.handlers == m.handlers && n.handedOut == m.handedOut && n.w.reg == m.w.reg
    && n.w.everOpened == m.w.everOpened && n.w.closed == m.w.closed
    && (m.lock.Closing? ==> m.lock.left == []) && (n.lock.Closing? ==> n.lock.left == [])
  }

  lemma RemovalQuiet(m: Server, id: Id, next: Then)
    requires m.lock.Unlocked? && id in m.w.pool
    ensures Quieted(m, Lifecycle.Remove(m, id, next))
  {
  }

  /** Steps of the pool and its mutex that no listener notices. */
  lemma PoolQuiet(config: Config, m: Server, step: Step)
    requires Enabled(m, step) && (step.Leave? || step.Lookup? || step.Evict? || step.MarkDead? || step.Unsubscribe?)
    ensures Quieted(m, Next(config, m, step))
  {
    if step.Evict? || step.MarkDead? || step.Unsubscribe? {
      hide Lifecycle.Remove;
      assert Quieted(m, m);
      if step.id in m.w.pool {
        hide Quieted;
        RemovalQuiet(m, step.id, if step.Unsubscribe? then FinishUnsubscribe(step.id) else LeavePool);
      }
    }
  }

  /** Steps on shared state that neither open, hand on nor close a listener. */
  lemma SharedStay(config: Config, m: Server, step: Step, where: map<Listener, Place>)
    requires Locates(m, where) && Enabled(m, step)
    requires !ByHandler(step) && !step.Clear? && !step.CloseListener? && !step.Unregister?
    ensures Locates(Next(config, m, step), where)
  {
    var n := Next(config, m, step);
    if step.Subscribe? {
      assert n == SetReg(m, Subscribed(m.w.reg, step.id));
    } else {
      PoolQuiet(config, m, step);
    }
    hide Next, Enabled, Locates, HeldAt;
    QuietRegistry(m, n);
    Stay(m, n, where);
  }

  lemma QuietRegistry(m: Server, n: Server)
    requires n.handlers == m.handlers && n.handedOut == m.handedOut
    requires HeldAt(n, Pending) == HeldAt(m, Pending)
    requires n.w.reg == m.w.reg || exists id :: n.w.reg == Subscribed(m.w.reg, id)
    ensures SameElsewhere(m, n, Shut, Shut)
  {
  }

  lemma StepLocates(config: Config, m: Server, step: Step, where: map<Listener, Place>)
    returns (after: map<Listener, Place>)
    requires Locates(m, where) && Enabled(m, step)
    ensures Locates(Next(config, m, step), after)
  {
    if step.Open? {
      after := OpenLocates(config, m, step.conn, step.listen, where);
    } else if step.Set? {
      after := SetLocates(m, step.conn, where);
    } else if step.CloseBatch? {
      var c := step.conn;
      after := Transfer(m, Next(config, m, step), where, Batch(c), Shut, m.handlers[c].pc.left[..1]);
    } else if ByHandler(step) {
      after := where;
      HandlerStay(config, m, step, where);
    } else if step.Clear? {
      after := ClearLocates(config, m, where);
    } else if step.CloseListener? {
      after := Transfer(m, Next(config, m, step), where, Pending, Shut, m.lock.left[..1]);
    } else if step.Unregister? {
      after := UnregisterLocates(config, m, step.id, where);
    } else {
      after := where;
      SharedStay(config, m, step, where);
    }
  }

  lemma {:induction false} RunLocates(config: Config, m: Server, steps: seq<Step>, where: map<Listener, Place>)
    returns (after: map<Listener, Place>)
    requires Locates(m, where) && Runs(config, m, steps)
    ensures Locates(After(config, m, steps), after)
    decreases |steps|
  {
    if steps == [] {
      after := where;
    } else {
      var next := StepLocates(config, m, steps[0], where);
      after := RunLocates(config, Next(config, m, steps[0]), steps[1..], next);
    }
  }

  /** Conservation: in every reachable state every listener ever opened is in exactly one place, exactly once. */
  lemma Conservation(config: Config, m: Server)
    requires Reachable(config, m)
    ensures exists where :: Locates(m, where)
  {
    var steps :| Runs(config, INITIAL, steps) && After(config, INITIAL, steps) == m;
    assert Locates(INITIAL, map[]);
    var where := RunLocates(config, INITIAL, steps, map[]);
  }

  /** No handler is between opening listeners and handing them on, and no close list is being worked off. */
  ghost predicate Quiet(m: Server) {
    HeldAt(m, Pending) == [] && forall c :: HeldAt(m, Batch(c)) == []
  }

  lemma LocatedAt(m: Server, where: map<Listener, Place>, p: Place, l: Listener)
    requires Locates(m, where)
    ensures l in HeldAt(m, p) <==> l in where && where[l] == p
    ensures l in where <==> l in m.w.everOpened
    ensures NoDuplicates(HeldAt(m, p))
  {
  }

  lemma ShutIsClosed(m: Server)
    ensures HeldAt(m, Shut) == m.w.closed
  {
  }

  /**
   * No listener is closed twice; and with nothing in flight the open listeners
   * are exactly those of registered items and of items that Unsubscribe handed out.
   */
  lemma OpenListeners(config: Config, m: Server, l: Listener)
    requires Reachable(config, m)
    ensures NoDuplicates(m.w.closed)
    ensures Quiet(m) ==>
              (l in m.w.everOpened && l !in m.w.closed
               <==> (exists id :: l in HeldAt(m, Item(id))) || (exists k :: l in HeldAt(m, Handed(k))))
  {
    hide Reachable, Locates, HeldAt, NoDuplicates;
    Conservation(config, m);
    var where :| Locates(m, where);
    ShutIsClosed(m);
    LocatedAt(m, where, Shut, l);
    if Quiet(m) {
      if l in where {
        LocatedAt(m, where, where[l], l);
      }
      forall p | l in HeldAt(m, p) ensures l in where && where[l] == p {
        LocatedAt(m, where, p, l);
      }
    }
  }

  /** No listener is held by two registered clients, and none that is registered has been closed. */
  lemma RegisteredListenersLive(config: Config, m: Server, a: Id, b: Id, l: Listener)
    requires Reachable(config, m)
    requires l in HeldAt(m, Item(a))
    ensures l in m.w.everOpened && l !in m.w.closed
    ensures l in HeldAt(m, Item(b)) ==> a == b
  {
    hide Reachable, Locates, HeldAt, NoDuplicates;
    Conservation(config, m);
    var where :| Locates(m, where);
    ShutIsClosed(m);
    LocatedAt(m, where, Shut, l);
    LocatedAt(m, where, Item(a), l);
    LocatedAt(m, where, Item(b), l);
  }
}
