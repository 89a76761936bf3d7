/**
 * The converse of `Solo`: every run of one handler without interference, its own
 * pool lookups included, ends as `World.AfterHandle` ends for some outcomes of
 * the world outside; and the same for `Unsubscribe`.
 */
module Alone {
  import opened Text
  import opened Registry
  import opened World
  import opened Lifecycle
  import opened Solo

  /** The shared state once whoever holds the pool's mutex has finished with it. */
  function Released(m: Server): State {
    match m.lock
    case Unlocked => m.w
    case Freeing(id, _, _) =>
      m.w.(reg := Cleared(m.w.reg, id), closed := m.w.closed + ListenersOf(HeldBy(m.w.reg, id)))
    case Closing(_, left, _) => m.w.(closed := m.w.closed + left)
  }

  lemma RemovalReleased(m: Server, id: Id, next: Then)
    requires id in m.w.pool
    ensures Released(Lifecycle.Remove(m, id, next)) == CloseEntry(m.w, id)
  {
  }

  // ------------------------------------------------------- what is left to do

  /** The end of `AddConn` and what follows. */
  function AfterDial(w: State, config: Config, c: Conn, id: Id, a: Attempt): State {
    match a.dialed
    case None => CloseConn(CloseConn(w, c), c)
    case Some(cc) => AfterPooled(w.(pool := w.pool[id := ConnPair(c, cc)]), config, id, a.handshake)
  }

  /** The rest of `addTunnels` and of the attempt, with `batch` collected so far. */
  function AfterLoop(w: State, config: Config, id: Id, offers: seq<Offer>, batch: Registration): State {
    var (b, error) := Build(config.baseDomain, offers, batch);
    var v := WithListeners(w, b.listeners);
    if error.Some? || Refusal(w.reg, b, id).Some? then DeleteConn(v.(closed := v.closed + b.listeners), id)
    else v.(reg := AfterSet(w.reg, b, id))
  }

  lemma AfterLoopFromStart(w: State, config: Config, id: Id, offers: seq<Offer>)
    ensures AfterLoop(w, config, id, offers, EMPTY_BATCH) == AfterOffers(w, config, id, offers)
  {
    hide Build, Refusal, AfterSet, DeleteConn;
  }

  /** With some outcomes of the world outside, what is left of the attempt of `c` leads to `w`. */
  ghost predicate EndsIn(config: Config, m: Server, c: Conn, w: State)
    requires c in m.handlers
  {
    var id := m.handlers[c].id;
    match m.handlers[c].pc
    case Starting => exists a: Attempt :: w == AfterHandle(m.w, config, c, id, a)
    case Adding => exists a: Attempt :: w == AfterAdmitted(m.w, config, c, id, a)
    case Replacing => exists a: Attempt :: w == AfterDial(Released(m), config, c, id, a)
    case Handshaking =>
      if IsPooled(m, c) then exists h :: w == AfterPooled(m.w, config, id, h) else w == Released(m)
    case Opening(todo, batch) =>
      exists offers :: Requests(offers) == todo && w == AfterLoop(m.w, config, id, offers, batch)
    case Rejecting(pooled, left) =>
      if pooled then w == DeleteConn(Released(m).(closed := Released(m).closed + left), id) else w == CloseConn(m.w, c)
    case Finished => w == Released(m)
  }

  /** How handler and mutex stand to each other while nobody interferes. */
  ghost predicate Lone(m: Server, c: Conn) {
    && c in m.handlers
    && var id, pc := m.handlers[c].id, m.handlers[c].pc;
       && (m.lock.Unlocked? ==> !pc.Replacing?)
       && (!m.lock.Unlocked? ==> m.lock.id == id && id !in m.w.pool)
       && (!m.lock.Unlocked? ==>
            if pc.Replacing? then m.lock.next == FinishAdding(c)
            else m.lock.next == LeavePool && (pc.Handshaking? || pc.Finished? || pc == Rejecting(true, [])))
       && (pc.Adding? ==> id in m.w.reg.items)
       && (pc.Handshaking? ==> IsPooled(m, c) || id !in m.w.pool)
       && (pc.Opening? ==> forall l :: l in pc.batch.listeners ==> l in m.w.everOpened)
       && (pc.Rejecting? && !pc.pooled ==> pc.left == [])
  }

  // ------------------------------------------------------ each step, backwards

  /** After the step what is left leads to `w` only if it did so before. */
  ghost predicate Explains(config: Config, m: Server, n: Server, c: Conn, w: State)
    requires c in m.handlers
  {
    && Lone(n, c) && n.handlers[c].id == m.handlers[c].id
    && (EndsIn(config, n, c, w) ==> EndsIn(config, m, c, w))
  }

  lemma RefuseExplained(config: Config, m: Server, c: Conn, w: State)
    requires Lone(m, c) && (At(m, c, Starting) || At(m, c, Adding))
    ensures Explains(config, m, Goto(m, c, Rejecting(false, [])), c, w)
  {
    var id := m.handlers[c].id;
    var a := Attempt(false, false, false, None, None);
    assert AfterHandle(m.w, config, c, id, a) == CloseConn(m.w, c);
    assert AfterAdmitted(m.w, config, c, id, a) == CloseConn(m.w, c);
  }

  lemma AdmitExplained(config: Config, m: Server, c: Conn, w: State)
    requires Lone(m, c) && At(m, c, Starting)
    ensures Explains(config, m, AdmitStep(config, m, c), c, w)
  {
    hide AfterAddConn, AddConnError, AfterPooled;
    var id := m.handlers[c].id;
    var n := AdmitStep(config, m, c);
    if n.handlers[c].pc.Adding? {
      if a :| w == AfterAdmitted(n.w, config, c, id, a) {
        assert w == AfterHandle(m.w, config, c, id, a.(identified := true));
      }
    } else {
      var a := Attempt(true, false, false, None, None);
      assert AfterHandle(m.w, config, c, id, a) == CloseConn(m.w, c);
    }
  }

  /** What `AddConn` without a pooled predecessor, or past a dead one, is for the attempt as a whole. */
  lemma AdmittedDials(w: State, config: Config, c: Conn, id: Id, a: Attempt)
    requires id in w.reg.items && a.deadlineSet && (id in w.pool ==> !a.alive)
    ensures AfterAdmitted(w, config, c, id, a) == AfterDial(DeleteConn(w, id), config, c, id, a)
  {
    hide AfterPooled;
  }

  lemma DialExplained(config: Config, m: Server, c: Conn, dialed: Option<ClientConn>, w: State)
    requires Lone(m, c) && At(m, c, Adding) && m.handlers[c].id !in m.w.pool
    ensures Explains(config, m, Dial(m, c, dialed), c, w)
  {
    hide AfterPooled, AfterAdmitted;
    var id := m.handlers[c].id;
    var n := Dial(m, c, dialed);
    if EndsIn(config, n, c, w) {
      var a := Attempt(true, true, false, dialed, None);
      if dialed.Some? {
        var h :| w == AfterPooled(n.w, config, id, h);
        a := a.(handshake := h);
      }
      AdmittedDials(m.w, config, c, id, a);
      assert w == AfterAdmitted(m.w, config, c, id, a);
    }
  }

  lemma AddExplained(config: Config, m: Server, c: Conn, alive: bool, dialed: Option<ClientConn>, w: State)
    requires Lone(m, c) && Enabled(m, Add(c, alive, dialed))
    ensures Explains(config, m, AddStep(m, c, alive, dialed), c, w)
  {
    var id := m.handlers[c].id;
    if id !in m.w.pool {
      DialExplained(config, m, c, dialed, w);
    } else if alive {
      var a := Attempt(true, true, true, None, None);
      assert AfterAdmitted(m.w, config, c, id, a) == CloseConn(m.w, c);
    } else {
      ReplaceExplained(config, m, c, w);
    }
  }

  lemma ReplaceExplained(config: Config, m: Server, c: Conn, w: State)
    requires Lone(m, c) && At(m, c, Adding) && m.lock.Unlocked? && m.handlers[c].id in m.w.pool
    ensures Explains(config, m, Lifecycle.Remove(Goto(m, c, Replacing), m.handlers[c].id, FinishAdding(c)), c, w)
  {
    hide AfterPooled, AfterAdmitted;
    var id := m.handlers[c].id;
    var k := Goto(m, c, Replacing);
    var n := Lifecycle.Remove(k, id, FinishAdding(c));
    RemovalReleased(k, id, FinishAdding(c));
    if EndsIn(config, n, c, w) {
      var a :| w == AfterDial(Released(n), config, c, id, a);
      var b := a.(deadlineSet := true, alive := false);
      AdmittedDials(m.w, config, c, id, b);
      assert w == AfterAdmitted(m.w, config, c, id, b);
    }
  }

  lemma FinishAddExplained(config: Config, m: Server, c: Conn, dialed: Option<ClientConn>, w: State)
    requires Lone(m, c) && Enabled(m, FinishAdd(c, dialed))
    ensures Explains(config, m, Dial(m.(lock := Unlocked), c, dialed), c, w)
  {
    hide AfterPooled;
    var id := m.handlers[c].id;
    var n := Dial(m.(lock := Unlocked), c, dialed);
    assert m.w.closed + [] == m.w.closed;
    assert Released(m) == m.w;
    if EndsIn(config, n, c, w) {
      var a := Attempt(true, true, false, dialed, None);
      if dialed.Some? {
        var h :| w == AfterPooled(n.w, config, id, h);
        a := a.(handshake := h);
      }
      assert w == AfterDial(m.w, config, c, id, a);
    }
  }

  lemma HandshakeExplained(config: Config, m: Server, c: Conn, tunnels: Option<seq<Request>>, w: State)
    requires Lone(m, c) && At(m, c, Handshaking) && (tunnels.Some? ==> IsPooled(m, c))
    ensures Explains(config, m, HandshakeStep(m, c, tunnels), c, w)
  {
    hide AfterOffers, AfterLoop;
    var id := m.handlers[c].id;
    var n := HandshakeStep(m, c, tunnels);
    assert Released(m).closed + [] == Released(m).closed;
    assert AfterPooled(m.w, config, id, None) == DeleteConn(m.w, id);
    if n.handlers[c].pc.Opening? && EndsIn(config, n, c, w) {
      var offers :| Requests(offers) == tunnels.value && w == AfterLoop(n.w, config, id, offers, EMPTY_BATCH);
      AfterLoopFromStart(m.w, config, id, offers);
      assert w == AfterPooled(m.w, config, id, Some(offers));
    }
  }

  /** One offer that stands for the round, whether or not it fails. */
  lemma RoundBuilds(base: string, offer: Offer, rest: seq<Offer>, batch: Registration)
    ensures var (next, error) := BuildOne(base, offer, batch);
            Build(base, [offer] + rest, batch) == if error.Some? then (next, error) else Build(base, rest, next)
  {
    assert ([offer] + rest)[1..] == rest;
  }

  function Offered(request: Request, listen: Option<Listener>): Offer {
    Offer(request.name, request.tunnel, listen)
  }

  lemma RequestsCons(request: Request, listen: Option<Listener>, rest: seq<Offer>)
    ensures Requests([Offered(request, listen)] + rest) == [request] + Requests(rest)
  {
  }

  /** Offers for the requests that are not reached, none of whose listeners opens. */
  function Unreached(todo: seq<Request>): (offers: seq<Offer>)
    ensures Requests(offers) == todo
  {
    seq(|todo|, k requires 0 <= k < |todo| => Offered(todo[k], None))
  }

  /** The round that fails decides the rest, whatever the requests after it. */
  lemma OpenFails(config: Config, m: Server, c: Conn, listen: Option<Listener>, w: State)
    requires Lone(m, c) && Enabled(m, Open(c, listen))
    requires var Opening(todo, batch) := m.handlers[c].pc;
             BuildOne(config.baseDomain, Offered(todo[0], listen), batch).1.Some?
    ensures Explains(config, m, OpenStep(config.baseDomain, m, c, listen), c, w)
  {
    hide DeleteConn, Refusal, AfterSet, Build;
    var id := m.handlers[c].id;
    var Opening(todo, batch) := m.handlers[c].pc;
    var n := OpenStep(config.baseDomain, m, c, listen);
    var rest := Unreached(todo[1..]);
    var offers := [Offered(todo[0], listen)] + rest;
    RoundBuilds(config.baseDomain, Offered(todo[0], listen), rest, batch);
    RequestsCons(todo[0], listen, rest);
    assert [todo[0]] + todo[1..] == todo;
    FailedRound(config.baseDomain, todo[0], listen, batch);
    assert WithListeners(m.w, batch.listeners) == m.w;
    assert n.w == m.w;
    assert AfterLoop(m.w, config, id, offers, batch) == DeleteConn(m.w.(closed := m.w.closed + batch.listeners), id);
  }

  lemma FailedRound(base: string, request: Request, listen: Option<Listener>, batch: Registration)
    requires BuildOne(base, Offered(request, listen), batch).1.Some?
    ensures BuildOne(base, Offered(request, listen), batch).0 == batch && NewListeners(base, request, listen) == []
  {
  }

  lemma OpenedRound(base: string, request: Request, listen: Option<Listener>, batch: Registration)
    requires BuildOne(base, Offered(request, listen), batch).1 == None
    ensures BuildOne(base, Offered(request, listen), batch).0.listeners == batch.listeners + NewListeners(base, request, listen)
  {
    assert batch.listeners + [] == batch.listeners;
  }

  lemma OpenSucceeds(config: Config, m: Server, c: Conn, listen: Option<Listener>, w: State)
    requires Lone(m, c) && Enabled(m, Open(c, listen))
    requires var Opening(todo, batch) := m.handlers[c].pc;
             BuildOne(config.baseDomain, Offered(todo[0], listen), batch).1 == None
    ensures Explains(config, m, OpenStep(config.baseDomain, m, c, listen), c, w)
  {
    hide BuildOne, NewListeners, Build;
    var id := m.handlers[c].id;
    var Opening(todo, batch) := m.handlers[c].pc;
    var n := OpenStep(config.baseDomain, m, c, listen);
    var next := BuildOne(config.baseDomain, Offered(todo[0], listen), batch).0;
    OpenedRound(config.baseDomain, todo[0], listen, batch);
    assert n.handlers[c].pc == Opening(todo[1..], next);
    if EndsIn(config, n, c, w) {
      var rest :| Requests(rest) == todo[1..] && w == AfterLoop(n.w, config, id, rest, next);
      var offers := [Offered(todo[0], listen)] + rest;
      RoundBuilds(config.baseDomain, Offered(todo[0], listen), rest, batch);
      RequestsCons(todo[0], listen, rest);
      assert [todo[0]] + todo[1..] == todo;
      BuildGrows(config.baseDomain, rest, next);
      LoopOpened(m.w, n.w, config, id, offers, batch, rest, next);
    }
  }

  /** Listeners that were opened one by one were opened all the same. */
  lemma LoopOpened(w: State, v: State, config: Config, id: Id, offers: seq<Offer>, batch: Registration, rest: seq<Offer>, next: Registration)
    requires Build(config.baseDomain, offers, batch) == Build(config.baseDomain, rest, next)
    requires v == w.(everOpened := v.everOpened) && w.everOpened <= v.everOpened
    requires forall l :: l in v.everOpened ==> l in w.everOpened || l in Build(config.baseDomain, rest, next).0.listeners
    ensures AfterLoop(w, config, id, offers, batch) == AfterLoop(v, config, id, rest, next)
  {
    hide Build, Refusal, AfterSet, DeleteConn;
    var b := Build(config.baseDomain, rest, next).0;
    assert WithListeners(w, b.listeners) == WithListeners(v, b.listeners);
  }

  lemma OpenExplained(config: Config, m: Server, c: Conn, listen: Option<Listener>, w: State)
    requires Lone(m, c) && Enabled(m, Open(c, listen))
    ensures Explains(config, m, OpenStep(config.baseDomain, m, c, listen), c, w)
  {
    hide Explains, Lone, BuildOne;
    var Opening(todo, batch) := m.handlers[c].pc;
    if BuildOne(config.baseDomain, Offered(todo[0], listen), batch).1.Some? {
      OpenFails(config, m, c, listen, w);
    } else {
      OpenSucceeds(config, m, c, listen, w);
    }
  }

  lemma SetExplained(config: Config, m: Server, c: Conn, w: State)
    requires Lone(m, c) && Enabled(m, Set(c))
    ensures Explains(config, m, SetStep(m, c), c, w)
  {
    hide Refusal, AfterSet, DeleteConn;
    var id, batch := m.handlers[c].id, m.handlers[c].pc.batch;
    var none: seq<Offer> := [];
    assert Requests(none) == [] && Build(config.baseDomain, none, batch) == (batch, None);
    assert WithListeners(m.w, batch.listeners) == m.w;
    assert AfterLoop(m.w, config, id, none, batch)
        == if Refusal(m.w.reg, batch, id).Some? then DeleteConn(m.w.(closed := m.w.closed + batch.listeners), id)
           else m.w.(reg := AfterSet(m.w.reg, batch, id));
  }

  lemma CloseBatchExplained(config: Config, m: Server, c: Conn, w: State)
    requires Lone(m, c) && Enabled(m, CloseBatch(c))
    ensures Explains(config, m, CloseBatchStep(m, c), c, w)
  {
    hide DeleteConn;
    var left := m.handlers[c].pc.left;
    assert left == [left[0]] + left[1..];
    assert (m.w.closed + [left[0]]) + left[1..] == m.w.closed + left;
  }

  lemma RejectExplained(config: Config, m: Server, c: Conn, w: State)
    requires Lone(m, c) && Enabled(m, Reject(c))
    ensures Explains(config, m, RejectStep(m, c), c, w)
  {
    var id := m.handlers[c].id;
    assert m.w.closed + [] == m.w.closed;
    if m.handlers[c].pc.pooled && id in m.w.pool {
      RemovalReleased(Goto(m, c, Finished), id, LeavePool);
    }
  }

  /** Finishing with the mutex is no news to anybody. */
  lemma SameReleased(config: Config, m: Server, n: Server, c: Conn, w: State)
    requires Lone(m, c) && Lone(n, c) && n.handlers == m.handlers && Released(n) == Released(m)
    requires !m.lock.Unlocked? && n.w.pool == m.w.pool
    ensures Explains(config, m, n, c, w)
  {
    hide AfterDial, AfterPooled, AfterHandle, AfterAdmitted, AfterLoop, Released, DeleteConn;
  }

  lemma LockExplained(config: Config, m: Server, step: Step, c: Conn, w: State)
    requires Lone(m, c) && Enabled(m, step) && (step.Clear? || step.CloseListener? || step.Leave?)
    ensures Explains(config, m, Next(config, m, step), c, w)
  {
    hide Explains, EndsIn;
    var n := Next(config, m, step);
    if step.CloseListener? {
      assert m.lock.left == [m.lock.left[0]] + m.lock.left[1..];
      assert (m.w.closed + [m.lock.left[0]]) + m.lock.left[1..] == m.w.closed + m.lock.left;
    } else if step.Leave? {
      assert m.w.closed + [] == m.w.closed;
    }
    SameReleased(config, m, n, c, w);
  }

  lemma LookupExplained(config: Config, m: Server, step: Step, c: Conn, w: State)
    requires Lone(m, c) && Enabled(m, step) && OwnLookup(m, step, c)
    ensures Explains(config, m, Next(config, m, step), c, w)
  {
    hide AfterOffers;
    var id := m.handlers[c].id;
    assert AfterPooled(m.w, config, id, None) == DeleteConn(m.w, id);
    if id in m.w.pool {
      RemovalReleased(m, id, LeavePool);
      assert m.w.closed + [] == m.w.closed;
      assert CloseEntry(m.w, id).closed + [] == CloseEntry(m.w, id).closed;
    }
  }

  lemma HandlerExplained(config: Config, m: Server, step: Step, c: Conn, w: State)
    requires Lone(m, c) && Enabled(m, step) && ByHandler(step) && OwnStep(m, step, c) && step.conn == c
    ensures Explains(config, m, Next(config, m, step), c, w)
  {
    hide Explains, AdmitStep, AddStep, Dial, HandshakeStep, OpenStep, SetStep, CloseBatchStep, RejectStep;
    match step
    case Accept(_, _) =>
    case Refuse(_) => RefuseExplained(config, m, c, w);
    case Admit(_) => AdmitExplained(config, m, c, w);
    case Add(_, alive, dialed) => AddExplained(config, m, c, alive, dialed, w);
    case FinishAdd(_, dialed) => FinishAddExplained(config, m, c, dialed, w);
    case Handshake(_, tunnels) => HandshakeExplained(config, m, c, tunnels, w);
    case Open(_, listen) => OpenExplained(config, m, c, listen, w);
    case Set(_) => SetExplained(config, m, c, w);
    case CloseBatch(_) => CloseBatchExplained(config, m, c, w);
    case Reject(_) => RejectExplained(config, m, c, w);
  }

  lemma StepExplained(config: Config, m: Server, step: Step, c: Conn, w: State)
    requires Lone(m, c) && Enabled(m, step) && OwnStep(m, step, c)
    ensures Explains(config, m, Next(config, m, step), c, w)
  {
    hide Explains, Lone, Next, Enabled;
    if step.Clear? || step.CloseListener? || step.Leave? {
      LockExplained(config, m, step, c, w);
    } else if OwnLookup(m, step, c) {
      LookupExplained(config, m, step, c, w);
    } else {
      HandlerExplained(config, m, step, c, w);
    }
  }

  lemma {:induction false} RunExplained(config: Config, m: Server, steps: seq<Step>, c: Conn)
    requires Lone(m, c) && Runs(config, m, steps) && AllOwn(config, m, steps, c)
    requires At(After(config, m, steps), c, Finished) && After(config, m, steps).lock.Unlocked?
    ensures EndsIn(config, m, c, After(config, m, steps).w)
    ensures After(config, m, steps).handlers[c].id == m.handlers[c].id
    decreases |steps|
  {
    hide Next, Enabled, OwnStep, Lone;
    if steps != [] {
      hide EndsIn;
      StepExplained(config, m, steps[0], c, After(config, m, steps).w);
      RunExplained(config, Next(config, m, steps[0]), steps[1..], c);
    }
  }

  /**
   * Every run of a new connection without interference that comes to its end is
   * `handleClient` as one operation, for some outcomes of the world outside.
   */
  lemma LoneRun(config: Config, c: Conn, m: Server, steps: seq<Step>)
    requires c !in m.handlers && m.lock.Unlocked?
    requires Runs(config, m, steps) && AllOwn(config, m, steps, c)
    requires At(After(config, m, steps), c, Finished) && After(config, m, steps).lock.Unlocked?
    ensures var n := After(config, m, steps);
            exists a: Attempt :: n.w == AfterHandle(m.w, config, c, n.handlers[c].id, a)
  {
    hide AfterHandle;
    assert steps != [] && steps[0].Accept? && steps[0].conn == c;
    var n := Next(config, m, steps[0]);
    assert n == AcceptStep(m, c, steps[0].id);
    RunExplained(config, n, steps[1..], c);
  }

  // ------------------------------------------------------------- Unsubscribe

  /** The step is one of a call of `Unsubscribe` after its first. */
  predicate OwnUnsubscribe(step: Step, id: Id) {
    step.Clear? || step.CloseListener? || step.Leave? || step == Unregister(id)
  }

  /** One call of `Unsubscribe` for `id` is at work, or has come to its end, and no other. */
  ghost predicate OneCall(m: Server, id: Id) {
    if m.lock.Unlocked? then m.unsubscribing[id] <= 1
    else m.lock.next == FinishUnsubscribe(id) && id !in m.unsubscribing
  }

  /** What is left of the call leads to `w`, with `handed` handed out. */
  ghost predicate CallEndsIn(m: Server, id: Id, w: State, handed: seq<Registration>) {
    var r := Released(m);
    if m.lock.Unlocked? && id !in m.unsubscribing then w == m.w && handed == m.handedOut
    else w == r.(reg := Unsubscribed(r.reg, id)) && handed == m.handedOut + ItemsOf(r.reg, id)
  }

  lemma CallStep(config: Config, m: Server, step: Step, id: Id, w: State, handed: seq<Registration>)
    requires OneCall(m, id) && Enabled(m, step) && OwnUnsubscribe(step, id)
    ensures OneCall(Next(config, m, step), id)
    ensures CallEndsIn(Next(config, m, step), id, w, handed) ==> CallEndsIn(m, id, w, handed)
  {
    if step.CloseListener? {
      assert m.lock.left == [m.lock.left[0]] + m.lock.left[1..];
      assert (m.w.closed + [m.lock.left[0]]) + m.lock.left[1..] == m.w.closed + m.lock.left;
    } else if step.Leave? {
      assert m.w.closed + [] == m.w.closed;
    }
  }

  lemma {:induction false} CallRun(config: Config, m: Server, steps: seq<Step>, id: Id)
    requires OneCall(m, id) && Runs(config, m, steps)
    requires forall k :: 0 <= k < |steps| ==> OwnUnsubscribe(steps[k], id)
    requires After(config, m, steps).lock.Unlocked? && id !in After(config, m, steps).unsubscribing
    ensures CallEndsIn(m, id, After(config, m, steps).w, After(config, m, steps).handedOut)
    decreases |steps|
  {
    hide Next, Enabled, OwnUnsubscribe;
    if steps != [] {
      hide CallEndsIn, OneCall;
      CallStep(config, m, steps[0], id, After(config, m, steps).w, After(config, m, steps).handedOut);
      CallRun(config, Next(config, m, steps[0]), steps[1..], id);
    }
  }

  /** Every run of a single call of `Unsubscribe` to its end is the operation, and hands out the item it finds. */
  lemma LoneUnsubscribe(config: Config, m: Server, steps: seq<Step>, id: Id)
    requires m.lock.Unlocked? && id !in m.unsubscribing
    requires steps != [] && steps[0] == Unsubscribe(id) && Runs(config, m, steps)
    requires forall k :: 0 < k < |steps| ==> OwnUnsubscribe(steps[k], id)
    requires After(config, m, steps).lock.Unlocked? && id !in After(config, m, steps).unsubscribing
    ensures var n := After(config, m, steps);
            && n.w == AfterUnsubscribe(m.w, id)
            && n.handedOut == m.handedOut + ItemsOf(DeleteConn(m.w, id).reg, id)
  {
    var n := Next(config, m, steps[0]);
    if id in m.w.pool {
      RemovalReleased(m, id, FinishUnsubscribe(id));
    }
    CallRun(config, n, steps[1..], id);
  }
}
