/** What a registered client holds is what its handshake asked for, over every interleaving. */
module Handshakes {
  import opened Text
  import opened Proto
  import opened Registry
  import opened World
  import opened Lifecycle
  import opened Tunnels
  import opened Solo
  import opened Sessions

  /** The batch holds one full host or one listener for each of the requests, none of which the server objects to. */
  ghost predicate Collected(base: string, asked: seq<Request>, batch: Registration) {
    exists offers :: Requests(offers) == asked && AllAcceptable(base, offers) && batch == OfferedBatch(base, offers)
  }

  lemma CollectedNone(base: string)
    ensures Collected(base, [], EMPTY_BATCH)
  {
    var none: seq<Offer> := [];
    assert Requests(none) == [] && AllAcceptable(base, none) && OfferedBatch(base, none) == EMPTY_BATCH;
  }

  lemma {:induction false} OfferedSnoc(base: string, offers: seq<Offer>, offer: Offer)
    ensures OfferedBatch(base, offers + [offer]) == Plus(OfferedBatch(base, offers), ItemOf(base, offer))
    decreases |offers|
  {
    var item := ItemOf(base, offer);
    PlusAssociates(item, item, item);
    if offers == [] {
      assert offers + [offer] == [offer];
      assert [offer][1..] == [];
    } else {
      OfferedSnoc(base, offers[1..], offer);
      assert (offers + [offer])[1..] == offers[1..] + [offer];
      PlusAssociates(ItemOf(base, offers[0]), OfferedBatch(base, offers[1..]), item);
    }
  }

  /** A round of `addTunnels` that succeeds collects one more request. */
  lemma CollectedSnoc(base: string, asked: seq<Request>, request: Request, listen: Option<Listener>, batch: Registration)
    requires Collected(base, asked, batch)
    requires BuildOne(base, Offer(request.name, request.tunnel, listen), batch).1 == None
    ensures Collected(base, asked + [request], BuildOne(base, Offer(request.name, request.tunnel, listen), batch).0)
  {
    hide OfferedBatch, Acceptable, ItemOf, BuildOne;
    var offer := Offer(request.name, request.tunnel, listen);
    var offers :| Requests(offers) == asked && AllAcceptable(base, offers) && batch == OfferedBatch(base, offers);
    BuildOneExactly(base, offer, batch);
    OfferedSnoc(base, offers, offer);
    assert Requests(offers + [offer]) == asked + [request];
  }

  /** A handler that opens listeners has collected what its handshake asked for, up to what is left to do. */
  ghost predicate OpeningOk(base: string, m: Server, c: Conn) {
    IsOpening(m, c) ==>
      && c in m.requested
      && exists done :: m.requested[c] == done + m.handlers[c].pc.todo && Collected(base, done, m.handlers[c].pc.batch)
  }

  /** A registered item is what the handshake of the handler that put it asked for. */
  ghost predicate PutOk(base: string, m: Server, id: Id) {
    Registered(m, id) ==>
      && id in m.origins && m.origins[id].conn in m.requested
      && Collected(base, m.requested[m.origins[id].conn], m.w.reg.items[id].reg)
  }

  ghost predicate AskInv(base: string, m: Server) {
    && Inv(m)
    && (forall c :: OpeningOk(base, m, c))
    && (forall id :: PutOk(base, m, id))
  }

  // ----------------------------------------------------- who changes what

  /** What handler `d` has asked for and how far it is with it stays as it was, or it is done with it. */
  predicate Undisturbed(m: Server, n: Server, d: Conn) {
    && (IsOpening(n, d) ==> IsOpening(m, d) && n.handlers[d].pc == m.handlers[d].pc)
    && (d in m.requested ==> d in n.requested && n.requested[d] == m.requested[d])
  }

  lemma ArrivalUndisturbed(config: Config, m: Server, step: Step, d: Conn)
    requires Enabled(m, step) && (step.Accept? || step.Refuse? || step.Admit?)
    ensures Undisturbed(m, Next(config, m, step), d)
  {
    hide Subscribed;
  }

  lemma AddingUndisturbed(config: Config, m: Server, step: Step, d: Conn)
    requires Enabled(m, step) && (step.Add? || step.FinishAdd?)
    ensures Undisturbed(m, Next(config, m, step), d)
  {
  }

  lemma OfferUndisturbed(config: Config, m: Server, step: Step, d: Conn)
    requires Enabled(m, step) && (step.Handshake? || step.Open? || step.Set? || step.CloseBatch? || step.Reject?)
    requires (step.Handshake? || step.Open?) ==> step.conn != d
    ensures Undisturbed(m, Next(config, m, step), d)
  {
    hide BuildOne, NewListeners, Refusal, AfterSet;
  }

  lemma SharedUndisturbed(config: Config, m: Server, step: Step, d: Conn)
    requires Enabled(m, step) && !ByHandler(step)
    ensures Undisturbed(m, Next(config, m, step), d)
  {
    hide Subscribed, Cleared, Unsubscribed, HeldBy;
  }

  lemma StepUndisturbed(config: Config, m: Server, step: Step, d: Conn)
    requires Enabled(m, step)
    requires (step.Handshake? || step.Open?) ==> step.conn != d
    ensures Undisturbed(m, Next(config, m, step), d)
  {
    hide Next, Enabled, Undisturbed;
    if !ByHandler(step) {
      SharedUndisturbed(config, m, step, d);
    } else if step.Handshake? || step.Open? || step.Set? || step.CloseBatch? || step.Reject? {
      OfferUndisturbed(config, m, step, d);
    } else if step.Add? || step.FinishAdd? {
      AddingUndisturbed(config, m, step, d);
    } else {
      ArrivalUndisturbed(config, m, step, d);
    }
  }

  lemma HandshakeAsks(base: string, m: Server, c: Conn, tunnels: Option<seq<Request>>)
    requires At(m, c, Handshaking)
    ensures OpeningOk(base, HandshakeStep(m, c, tunnels), c)
  {
    hide Collected;
    CollectedNone(base);
    if tunnels.Some? {
      assert tunnels.value == [] + tunnels.value;
    }
  }

  lemma OpenCollects(base: string, m: Server, c: Conn, listen: Option<Listener>)
    requires IsOpening(m, c) && m.handlers[c].pc.todo != [] && OpeningOk(base, m, c)
    ensures OpeningOk(base, OpenStep(base, m, c, listen), c)
    ensures OpenStep(base, m, c, listen).requested == m.requested
  {
    hide Collected, BuildOne, NewListeners;
    var Opening(todo, batch) := m.handlers[c].pc;
    var done :| m.requested[c] == done + todo && Collected(base, done, batch);
    if BuildOne(base, Offer(todo[0].name, todo[0].tunnel, listen), batch).1 == None {
      CollectedSnoc(base, done, todo[0], listen, batch);
      assert done + todo == (done + [todo[0]]) + todo[1..];
    }
  }

  lemma OpeningStep(config: Config, m: Server, step: Step, c: Conn)
    requires Enabled(m, step) && OpeningOk(config.baseDomain, m, c)
    ensures OpeningOk(config.baseDomain, Next(config, m, step), c)
  {
    if step.Handshake? && step.conn == c {
      hide OpeningOk, HandshakeStep;
      HandshakeAsks(config.baseDomain, m, c, step.tunnels);
    } else if step.Open? && step.conn == c {
      hide OpeningOk, OpenStep;
      OpenCollects(config.baseDomain, m, c, step.listen);
    } else {
      hide Next, Enabled, Collected;
      StepUndisturbed(config, m, step, c);
    }
  }

  lemma PutStep(config: Config, m: Server, step: Step, id: Id)
    requires Enabled(m, step) && AskInv(config.baseDomain, m)
    requires Inv(Next(config, m, step))
    ensures PutOk(config.baseDomain, Next(config, m, step), id)
  {
    hide Collected, Refusal;
    var n := Next(config, m, step);
    if Registered(n, id) {
      assert ItemOk(n, id);
      var reg := n.w.reg.items[id].reg;
      var c := n.origins[id].conn;
      ItemStep(config, m, step, id, reg);
      if KeepsItem(m, n, id, reg) {
        PutKept(config, m, step, id);
      } else {
        assert OpeningOk(config.baseDomain, m, c);
        var done :| m.requested[c] == done + m.handlers[c].pc.todo && Collected(config.baseDomain, done, reg);
        assert done + [] == done;
        hide Next, Enabled;
        StepUndisturbed(config, m, step, c);
      }
    }
  }

  /** An item that stays was put by a handler that is done, and whose handshake nobody repeats. */
  lemma PutKept(config: Config, m: Server, step: Step, id: Id)
    requires Enabled(m, step) && Inv(m) && PutOk(config.baseDomain, m, id)
    requires Registered(m, id) && Registered(Next(config, m, step), id)
    requires id in Next(config, m, step).origins && KeepsItem(m, Next(config, m, step), id, Next(config, m, step).w.reg.items[id].reg)
    ensures PutOk(config.baseDomain, Next(config, m, step), id)
  {
    assert ItemOk(m, id);
    var c := m.origins[id].conn;
    assert (step.Handshake? || step.Open?) ==> step.conn != c;
    hide Next, Enabled, Collected, Inv;
    StepUndisturbed(config, m, step, c);
  }

  lemma AskStep(config: Config, m: Server, step: Step)
    requires Enabled(m, step) && AskInv(config.baseDomain, m)
    ensures AskInv(config.baseDomain, Next(config, m, step))
  {
    hide Next, Enabled, Inv, OpeningOk, PutOk;
    StepInv(config, m, step);
    forall c ensures OpeningOk(config.baseDomain, Next(config, m, step), c) {
      OpeningStep(config, m, step, c);
    }
    forall id ensures PutOk(config.baseDomain, Next(config, m, step), id) {
      PutStep(config, m, step, id);
    }
  }

  lemma {:induction false} AskRun(config: Config, m: Server, steps: seq<Step>)
    requires Runs(config, m, steps) && AskInv(config.baseDomain, m)
    ensures AskInv(config.baseDomain, After(config, m, steps))
    decreases |steps|
  {
    hide Next, Enabled, AskInv;
    if steps != [] {
      AskStep(config, m, steps[0]);
      AskRun(config, Next(config, m, steps[0]), steps[1..]);
    }
  }

  /**
   * In every reachable state a registered client holds exactly what the handshake
   * of the handler that put its item asked for: a host for each HTTP tunnel and a
   * listener for each TCP tunnel, none of which the server objects to.
   */
  lemma ItemIsAskedFor(config: Config, m: Server, id: Id)
    requires Reachable(config, m) && Registered(m, id)
    ensures id in m.origins && m.origins[id].conn in m.requested
    ensures Collected(config.baseDomain, m.requested[m.origins[id].conn], m.w.reg.items[id].reg)
  {
    hide Next, Enabled, Inv, Collected;
    var steps :| Runs(config, INITIAL, steps) && After(config, INITIAL, steps) == m;
    assert Runs(config, INITIAL, []) && After(config, INITIAL, []) == INITIAL;
    ReachableInv(config, INITIAL);
    AskRun(config, INITIAL, steps);
    assert PutOk(config.baseDomain, m, id);
  }

  // ----------------------------------------------- what is in a registered item

  /** A host that an HTTP tunnel among the requests stands for: a valid label under the base domain. */
  ghost predicate AskedHost(base: string, asked: seq<Request>, h: string) {
    exists k :: 0 <= k < |asked| && asked[k].tunnel.protocol == "http" && base != ""
                && ValidSubdomainLabel(asked[k].tunnel.host) && h == asked[k].tunnel.host + "." + base
  }

  lemma CollectedHosts(base: string, asked: seq<Request>, batch: Registration, h: string)
    requires Collected(base, asked, batch)
    ensures h in batch.hosts <==> AskedHost(base, asked, h)
  {
    hide OfferedBatch, Acceptable, Check, ValidSubdomainLabel;
    var offers: seq<Offer> :| Requests(offers) == asked && AllAcceptable(base, offers) && batch == OfferedBatch(base, offers);
    OfferedHost(base, offers, h);
    forall k | 0 <= k < |offers|
      ensures asked[k] == Request(offers[k].name, offers[k].tunnel)
      ensures !IsTcp(offers[k].tunnel.protocol) ==>
                offers[k].tunnel.protocol == "http" && base != "" && ValidSubdomainLabel(offers[k].tunnel.host)
    {
      assert Acceptable(base, offers[k]);
      if !IsTcp(offers[k].tunnel.protocol) {
        AcceptedLabel(base, offers[k]);
      }
    }
    if AskedHost(base, asked, h) {
      var k :| 0 <= k < |asked| && asked[k].tunnel.protocol == "http" && h == asked[k].tunnel.host + "." + base;
      assert !IsTcp(offers[k].tunnel.protocol) && FullHost(base, offers[k].tunnel.host) == h;
    }
    if h in batch.hosts {
      var k :| 0 <= k < |offers| && !IsTcp(offers[k].tunnel.protocol) && FullHost(base, offers[k].tunnel.host) == h;
      assert asked[k].tunnel == offers[k].tunnel;
    }
  }

  lemma AcceptedLabel(base: string, offer: Offer)
    requires Acceptable(base, offer) && !IsTcp(offer.tunnel.protocol)
    ensures offer.tunnel.protocol == "http" && base != "" && ValidSubdomainLabel(offer.tunnel.host)
  {
    CheckExactly(base, offer.name, offer.tunnel);
  }

  /**
   * In every reachable state the hosts of a registered client are exactly those
   * that the HTTP tunnels of its handshake stand for, each a valid label under a
   * base domain that is not empty.
   */
  lemma HostsAreAskedFor(config: Config, m: Server, id: Id, h: string)
    requires Reachable(config, m) && Registered(m, id)
    ensures id in m.origins && m.origins[id].conn in m.requested
    ensures h in m.w.reg.items[id].reg.hosts <==> AskedHost(config.baseDomain, m.requested[m.origins[id].conn], h)
  {
    hide Reachable, Collected, AskedHost;
    ItemIsAskedFor(config, m, id);
    CollectedHosts(config.baseDomain, m.requested[m.origins[id].conn], m.w.reg.items[id].reg, h);
  }
}
