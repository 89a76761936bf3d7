/** `addTunnels` is all-or-nothing, and map order decides nothing but the order of the lists. */
module Tunnels {
  import opened Text
  import opened NetAddr
  import opened Proto
  import opened Registry
  import opened World

  /** The server has no objection to the tunnel, and its listener, if it needs one, opens. */
  predicate Acceptable(base: string, offer: Offer) {
    match Check(base, offer.name, offer.tunnel)
    case Refused(_) => false
    case PublicHost(_) => true
    case NeedsListener => offer.listen.Some?
  }

  /** What one acceptable tunnel adds to the batch: its full host name if it is an HTTP tunnel, its listener if it is a TCP tunnel. */
  function ItemOf(base: string, offer: Offer): Registration {
    if !IsTcp(offer.tunnel.protocol) then Registration([FullHost(base, offer.tunnel.host)], [])
    else Registration([], if offer.listen.Some? then [offer.listen.value] else [])
  }

  function Plus(a: Registration, b: Registration): Registration {
    Registration(a.hosts + b.hosts, a.listeners + b.listeners)
  }

  /** One full host name per HTTP tunnel and one listener per TCP tunnel, in order. */
  function OfferedBatch(base: string, offers: seq<Offer>): Registration {
    if offers == [] then EMPTY_BATCH else Plus(ItemOf(base, offers[0]), OfferedBatch(base, offers[1..]))
  }

  lemma PlusAssociates(a: Registration, b: Registration, c: Registration)
    ensures Plus(Plus(a, b), c) == Plus(a, Plus(b, c))
    ensures Plus(a, EMPTY_BATCH) == a && Plus(EMPTY_BATCH, a) == a
  {
    assert (a.hosts + b.hosts) + c.hosts == a.hosts + (b.hosts + c.hosts);
    assert (a.listeners + b.listeners) + c.listeners == a.listeners + (b.listeners + c.listeners);
    assert a == Registration(a.hosts + [], a.listeners + []);
    assert a == Registration([] + a.hosts, [] + a.listeners);
  }

  /** The batch counts its tunnels: as many hosts as HTTP tunnels, as many listeners as TCP tunnels. */
  lemma {:induction false} OfferedCounts(base: string, offers: seq<Offer>)
    requires AllAcceptable(base, offers)
    ensures var batch := OfferedBatch(base, offers);
            |batch.hosts| == CountHttp(offers) && |batch.hosts| + |batch.listeners| == |offers|
  {
    if offers != [] {
      AcceptableCons(base, offers);
      OfferedCounts(base, offers[1..]);
    }
  }

  function CountHttp(offers: seq<Offer>): nat {
    if offers == [] then 0 else (if offers[0].tunnel.protocol == HTTP then 1 else 0) + CountHttp(offers[1..])
  }

  ghost predicate AllAcceptable(base: string, offers: seq<Offer>) {
    forall k :: 0 <= k < |offers| ==> Acceptable(base, offers[k])
  }

  lemma AcceptableCons(base: string, offers: seq<Offer>)
    requires offers != []
    ensures AllAcceptable(base, offers) <==> Acceptable(base, offers[0]) && AllAcceptable(base, offers[1..])
  {
    assert offers == [offers[0]] + offers[1..];
    if Acceptable(base, offers[0]) && AllAcceptable(base, offers[1..]) {
      forall k | 0 <= k < |offers| ensures Acceptable(base, offers[k]) {
        if k > 0 { assert Acceptable(base, offers[1..][k - 1]); }
      }
    }
    if AllAcceptable(base, offers) {
      forall k | 0 <= k < |offers[1..]| ensures Acceptable(base, offers[1..][k]) {
        assert Acceptable(base, offers[k + 1]);
      }
    }
  }

  lemma BuildOneExactly(base: string, offer: Offer, batch: Registration)
    ensures BuildOne(base, offer, batch).1 == None <==> Acceptable(base, offer)
    ensures Acceptable(base, offer) ==> BuildOne(base, offer, batch).0 == Plus(batch, ItemOf(base, offer))
    ensures !Acceptable(base, offer) ==> BuildOne(base, offer, batch).0 == batch
  {
    assert batch == Registration(batch.hosts + [], batch.listeners + []);
  }

  /** The loop succeeds exactly when every tunnel is acceptable. */
  lemma {:induction false} BuildSucceeds(base: string, offers: seq<Offer>, batch: Registration)
    ensures Build(base, offers, batch).1 == None <==> AllAcceptable(base, offers)
    decreases |offers|
  {
    if offers != [] {
      AcceptableCons(base, offers);
      BuildOneExactly(base, offers[0], batch);
      var (next, error) := BuildOne(base, offers[0], batch);
      if error == None {
        BuildSucceeds(base, offers[1..], next);
      }
    }
  }

  /** A loop that succeeds has collected every host and listener, in order. */
  lemma {:induction false} BuildCollects(base: string, offers: seq<Offer>, batch: Registration)
    requires AllAcceptable(base, offers)
    ensures Build(base, offers, batch).0 == Plus(batch, OfferedBatch(base, offers))
    decreases |offers|
  {
    if offers == [] {
      PlusAssociates(batch, batch, batch);
    } else {
      AcceptableCons(base, offers);
      BuildOneExactly(base, offers[0], batch);
      var next := BuildOne(base, offers[0], batch).0;
      BuildCollects(base, offers[1..], next);
      PlusAssociates(batch, ItemOf(base, offers[0]), OfferedBatch(base, offers[1..]));
    }
  }

  lemma BuildExactly(base: string, offers: seq<Offer>)
    ensures Build(base, offers, EMPTY_BATCH).1 == None <==> AllAcceptable(base, offers)
    ensures AllAcceptable(base, offers) ==> Build(base, offers, EMPTY_BATCH).0 == OfferedBatch(base, offers)
  {
    BuildSucceeds(base, offers, EMPTY_BATCH);
    if AllAcceptable(base, offers) {
      BuildCollects(base, offers, EMPTY_BATCH);
      var batch := OfferedBatch(base, offers);
      PlusAssociates(batch, batch, batch);
    }
  }

  /** Whether or not the loop succeeds, it only ever collects listeners that were opened for it. */
  lemma {:induction false} BuildListeners(base: string, offers: seq<Offer>, batch: Registration)
    ensures forall l :: l in Build(base, offers, batch).0.listeners ==>
              l in batch.listeners || l in OfferedBatch(base, offers).listeners
    decreases |offers|
  {
    if offers != [] {
      BuildOneExactly(base, offers[0], batch);
      var (next, error) := BuildOne(base, offers[0], batch);
      if error == None {
        BuildListeners(base, offers[1..], next);
      }
    }
  }

  /** The listeners that are open. */
  function Live(w: State): set<Listener> {
    w.everOpened - (set l | l in w.closed)
  }

  /** None of the listeners that the offers bring is among `seen`. */
  ghost predicate NeverSeen(seen: set<Listener>, offers: seq<Offer>) {
    forall l :: l in OfferedBatch("", offers).listeners ==> l !in seen
  }

  /** The base domain has no part in the listeners. */
  lemma {:induction false} SameListeners(base: string, offers: seq<Offer>)
    ensures OfferedBatch(base, offers).listeners == OfferedBatch("", offers).listeners
  {
    if offers != [] {
      SameListeners(base, offers[1..]);
    }
  }

  /**
   * On any error the registry, the pool and the set of open listeners are as
   * before; on success the client holds one host per HTTP tunnel and one open
   * listener per TCP tunnel. It succeeds exactly when every tunnel is acceptable
   * and the registry takes the batch.
   */
  lemma AllOrNothing(w: State, base: string, offers: seq<Offer>, id: Id)
    requires NeverSeen(w.everOpened + (set l | l in w.closed), offers)
    ensures var v := AfterAddTunnels(w, base, offers, id);
            var batch := OfferedBatch(base, offers);
            var ok := AllAcceptable(base, offers) && Refusal(w.reg, batch, id) == None;
            && (AddTunnelsError(w, base, offers, id) == None <==> ok)
            && v.pool == w.pool && v.closedConns == w.closedConns
            && (!ok ==> v.reg == w.reg && Live(v) == Live(w))
            && (ok ==> v.reg.items == w.reg.items[id := Held(batch)]
                       && Live(v) == Live(w) + (set l | l in batch.listeners)
                       && v.closed == w.closed)
  {
    BuildExactly(base, offers);
    var batch := Build(base, offers, EMPTY_BATCH).0;
    BuildListeners(base, offers, EMPTY_BATCH);
    SameListeners(base, offers);
  }

  /** The offers are the tunnels of the request, each at least once and in some order; `opens` names those whose listener opens. */
  ghost predicate Presents(offers: seq<Offer>, tunnels: map<string, Tunnel>, opens: set<string>) {
    && (forall k :: 0 <= k < |offers| ==>
          offers[k].name in tunnels && tunnels[offers[k].name] == offers[k].tunnel
          && (IsTcp(offers[k].tunnel.protocol) ==> (offers[k].listen.Some? <==> offers[k].name in opens)))
    && (forall name :: name in tunnels ==> exists k :: 0 <= k < |offers| && offers[k].name == name)
  }

  /** The host names a request stands for, whatever order it is read in. */
  ghost function RequestedHosts(base: string, tunnels: map<string, Tunnel>): set<string> {
    set name | name in tunnels && !IsTcp(tunnels[name].protocol) :: TrimPort(FullHost(base, tunnels[name].host))
  }

  lemma {:induction false} OfferedHost(base: string, offers: seq<Offer>, h: string)
    ensures h in OfferedBatch(base, offers).hosts <==>
            exists k :: 0 <= k < |offers| && !IsTcp(offers[k].tunnel.protocol) && FullHost(base, offers[k].tunnel.host) == h
    decreases |offers|
  {
    if offers != [] {
      OfferedHost(base, offers[1..], h);
      if h in OfferedBatch(base, offers[1..]).hosts {
        var k :| 0 <= k < |offers| - 1 && !IsTcp(offers[1..][k].tunnel.protocol) && FullHost(base, offers[1..][k].tunnel.host) == h;
        assert offers[k + 1] == offers[1..][k];
      }
      if k :| 0 < k < |offers| && !IsTcp(offers[k].tunnel.protocol) && FullHost(base, offers[k].tunnel.host) == h {
        assert offers[1..][k - 1] == offers[k];
      }
    }
  }

  lemma PresentedHosts(base: string, offers: seq<Offer>, tunnels: map<string, Tunnel>, opens: set<string>)
    requires Presents(offers, tunnels, opens)
    ensures Trimmed(OfferedBatch(base, offers).hosts) == RequestedHosts(base, tunnels)
  {
    forall t ensures t in Trimmed(OfferedBatch(base, offers).hosts) <==> t in RequestedHosts(base, tunnels) {
      if t in Trimmed(OfferedBatch(base, offers).hosts) {
        var h :| h in OfferedBatch(base, offers).hosts && TrimPort(h) == t;
        OfferedHost(base, offers, h);
      }
      if t in RequestedHosts(base, tunnels) {
        var name :| name in tunnels && !IsTcp(tunnels[name].protocol) && TrimPort(FullHost(base, tunnels[name].host)) == t;
        var k :| 0 <= k < |offers| && offers[k].name == name;
        OfferedHost(base, offers, FullHost(base, tunnels[name].host));
      }
    }
  }

  /** What makes a request acceptable, without reference to any order. */
  ghost predicate RequestAcceptable(base: string, tunnels: map<string, Tunnel>, opens: set<string>) {
    forall name :: name in tunnels ==> TunnelAcceptable(base, name, tunnels[name], opens)
  }

  /** The server's verdict on one tunnel of a request. */
  ghost predicate TunnelAcceptable(base: string, name: string, t: Tunnel, opens: set<string>) {
    match Check(base, name, t)
    case Refused(_) => false
    case PublicHost(_) => true
    case NeedsListener => name in opens
  }

  lemma PresentedAcceptable(base: string, offers: seq<Offer>, tunnels: map<string, Tunnel>, opens: set<string>)
    requires Presents(offers, tunnels, opens)
    ensures AllAcceptable(base, offers) <==> RequestAcceptable(base, tunnels, opens)
  {
    if AllAcceptable(base, offers) {
      forall name | name in tunnels ensures TunnelAcceptable(base, name, tunnels[name], opens) {
        var k :| 0 <= k < |offers| && offers[k].name == name;
        assert Acceptable(base, offers[k]);
      }
    }
    if RequestAcceptable(base, tunnels, opens) {
      forall k | 0 <= k < |offers| ensures Acceptable(base, offers[k]) {
        assert TunnelAcceptable(base, offers[k].name, tunnels[offers[k].name], opens);
      }
    }
  }

  /**
   * Whether the request succeeds, and the host table afterwards, depend on the
   * tunnels and on which listeners open, not on the order of the map; without
   * TCP tunnels, on the tunnels alone.
   */
  lemma OrderIrrelevant(w: State, base: string, offers: seq<Offer>, tunnels: map<string, Tunnel>, opens: set<string>, id: Id)
    requires Presents(offers, tunnels, opens)
    ensures AddTunnelsError(w, base, offers, id) == None <==>
            && RequestAcceptable(base, tunnels, opens)
            && id in w.reg.items && w.reg.items[id].Void?
            && RequestedHosts(base, tunnels) !! w.reg.hosts.Keys
    ensures AddTunnelsError(w, base, offers, id) == None ==>
            AfterAddTunnels(w, base, offers, id).reg.hosts
            == w.reg.hosts + (map h | h in RequestedHosts(base, tunnels) :: id)
  {
    BuildExactly(base, offers);
    PresentedHosts(base, offers, tunnels, opens);
    PresentedAcceptable(base, offers, tunnels, opens);
  }
}
