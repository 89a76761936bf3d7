/**
 * The server's shared state and what its operations compute when each runs
 * to completion: pool.go, registry.go and the session handling of server.go.
 */
module World {
  import opened Text
  import opened NetAddr
  import opened Proto
  import opened Registry
  import IdText

  /** An accepted network connection. */
  type Conn = nat

  /** The HTTP/2 client connection that the transport builds on top of one. */
  type ClientConn = nat

  datatype ConnPair = ConnPair(conn: Conn, clientConn: ClientConn)

  /**
   * `pool` is the connection pool by client; `everOpened` holds every listener ever
   * opened, `closed` the calls of Close on listeners in order.
   */
  datatype State = State(
    reg: Records,
    pool: map<Id, ConnPair>,
    closedConns: set<Conn>,
    everOpened: set<Listener>,
    closed: seq<Listener>)

  // ---------------------------------------------------------------- pool keys

  /** `connPool.addr` */
  function Addr(id: Id): string {
    IdText.Print(id) + ":443"
  }

  /** `connPool.identifier`; the zero identifier stands for text that does not parse. */
  function Identifier(addr: string): Id {
    match SplitHostPort(addr)
    case Malformed(_) => IdText.ZeroId()
    case HostPort(host, _) => IdentifierOfHost(host)
  }

  function IdentifierOfHost(host: string): Id {
    match IdText.Parse(host)
    case Ok(id) => id
    case Err(_) => IdText.ZeroId()
  }

  lemma PrintedPlain(id: Id)
    ensures Plain(IdText.Print(id)) && Plain("443")
  {
    IdText.PrintedShape(id);
  }

  /** The pool's free callback always receives the client whose key was removed. */
  lemma IdentifierOfAddr(id: Id)
    ensures Identifier(Addr(id)) == id
  {
    hide IdText.Print, IdText.Parse, Plain, SplitHostPort;
    PrintedPlain(id);
    SplitPlain(IdText.Print(id), "443");
    assert IdText.Print(id) + ":" + "443" == Addr(id);
    IdText.ParsePrint(id);
  }

  /** The key is the printed client and the port of HTTPS, as the transport asks for it. */
  lemma AddrSplits(id: Id)
    ensures SplitHostPort(Addr(id)) == HostPort(IdText.Print(id), "443")
  {
    hide IdText.Print, Plain, SplitHostPort;
    PrintedPlain(id);
    SplitPlain(IdText.Print(id), "443");
    assert IdText.Print(id) + ":" + "443" == Addr(id);
  }

  /** Text that is no key stands for 32 zero bytes. */
  lemma UnknownAddr(addr: string)
    requires SplitHostPort(addr).Malformed? || IdText.Parse(SplitHostPort(addr).host).Err?
    ensures |Identifier(addr)| == 32 && forall i :: 0 <= i < 32 ==> Identifier(addr)[i] == 0
  {
    hide SplitHostPort, IdText.Parse;
  }

  lemma AddrInjective(a: Id, b: Id)
    requires Addr(a) == Addr(b)
    ensures a == b
  {
    IdentifierOfAddr(a);
    IdentifierOfAddr(b);
  }

  // --------------------------------------------------------- pool operations

  function ListenersOf(held: Option<Registration>): seq<Listener> {
    match held
    case None => []
    case Some(reg) => reg.listeners
  }

  /** `connPool.close` with its callback: the connection, then the registration, then its listeners. */
  function CloseEntry(w: State, id: Id): State
    requires id in w.pool
  {
    w.(pool := w.pool - {id},
       closedConns := w.closedConns + {w.pool[id].conn},
       reg := Cleared(w.reg, id),
       closed := w.closed + ListenersOf(HeldBy(w.reg, id)))
  }

  function DeleteConn(w: State, id: Id): State {
    if id in w.pool then CloseEntry(w, id) else w
  }

  function CloseConn(w: State, conn: Conn): State {
    w.(closedConns := w.closedConns + {conn})
  }

  datatype AddError = AlreadyConnected | NoClientConn

  /** `AddConn`: `alive` is the answer of a pooled predecessor to a ping, `dialed` the outcome of NewClientConn. */
  function AddConnError(w: State, id: Id, alive: bool, dialed: Option<ClientConn>): Option<AddError> {
    if id in w.pool && alive then Some(AlreadyConnected)
    else if dialed == None then Some(NoClientConn)
    else None
  }

  function AfterAddConn(w: State, conn: Conn, id: Id, alive: bool, dialed: Option<ClientConn>): State {
    if id in w.pool && alive then w
    else
      var v := DeleteConn(w, id);
      match dialed
      case None => CloseConn(v, conn)
      case Some(cc) => v.(pool := v.pool[id := ConnPair(conn, cc)])
  }

  /**
   * The outcomes of `AddConn`: a live predecessor stays and the newcomer is
   * refused; otherwise the predecessor, if there is one, is gone with its
   * connection closed, its item void and its listeners closed, and the newcomer
   * is pooled in its place, or closed and refused if the dial failed.
   */
  lemma AddConnOutcomes(w: State, conn: Conn, id: Id, alive: bool, dialed: Option<ClientConn>)
    ensures var v, error := AfterAddConn(w, conn, id, alive, dialed), AddConnError(w, id, alive, dialed);
            if id in w.pool && alive then error == Some(AlreadyConnected) && v == w
            else
              && (id in w.pool ==> w.pool[id].conn in v.closedConns && HeldBy(v.reg, id) == None
                                   && (HeldBy(w.reg, id).Some? ==> v.closed == w.closed + HeldBy(w.reg, id).value.listeners))
              && (dialed == None ==> error == Some(NoClientConn) && v.pool == w.pool - {id} && conn in v.closedConns)
              && (dialed.Some? ==> error == None && v.pool == w.pool[id := ConnPair(conn, dialed.value)])
              && (id !in w.pool ==> v.reg == w.reg && v.closed == w.closed)
  {
  }

  ghost predicate DistinctConns(pool: map<Id, ConnPair>) {
    forall a, b :: a in pool && b in pool && pool[a].clientConn == pool[b].clientConn ==> a == b
  }

  /** `MarkDead`: closes the entry that holds the client connection, if there is one. */
  ghost function AfterMarkDead(w: State, cc: ClientConn): State {
    if id :| id in w.pool && w.pool[id].clientConn == cc then CloseEntry(w, id) else w
  }

  /** The eviction half of `GetClientConn`: closes the entry only if it still holds `found`. */
  function AfterEvict(w: State, id: Id, found: ClientConn): State {
    if id in w.pool && w.pool[id].clientConn == found then CloseEntry(w, id) else w
  }

  // -------------------------------------------------------------- addTunnels

  datatype TunnelError =
    | NoBaseDomain(name: string)
    | MissingHost(name: string)
    | InvalidLabel(name: string, host: string)
    | UnsupportedProtocol(name: string, protocol: string)
    | ListenFailed(addr: string)
    | SetFailed(error: SetError)

  datatype Checked = NeedsListener | PublicHost(host: string) | Refused(error: TunnelError)

  /** What the server makes of one requested tunnel. */
  function Check(base: string, name: string, t: Tunnel): Checked {
    if IsTcp(t.protocol) then NeedsListener
    else if t.protocol != HTTP then Refused(UnsupportedProtocol(name, t.protocol))
    else if base == "" then Refused(NoBaseDomain(name))
    else if t.host == "" then Refused(MissingHost(name))
    else if !ValidSubdomainLabel(t.host) then Refused(InvalidLabel(name, t.host))
    else PublicHost(FullHost(base, t.host))
  }

  /**
   * The server's verdict on a tunnel, in terms of its fields alone: TCP tunnels
   * need a listener; an HTTP tunnel is published under its label and the base
   * domain if there is one and the label is valid; anything else is refused, for
   * the first reason there is.
   */
  lemma CheckExactly(base: string, name: string, t: Tunnel)
    ensures Check(base, name, t) == NeedsListener <==> t.protocol == "tcp" || t.protocol == "tcp4" || t.protocol == "tcp6"
    ensures forall h :: Check(base, name, t) == PublicHost(h) <==>
              t.protocol == "http" && base != "" && ValidSubdomainLabel(t.host) && h == t.host + "." + base
    ensures Check(base, name, t) == Refused(NoBaseDomain(name)) <==> t.protocol == "http" && base == ""
    ensures Check(base, name, t) == Refused(MissingHost(name)) <==> t.protocol == "http" && base != "" && t.host == ""
    ensures Check(base, name, t) == Refused(InvalidLabel(name, t.host)) <==>
              t.protocol == "http" && base != "" && t.host != "" && !ValidSubdomainLabel(t.host)
    ensures Check(base, name, t) == Refused(UnsupportedProtocol(name, t.protocol)) <==>
              t.protocol !in {"tcp", "tcp4", "tcp6", "http"}
  {
  }

  /** A requested tunnel in the order the map yields it, with the outcome of net.Listen should it be called. */
  datatype Offer = Offer(name: string, tunnel: Tunnel, listen: Option<Listener>)

  const EMPTY_BATCH := Registration([], [])

  /** One round of the loop in `addTunnels`. */
  function BuildOne(base: string, offer: Offer, batch: Registration): (Registration, Option<TunnelError>) {
    match Check(base, offer.name, offer.tunnel)
    case Refused(e) => (batch, Some(e))
    case PublicHost(h) => (batch.(hosts := batch.hosts + [h]), None)
    case NeedsListener =>
      match offer.listen
      case None => (batch, Some(ListenFailed(offer.tunnel.addr)))
      case Some(l) => (batch.(listeners := batch.listeners + [l]), None)
  }

  function Build(base: string, offers: seq<Offer>, batch: Registration): (Registration, Option<TunnelError>) {
    if offers == [] then (batch, None)
    else
      var (next, error) := BuildOne(base, offers[0], batch);
      if error.Some? then (next, error) else Build(base, offers[1..], next)
  }

  function AddTunnelsError(w: State, base: string, offers: seq<Offer>, id: Id): Option<TunnelError> {
    var (batch, error) := Build(base, offers, EMPTY_BATCH);
    if error.Some? then error
    else match Refusal(w.reg, batch, id)
      case None => None
      case Some(e) => Some(SetFailed(e))
  }

  function AfterAddTunnels(w: State, base: string, offers: seq<Offer>, id: Id): State {
    var batch := Build(base, offers, EMPTY_BATCH).0;
    var v := w.(everOpened := w.everOpened + (set l | l in batch.listeners));
    if AddTunnelsError(w, base, offers, id).Some? then v.(closed := v.closed + batch.listeners)
    else v.(reg := AfterSet(v.reg, batch, id))
  }

  // ------------------------------------------------------------ handleClient

  datatype Config = Config(autoSubscribe: bool, baseDomain: string)

  /**
   * Everything outside the server that decides one connection attempt: the
   * certificate, the deadline call, the ping of a predecessor, NewClientConn,
   * and the handshake (`None` if it fails before a list of tunnels is decoded).
   */
  datatype Attempt = Attempt(
    identified: bool,
    deadlineSet: bool,
    alive: bool,
    dialed: Option<ClientConn>,
    handshake: Option<seq<Offer>>)

  /** The registry after the subscription step of `handleClient`. */
  function Admitted(w: State, config: Config, id: Id): State {
    if config.autoSubscribe then w.(reg := Subscribed(w.reg, id)) else w
  }

  /** The rest of `handleClient` once the handshake has brought tunnels. */
  function AfterOffers(w: State, config: Config, id: Id, offers: seq<Offer>): State {
    var v := AfterAddTunnels(w, config.baseDomain, offers, id);
    if AddTunnelsError(w, config.baseDomain, offers, id) == None then v else DeleteConn(v, id)
  }

  /** The rest of `handleClient` once the connection is pooled. */
  function AfterPooled(w: State, config: Config, id: Id, handshake: Option<seq<Offer>>): State {
    if handshake == None || handshake.value == [] then DeleteConn(w, id)
    else AfterOffers(w, config, id, handshake.value)
  }

  /** The rest of `handleClient` once the subscription is settled. */
  function AfterAdmitted(w: State, config: Config, conn: Conn, id: Id, a: Attempt): State {
    if id !in w.reg.items || !a.deadlineSet then CloseConn(w, conn)
    else
      var v := AfterAddConn(w, conn, id, a.alive, a.dialed);
      if AddConnError(w, id, a.alive, a.dialed).Some? then CloseConn(v, conn)
      else AfterPooled(v, config, id, a.handshake)
  }

  /** `handleClient`, run without interference. */
  function AfterHandle(w: State, config: Config, conn: Conn, id: Id, a: Attempt): State {
    if !a.identified then CloseConn(w, conn)
    else AfterAdmitted(Admitted(w, config, id), config, conn, id, a)
  }

  /** The attempt ends connected: it gets through `AddConn`, brings tunnels, and they are registered. */
  function Connects(w: State, config: Config, conn: Conn, id: Id, a: Attempt): bool {
    var v := Admitted(w, config, id);
    && a.identified && id in v.reg.items && a.deadlineSet
    && AddConnError(v, id, a.alive, a.dialed) == None
    && a.handshake.Some? && a.handshake.value != []
    && AddTunnelsError(AfterAddConn(v, conn, id, a.alive, a.dialed), config.baseDomain, a.handshake.value, id) == None
  }

  /** A connected attempt leaves its connection pooled and its client registered; any other has its connection closed. */
  lemma ConnectsMeans(w: State, config: Config, conn: Conn, id: Id, a: Attempt)
    ensures var v := AfterHandle(w, config, conn, id, a);
            if Connects(w, config, conn, id, a)
            then id in v.pool && v.pool[id].conn == conn && HeldBy(v.reg, id).Some?
            else conn in v.closedConns
  {
    hide Build, FirstOccupied, Cleared;
  }

  /** `Server.Unsubscribe` */
  function AfterUnsubscribe(w: State, id: Id): State {
    var v := DeleteConn(w, id);
    v.(reg := Unsubscribed(v.reg, id))
  }
}
