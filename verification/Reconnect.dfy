/** The client's reconnect loop (client.go): its rate, and what cancellation can and cannot stop. */
module Reconnect {
  import opened Text

  /** A connection to the server. */
  type Conn = nat

  /** A point in time, in nanoseconds. */
  type Time = int

  const FIVE_SECONDS: Time := 5_000_000_000

  /** The fields of the client that the loop and `Stop` share; `None` is the zero time. */
  datatype Fields = Fields(conn: Option<Conn>, serverErr: bool, lastDisconnect: Option<Time>)

  const FRESH := Fields(None, false, None)

  datatype Result = AlreadyConnected | DialFailed | Cancelled | ServerError | BeingCut

  /** Why the loop gives up after a disconnect, if it does. */
  function GivesUp(f: Fields, now: Time): Option<Result> {
    if f.serverErr then Some(ServerError)
    else if f.lastDisconnect.Some? && now - f.lastDisconnect.value < FIVE_SECONDS then Some(BeingCut)
    else None
  }

  /** Five seconds are five thousand million nanoseconds; at that distance or more, and without a server error, the loop goes on. */
  lemma GivesUpExactly(f: Fields, now: Time)
    ensures GivesUp(f, now) == Some(ServerError) <==> f.serverErr
    ensures GivesUp(f, now) == Some(BeingCut) <==>
              !f.serverErr && f.lastDisconnect.Some? && now - f.lastDisconnect.value < 5_000_000_000
    ensures GivesUp(f, now) == None <==>
              !f.serverErr && (f.lastDisconnect == None || now - f.lastDisconnect.value >= 5_000_000_000)
  {
  }

  function Settled(f: Fields, now: Time): Fields {
    Fields(None, false, Some(now))
  }

  /** Consecutive disconnects at least five seconds apart. */
  ghost predicate Spaced(times: seq<Time>) {
    forall i :: 0 < i < |times| ==> times[i] - times[i - 1] >= 5_000_000_000
  }

  lemma {:induction false} SpacedApart(times: seq<Time>, i: nat, j: nat)
    requires Spaced(times) && i <= j < |times|
    ensures times[j] - times[i] >= 5_000_000_000 * (j - i)
    decreases j - i
  {
    if i < j {
      SpacedApart(times, i, j - 1);
    }
  }

  // ------------------------------------------------------------ one goroutine

  /** One round of the loop as the outside decides it. */
  datatype Round = Round(dialed: Option<Conn>, serverErr: bool, cancelled: bool, now: Time)

  /** What a round makes of the loop: the error it ends with, or `None` if it goes on. */
  function Verdict(f: Fields, round: Round): Option<Result> {
    if f.conn.Some? || round.dialed == None then
      Some(if round.cancelled then Cancelled else if f.conn.Some? then AlreadyConnected else DialFailed)
    else if round.cancelled then Some(Cancelled)
    else GivesUp(f.(serverErr := f.serverErr || round.serverErr), round.now)
  }

  /** The fields after the disconnects survived so far. */
  function Resumed(f: Fields, survived: seq<Time>): Fields {
    if survived == [] then f else Fields(None, false, Some(survived[|survived| - 1]))
  }

  /** The first |survived| rounds are survived, at these times. */
  ghost predicate Survives(f: Fields, rounds: seq<Round>, survived: seq<Time>) {
    && |survived| <= |rounds|
    && forall k :: 0 <= k < |survived| ==>
         survived[k] == rounds[k].now && Verdict(Resumed(f, survived[..k]), rounds[k]) == None
  }

  lemma SurvivesNone(f: Fields, rounds: seq<Round>)
    ensures Survives(f, rounds, [])
  {
  }

  lemma SurvivesSnoc(f: Fields, rounds: seq<Round>, survived: seq<Time>)
    requires Survives(f, rounds, survived) && |survived| < |rounds|
    requires Verdict(Resumed(f, survived), rounds[|survived|]) == None
    ensures Survives(f, rounds, survived + [rounds[|survived|].now])
  {
    hide Verdict, Resumed;
    var n := |survived|;
    var more := survived + [rounds[n].now];
    forall k | 0 <= k < |more| ensures more[k] == rounds[k].now && Verdict(Resumed(f, more[..k]), rounds[k]) == None {
      if k < n {
        assert more[..k] == survived[..k];
      } else {
        assert more[..k] == survived;
      }
    }
  }

  /**
   * The disconnects that a call of `Start` survives are five seconds apart, the
   * first one also from the last of an earlier call; and a client without a
   * connection is never told that it is already connected.
   */
  lemma StartSpaced(f: Fields, rounds: seq<Round>, survived: seq<Time>)
    requires Survives(f, rounds, survived)
    ensures Spaced(survived)
    ensures survived != [] && f.lastDisconnect.Some? ==> survived[0] - f.lastDisconnect.value >= 5_000_000_000
    ensures f.conn == None && |survived| < |rounds| ==>
              Verdict(Resumed(f, survived), rounds[|survived|]) != Some(AlreadyConnected)
  {
    forall k | 0 < k < |survived| ensures survived[k] - survived[k - 1] >= 5_000_000_000 {
      assert Verdict(Resumed(f, survived[..k]), rounds[k]) == None;
    }
    if survived != [] {
      assert Verdict(Resumed(f, survived[..0]), rounds[0]) == None;
    }
  }

  class Client {
    var conn: Option<Conn>
    var serverErr: bool
    var lastDisconnect: Option<Time>

    constructor ()
      ensures Contents() == FRESH
    {
      conn, serverErr, lastDisconnect := None, false, None;
    }

    function Contents(): Fields
      reads this
    {
      Fields(conn, serverErr, lastDisconnect)
    }

    /** `connect`; the dial's outcome is `dialed`. */
    method Connect(dialed: Option<Conn>) returns (error: Option<Result>)
      modifies this`conn
      ensures error == if old(conn).Some? then Some(AlreadyConnected) else if dialed == None then Some(DialFailed) else None
      ensures conn == if error == None then dialed else old(conn)
    {
      if conn.Some? {
        return Some(AlreadyConnected);
      }
      if dialed == None {
        return Some(DialFailed);
      }
      conn := dialed;
      return None;
    }

    method Stop()
      modifies this`conn
      ensures conn == None
    {
      conn := None;
    }

    /** The critical section after a disconnect. */
    method Settle(now: Time) returns (error: Option<Result>)
      modifies this
      ensures error == GivesUp(old(Contents()), now)
      ensures Contents() == Settled(old(Contents()), now)
    {
      error := None;
      if serverErr {
        error := Some(ServerError);
      }
      if error == None && lastDisconnect.Some? && now - lastDisconnect.value < FIVE_SECONDS {
        error := Some(BeingCut);
      }
      conn := None;
      serverErr := false;
      lastDisconnect := Some(now);
    }

    /**
     * `Start`, for as many rounds as are given. It survives a round exactly when
     * the round does not make it give up, and the first other one decides the result.
     */
    method Start(rounds: seq<Round>) returns (survived: seq<Time>, result: Option<Result>)
      modifies this
      ensures Survives(old(Contents()), rounds, survived)
      ensures if |survived| < |rounds|
              then result.Some? && result == Verdict(Resumed(old(Contents()), survived), rounds[|survived|])
              else result == None && Contents() == Resumed(old(Contents()), survived)
    {
      hide Survives;
      survived, result := [], None;
      SurvivesNone(Contents(), rounds);
      for i := 0 to |rounds|
        invariant |survived| == i && result == None
        invariant Survives(old(Contents()), rounds, survived)
        invariant Contents() == Resumed(old(Contents()), survived)
      {
        var round := rounds[i];
        var error := Connect(round.dialed);
        if error.Some? {
          result := Some(if round.cancelled then Cancelled else error.value);
          return;
        }
        serverErr := serverErr || round.serverErr;
        if round.cancelled {
          result := Some(Cancelled);
          return;
        }
        error := Settle(round.now);
        if error.Some? {
          result := error;
          return;
        }
        SurvivesSnoc(old(Contents()), rounds, survived);
        survived := survived + [round.now];
      }
    }
  }

  // -------------------------------------------------------- every interleaving

  /** Where `Start` is; while dialling it holds the client's mutex. */
  datatype Pc = Connecting | Dialling | Serving | Served | Settling | Returned(result: Result)

  /** A connection that was established, and whether cancellation came first. */
  datatype Link = Link(conn: Conn, late: bool)

  /**
   * `established` records the connections, `closed` those that are closed, and
   * `survived` the times of the disconnects after which the loop went on.
   */
  datatype State = State(
    fields: Fields,
    pc: Pc,
    cancelled: bool,
    watching: bool,
    established: seq<Link>,
    closed: set<Conn>,
    survived: seq<Time>)

  const INITIAL := State(FRESH, Connecting, false, true, [], {}, [])

  datatype Step =
    | Connect
    | Dialled(conn: Option<Conn>)
    | ServeEnds
    | HandshakeError
    | CheckContext
    | Settle(now: Time)
    | Cancel
    | WatcherStops
    | Stop

  /** Nobody holds the mutex between steps except a dial in progress. */
  predicate Free(s: State) { s.pc != Dialling }

  predicate Enabled(s: State, step: Step) {
    match step
    case Connect => s.pc == Connecting
    case Dialled(conn) => s.pc == Dialling && (conn.Some? ==> NeverSeen(s.established, conn.value))
    case ServeEnds => s.pc == Serving
    case HandshakeError => Free(s)
    case CheckContext => s.pc == Served
    case Settle(_) => s.pc == Settling
    case Cancel => true
    case WatcherStops => s.cancelled && s.watching && Free(s)
    case Stop => Free(s)
  }

  /** A dial yields a connection of its own. */
  predicate NeverSeen(established: seq<Link>, c: Conn) {
    forall k :: 0 <= k < |established| ==> established[k].conn != c
  }

  /** The connection that is being served. */
  function Latest(established: seq<Link>): set<Conn> {
    if established == [] then {} else {established[|established| - 1].conn}
  }

  /** `Stop`, also as the watcher calls it: the connection on record is closed and forgotten. */
  function Stopped(s: State): State {
    s.(fields := s.fields.(conn := None),
       closed := s.closed + (if s.fields.conn.Some? then {s.fields.conn.value} else {}))
  }

  /** An error of `connect` is reported as the context's if that is done. */
  function Failing(s: State, result: Result): State {
    s.(pc := Returned(if s.cancelled then Cancelled else result))
  }

  function Next(s: State, step: Step): State
    requires Enabled(s, step)
  {
    match step
    case Connect => if s.fields.conn.Some? then Failing(s, AlreadyConnected) else s.(pc := Dialling)
    case Dialled(conn) =>
      if conn == None then Failing(s, DialFailed)
      else s.(fields := s.fields.(conn := conn), pc := Serving, 
              established := s.established + [Link(conn.value, s.cancelled)])
    case ServeEnds => s.(pc := Served, closed := s.closed + Latest(s.established))
    case HandshakeError => s.(fields := s.fields.(serverErr := true))
    case CheckContext => if s.cancelled then s.(pc := Returned(Cancelled)) else s.(pc := Settling)
    case Settle(now) =>
      var error := GivesUp(s.fields, now);
      var t := s.(fields := Settled(s.fields, now));
      if error.Some? then t.(pc := Returned(error.value))
      else t.(pc := Connecting, survived := s.survived + [now])
    case Cancel => s.(cancelled := true)
    case WatcherStops => Stopped(s).(watching := false)
    case Stop => Stopped(s)
  }

  ghost predicate Runs(s: State, steps: seq<Step>)
    decreases |steps|
  {
    steps == [] || (Enabled(s, steps[0]) && Runs(Next(s, steps[0]), steps[1..]))
  }

  ghost function After(s: State, steps: seq<Step>): State
    requires Runs(s, steps)
    decreases |steps|
  {
    if steps == [] then s else After(Next(s, steps[0]), steps[1..])
  }

  function Late(established: seq<Link>): nat {
    if established == [] then 0
    else Late(established[..|established| - 1]) + (if established[|established| - 1].late then 1 else 0)
  }

  /** Connection `k` is the one being served: the latest, and on record until `Stop`. */
  predicate IsServed(s: State, k: nat)
    requires k < |s.established|
  {
    s.pc.Serving? && k == |s.established| - 1 && s.fields.conn == Some(s.established[k].conn)
  }

  ghost predicate Inv(s: State) {
    && (s.pc.Connecting? || s.pc.Dialling? ==> s.fields.conn == None)
    && s.pc != Returned(AlreadyConnected)
    && (!s.cancelled ==> Late(s.established) == 0)
    && Late(s.established) <= 1
    && (Late(s.established) == 1 ==> s.pc.Serving? || s.pc.Served? || s.pc.Returned?)
    && (!s.watching ==> s.cancelled)
    && (!s.watching && s.fields.conn.Some? ==> s.established != [] && s.established[|s.established| - 1].late)
    && (forall k :: 0 <= k < |s.established| ==> s.established[k].conn in s.closed || IsServed(s, k))
    && Spaced(s.survived)
    && (!s.pc.Returned? && s.survived != [] ==> s.fields.lastDisconnect == Some(s.survived[|s.survived| - 1]))
  }

  lemma SpacedSnoc(times: seq<Time>, now: Time)
    requires Spaced(times) && (times != [] ==> now - times[|times| - 1] >= 5_000_000_000)
    ensures Spaced(times + [now])
  {
  }

  lemma LateSnoc(established: seq<Link>, link: Link)
    ensures Late(established + [link]) == Late(established) + (if link.late then 1 else 0)
  {
    assert (established + [link])[..|established|] == established;
  }

  lemma StepInv(s: State, step: Step)
    requires Inv(s) && Enabled(s, step)
    ensures Inv(Next(s, step))
  {
    hide Spaced, Late;
    if step.Dialled? && step.conn.Some? {
      LateSnoc(s.established, Link(step.conn.value, s.cancelled));
    } else if step.Settle? && GivesUp(s.fields, step.now) == None {
      SpacedSnoc(s.survived, step.now);
    }
  }

  lemma {:induction false} RunInv(s: State, steps: seq<Step>)
    requires Inv(s) && Runs(s, steps)
    ensures Inv(After(s, steps))
    decreases |steps|
  {
    if steps != [] {
      StepInv(s, steps[0]);
      RunInv(Next(s, steps[0]), steps[1..]);
    }
  }

  /**
   * Over every interleaving of `Start` with `Stop`, server errors and
   * cancellation: at most one connection is established after cancellation, and
   * "already connected" is never returned.
   */
  lemma Cancellation(steps: seq<Step>)
    requires Runs(INITIAL, steps)
    ensures Late(After(INITIAL, steps).established) <= 1
    ensures After(INITIAL, steps).pc != Returned(AlreadyConnected)
  {
    RunInv(INITIAL, steps);
  }

  /**
   * Once the watcher has closed what it found, every connection ever established
   * is closed, except a late one that is still being served.
   */
  lemma OnlyLateIsLeft(steps: seq<Step>, k: nat)
    requires Runs(INITIAL, steps) && k < |After(INITIAL, steps).established|
    requires !After(INITIAL, steps).watching
    ensures var s := After(INITIAL, steps);
            s.established[k].conn !in s.closed ==> s.pc.Serving? && k == |s.established| - 1 && s.established[k].late
  {
    RunInv(INITIAL, steps);
  }

  // -------------------------------------------- what cancellation still allows

  /** The loop has passed the check of the context since its last connection, and nothing on record makes it give up. */
  predicate MayConnect(s: State) {
    s.pc.Connecting? || s.pc.Dialling? || (s.pc.Settling? && !s.fields.serverErr)
  }

  /** From `s` on, some run establishes a connection after cancellation. */
  ghost predicate ConnectsLate(s: State) {
    exists steps :: Runs(s, steps) && Late(After(s, steps).established) > 0
  }

  /** A cancelled loop that may no longer connect establishes nothing, in any run. */
  lemma {:induction false} NeverConnects(s: State, steps: seq<Step>)
    requires s.cancelled && !MayConnect(s) && Runs(s, steps)
    ensures After(s, steps).established == s.established
    decreases |steps|
  {
    if steps != [] {
      NeverConnects(Next(s, steps[0]), steps[1..]);
    }
  }

  lemma StepConnects(s: State, step: Step)
    requires Enabled(s, step) && ConnectsLate(Next(s, step))
    ensures ConnectsLate(s)
  {
    var steps :| Runs(Next(s, step), steps) && Late(After(Next(s, step), steps).established) > 0;
    Prepend(s, step, steps);
  }

  function Unused(established: seq<Link>): (c: Conn)
    ensures forall k :: 0 <= k < |established| ==> established[k].conn < c
  {
    if established == [] then 0
    else
      var c, last := Unused(established[..|established| - 1]), established[|established| - 1].conn;
      if last < c then c else last + 1
  }

  lemma DialConnects(s: State)
    requires s.cancelled && s.pc.Dialling?
    ensures ConnectsLate(s)
  {
    var step := Dialled(Some(Unused(s.established)));
    var n := Next(s, step);
    LateSnoc(s.established, Link(step.conn.value, true));
    assert Runs(n, []) && After(n, []) == n;
    StepConnects(s, step);
  }

  lemma LoopConnects(s: State)
    requires s.cancelled && MayConnect(s) && (s.pc.Connecting? ==> s.fields.conn == None)
    ensures ConnectsLate(s)
  {
    hide ConnectsLate;
    if s.pc.Dialling? {
      DialConnects(s);
    } else if s.pc.Connecting? {
      DialConnects(Next(s, Connect));
      StepConnects(s, Connect);
    } else {
      var step := Settle(if s.fields.lastDisconnect.Some? then s.fields.lastDisconnect.value + FIVE_SECONDS else 0);
      var n := Next(s, step);
      DialConnects(Next(n, Connect));
      StepConnects(n, Connect);
      StepConnects(s, step);
    }
  }

  /** Wherever the context is cancelled, some run connects after that if and only if the loop may still connect. */
  lemma LateFrom(s: State)
    requires Inv(s) && !s.cancelled
    ensures ConnectsLate(Next(s, Cancel)) <==> MayConnect(s)
  {
    var n := Next(s, Cancel);
    if MayConnect(s) {
      LoopConnects(n);
    } else if later :| Runs(n, later) && Late(After(n, later).established) > 0 {
      NeverConnects(n, later);
      assert false;
    }
  }

  /**
   * Exactly when a connection can be established after cancellation: in whatever
   * reachable state the context is cancelled, some run does so if and only if the
   * loop is dialling, about to dial, or past the check of the context with no
   * server error on record.
   */
  lemma LateExactly(steps: seq<Step>)
    requires Runs(INITIAL, steps) && !After(INITIAL, steps).cancelled
    ensures ConnectsLate(Next(After(INITIAL, steps), Cancel)) <==> MayConnect(After(INITIAL, steps))
  {
    RunInv(INITIAL, steps);
    LateFrom(After(INITIAL, steps));
  }

  lemma Prepend(s: State, step: Step, steps: seq<Step>)
    requires Enabled(s, step) && Runs(Next(s, step), steps)
    ensures Runs(s, [step] + steps) && After(s, [step] + steps) == After(Next(s, step), steps)
  {
    assert ([step] + steps)[1..] == steps;
  }

  /**
   * The bound of one is met, and worse: `Start` does not look at the context
   * before it connects, so when the watcher is done by then nobody closes the
   * connection.
   */
  lemma LateConnection(c: Conn)
    ensures var steps := [Cancel] + ([WatcherStops] + ([Connect] + ([Dialled(Some(c))] + [])));
            Runs(INITIAL, steps) && var s := After(INITIAL, steps);
            s.established == [Link(c, true)] && s.pc == Serving && c !in s.closed && !s.watching
  {
    var s1 := Next(INITIAL, Cancel);
    var s2 := Next(s1, WatcherStops);
    var s3 := Next(s2, Connect);
    Prepend(s3, Dialled(Some(c)), []);
    Prepend(s2, Connect, [Dialled(Some(c))] + []);
    Prepend(s1, WatcherStops, [Connect] + ([Dialled(Some(c))] + []));
    Prepend(INITIAL, Cancel, [WatcherStops] + ([Connect] + ([Dialled(Some(c))] + [])));
  }

  /**
   * The rate: any two disconnects that the loop survived lie five seconds apart
   * for each one between them, so of those within a window of `window`
   * nanoseconds there are at most one more than fit at that pace.
   */
  lemma ReconnectRate(steps: seq<Step>, i: nat, j: nat, window: nat)
    requires Runs(INITIAL, steps) && i <= j < |After(INITIAL, steps).survived|
    ensures var t := After(INITIAL, steps).survived;
            && t[j] - t[i] >= 5_000_000_000 * (j - i)
            && (t[j] - t[i] <= window ==> j - i + 1 <= window / 5_000_000_000 + 1)
  {
    RunInv(INITIAL, steps);
    SpacedApart(After(INITIAL, steps).survived, i, j);
  }

  // --------------------------------------- what the steps of the machine amount to

  /** Everything that uses the client's mutex waits for a dial in progress; `Stop`, the watcher and server errors never wait otherwise. */
  lemma WhoWaits(s: State)
    ensures Enabled(s, Stop) <==> !s.pc.Dialling?
    ensures Enabled(s, HandshakeError) <==> !s.pc.Dialling?
    ensures Enabled(s, WatcherStops) <==> s.cancelled && s.watching && !s.pc.Dialling?
    ensures Enabled(s, Cancel)
  {
  }

  /** `Stop` closes the connection on record and forgets it, and does nothing else. */
  lemma StopCloses(s: State)
    requires Enabled(s, Stop)
    ensures var n := Next(s, Stop);
            && n.fields == s.fields.(conn := None)
            && (forall c :: c in n.closed <==> c in s.closed || s.fields.conn == Some(c))
            && n == s.(fields := n.fields, closed := n.closed)
    ensures Enabled(s, WatcherStops) ==> Next(s, WatcherStops) == Next(s, Stop).(watching := false)
  {
  }

  /** One round of `Start` by the steps of the machine, as the outside decides it, up to where it stops. */
  function AfterRound(s: State, round: Round): State
    requires s.pc.Connecting? && (round.dialed.Some? ==> NeverSeen(s.established, round.dialed.value))
  {
    var s := if round.cancelled then Next(s, Cancel) else s;
    var dialling := Next(s, Connect);
    if dialling.pc.Returned? then dialling
    else
      var connected := Next(dialling, Dialled(round.dialed));
      if connected.pc.Returned? then connected else AfterServing(connected, round)
  }

  function AfterServing(s: State, round: Round): State
    requires s.pc.Serving?
  {
    var s := if round.serverErr then Next(s, HandshakeError) else s;
    var checked := Next(Next(s, ServeEnds), CheckContext);
    if checked.pc.Returned? then checked else Next(checked, Settle(round.now))
  }

  /**
   * The machine runs the loop: a round by its steps ends with the very result
   * that `Start` gives, or goes on with the fields that `Start` leaves.
   */
  lemma RoundByRound(s: State, round: Round)
    requires s.pc.Connecting? && (round.dialed.Some? ==> NeverSeen(s.established, round.dialed.value))
    requires s.cancelled ==> round.cancelled
    ensures var n := AfterRound(s, round);
            match Verdict(s.fields, round)
            case Some(result) => n.pc == Returned(result)
            case None => n.pc == Connecting && n.fields == Settled(s.fields, round.now) && n.survived == s.survived + [round.now]
  {
  }
}
