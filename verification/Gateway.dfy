/**
  internal/ftpserver/gateway.go: admission, sessions, lazy SFTP connections and shutdown of all FTP
  connections at once, one atomic operation at a time.  The callbacks of one connection run one after
  the other; those of different connections interleave freely.
 */
module Gateway {
  import opened Wrappers
  import opened Counting
  import Sessions

  /** How far the callbacks of a connection have got. */
  datatype Pc =
    | Arrived                    // ClientConnected called
    | Cleared                    // past the shutdown flag
    | Numbered(active: int)      // activeConnections incremented, to this value
    | Admitted                   // connState stored, gauge incremented
    | Serving                    // registered in conns; ClientConnected has returned
    | Unlisted                   // ClientDisconnected has removed it from conns
    | Uncounted                  // and decremented activeConnections
    | Ungauged                   // and the gauge
    | Dropped                    // and closed its session
    | Gone                       // all done, or rejected

  /** connState.sess, with the index of the SFTP client the session holds. */
  datatype Sess = NoSession | Session(client: Option<nat>)

  datatype Conn = Conn(pc: Pc, sess: Sess)

  /** activeConnections, FTPConnectionsActive, SFTPConnectionsActive and the session wait group. */
  datatype Tally = Tally(active: int, connections: int, sftp: int, sessions: int)

  /** A dialled client: its connection, and how often it was closed. */
  datatype Client = Client(owner: nat, closes: nat)

  /** `lost` are sessions that a second login of the same connection has overwritten. */
  datatype State = State(max: nat, shutting: bool, n: Tally, listed: set<nat>, conns: seq<Conn>,
                         lost: seq<Option<nat>>, clients: seq<Client>)

  datatype Event =
    | Arrive
    | Step(i: nat)           // the next operation of ClientConnected or ClientDisconnected
    | Login(i: nat)          // AuthUser with valid credentials
    | Dial(i: nat)           // SFTP() finds no client and the connector succeeds
    | Invalidate(i: nat)     // maybeInvalidate after a connection error
    | Disconnect(i: nat)     // ClientDisconnected called
    | Shutdown

  predicate Enabled(s: State, e: Event) {
    match e
    case Arrive => true
    case Shutdown => true
    case Step(i) => i < |s.conns| && !s.conns[i].pc.Serving? && !s.conns[i].pc.Gone?
    case Login(i) => i < |s.conns| && s.conns[i].pc.Serving?
    case Dial(i) => i < |s.conns| && s.conns[i].pc.Serving? && s.conns[i].sess == Session(None)
    case Invalidate(i) =>
      i < |s.conns| && s.conns[i].pc.Serving? && s.conns[i].sess.Session? && s.conns[i].sess.client.Some?
      && s.conns[i].sess.client.value < |s.clients|
    case Disconnect(i) => i < |s.conns| && s.conns[i].pc.Serving?
  }

  function Closed(clients: seq<Client>, c: Option<nat>): seq<Client> {
    if c.Some? && c.value < |clients| then clients[c.value := clients[c.value].(closes := clients[c.value].closes + 1)]
    else clients
  }

  function One(b: bool): int {
    if b then 1 else 0
  }

  /** What the next operation leaves of the connection. */
  function Moved(s: State, c: Conn): Conn {
    match c.pc
    case Arrived => c.(pc := if s.shutting then Gone else Cleared)
    case Cleared => c.(pc := Numbered(s.n.active + 1))
    case Numbered(a) => c.(pc := if a > s.max then Gone else Admitted)
    case Admitted => c.(pc := Serving)
    case Serving => c
    case Unlisted => c.(pc := Uncounted)
    case Uncounted => c.(pc := Ungauged)
    case Ungauged => if c.sess.NoSession? then c.(pc := Gone) else Conn(Dropped, Session(None))
    case Dropped => Conn(Gone, NoSession)
    case Gone => c
  }

  function Tallied(s: State, c: Conn): Tally {
    match c.pc
    case Cleared => s.n.(active := s.n.active + 1)
    case Numbered(a) => if a > s.max then s.n.(active := s.n.active - 1) else s.n.(connections := s.n.connections + 1)
    case Unlisted => s.n.(active := s.n.active - 1)
    case Uncounted => s.n.(connections := s.n.connections - 1)
    case Ungauged => s.n.(sftp := s.n.sftp - One(c.sess.Session? && c.sess.client.Some?))
    case Dropped => s.n.(sessions := s.n.sessions - 1)
    case _ => s.n
  }

  /** An event that is not enabled does nothing. */
  function Apply(s: State, e: Event): State {
    if !Enabled(s, e) then s
    else match e
      case Arrive => s.(conns := s.conns + [Conn(Arrived, NoSession)])
      case Shutdown => s.(shutting := true)
      case Step(i) =>
        var c := s.conns[i];
        s.(n := Tallied(s, c), conns := s.conns[i := Moved(s, c)],
           listed := if c.pc.Admitted? then s.listed + {i} else s.listed,
           clients := if c.pc.Ungauged? && c.sess.Session? then Closed(s.clients, c.sess.client) else s.clients)
      case Login(i) =>
        var c := s.conns[i];
        s.(n := s.n.(sessions := s.n.sessions + 1), conns := s.conns[i := c.(sess := Session(None))],
           lost := if c.sess.Session? then s.lost + [c.sess.client] else s.lost)
      case Dial(i) =>
        s.(n := s.n.(sftp := s.n.sftp + 1), conns := s.conns[i := s.conns[i].(sess := Session(Some(|s.clients|)))],
           clients := s.clients + [Client(i, 0)])
      case Invalidate(i) =>
        s.(n := s.n.(sftp := s.n.sftp - 1), conns := s.conns[i := s.conns[i].(sess := Session(None))],
           clients := Closed(s.clients, s.conns[i].sess.client))
      case Disconnect(i) =>
        s.(listed := s.listed - {i}, conns := s.conns[i := s.conns[i].(pc := Unlisted)])
  }

  function Run(s: State, events: seq<Event>): State
    decreases |events|
  {
    if events == [] then s else Run(Apply(s, events[0]), events[1..])
  }

  function Fresh(max: nat): State {
    State(max, false, Tally(0, 0, 0, 0), {}, [], [], [])
  }

  // ---------------------------------------------------------------- the gateway object

  class Gateway {
    const max: nat
    var shuttingDown: bool
    var activeConnections: int
    var connectionsGauge: int
    var sftpGauge: int
    var sessions: int            // the wait group
    var registered: set<nat>     // the keys of conns
    var conns: seq<Conn>         // every connection so far, with its connState
    ghost var lost: seq<Option<nat>>
    ghost var clients: seq<Client>

    constructor (max: nat)
      ensures View() == Fresh(max)
    {
      this.max, shuttingDown := max, false;
      activeConnections, connectionsGauge, sftpGauge, sessions := 0, 0, 0, 0;
      registered, conns, lost, clients := {}, [], [], [];
    }

    ghost function View(): State
      reads this
    {
      State(max, shuttingDown, Tally(activeConnections, connectionsGauge, sftpGauge, sessions),
            registered, conns, lost, clients)
    }

    /** Without interference, ClientConnected is its five steps, and admits exactly below the limit. */
    method ClientConnected() returns (id: nat, ok: bool)
      modifies this
      ensures id == |old(conns)| && ok == (!old(shuttingDown) && old(activeConnections) < max)
      ensures View() == Run(old(View()), [Arrive, Step(id), Step(id), Step(id), Step(id)])
      ensures conns == old(conns) + [Conn(if ok then Serving else Gone, NoSession)]
      ensures registered == old(registered) + (if ok then {id} else {})
      ensures activeConnections == old(activeConnections) + (if ok then 1 else 0)
      ensures connectionsGauge == old(connectionsGauge) + (if ok then 1 else 0)
    {
      id := |conns|;
      RunFive(View(), Arrive, Step(id), Step(id), Step(id), Step(id));
      ArriveAlone(Apply(View(), Arrive), id);
      if shuttingDown {
        conns := conns + [Conn(Gone, NoSession)];
        return id, false;
      }
      activeConnections := activeConnections + 1;
      var active := activeConnections;
      if active > max {
        activeConnections := activeConnections - 1;
        conns := conns + [Conn(Gone, NoSession)];
        return id, false;
      }
      connectionsGauge := connectionsGauge + 1;
      registered := registered + {id};
      conns := conns + [Conn(Serving, NoSession)];
      return id, true;
    }

    /** `authentic` is the verdict of Authenticate, `configured` whether the user has a runtime configuration. */
    method AuthUser(id: nat, authentic: bool, configured: bool) returns (ok: bool)
      requires id < |conns| && conns[id].pc.Serving?
      modifies this
      ensures ok == (authentic && configured)
      ensures View() == if ok then Apply(old(View()), Login(id)) else old(View())
      ensures conns == if ok then old(conns)[id := Conn(Serving, Session(None))] else old(conns)
      ensures sessions == old(sessions) + (if ok then 1 else 0)
    {
      if !authentic || !configured {
        return false;
      }
      if conns[id].sess.Session? {
        lost := lost + [conns[id].sess.client];
      }
      conns := conns[id := conns[id].(sess := Session(None))];
      sessions := sessions + 1;
      return true;
    }

    /** `sess` is the session object of connection `id`, and what its connState shows. */
    ghost predicate Shows(id: nat, sess: Sessions.Session)
      reads this, sess
    {
      && id < |conns| && conns[id] == Conn(Serving, Session(sess.sftp)) && !sess.closed && sess.Valid()
      && (forall k :: k in sess.dialled ==> k < |clients|)
    }

    /** The SFTP connection of a command, with the connector's metric; `client` is what a successful dial returns. */
    method Connect(id: nat, sess: Sessions.Session, client: nat, reachable: bool) returns (r: Option<nat>)
      requires Shows(id, sess) && client == |clients|
      modifies this, sess
      ensures Shows(id, sess) && r == sess.sftp && (reachable ==> r.Some?)
      ensures View() == if reachable then Apply(old(View()), Dial(id)) else old(View())
      ensures sftpGauge == old(sftpGauge) + (if reachable && old(sess.sftp).None? then 1 else 0)
    {
      var connected := sess.IsConnected();
      r := sess.SFTP(if reachable then Some(client) else None);
      if !connected && r.Some? {
        sftpGauge := sftpGauge + 1;
        conns := conns[id := conns[id].(sess := Session(r))];
        clients := clients + [Client(id, 0)];
      }
    }

    /** maybeInvalidate; `broken` says that the error is one of the connection. */
    method MaybeInvalidate(id: nat, sess: Sessions.Session, broken: bool)
      requires Shows(id, sess)
      modifies this, sess
      ensures Shows(id, sess) && (broken ==> sess.sftp.None?)
      ensures View() == if broken then Apply(old(View()), Invalidate(id)) else old(View())
      ensures sftpGauge == old(sftpGauge) - (if broken && old(sess.sftp).Some? then 1 else 0)
    {
      var connected := sess.IsConnected();
      if broken && connected {
        assert sess.sftp.value in sess.dialled;
        clients := Closed(clients, sess.sftp);
        sess.InvalidateSFTP();
        sftpGauge := sftpGauge - 1;
        conns := conns[id := conns[id].(sess := Session(None))];
      }
    }

    /** Called for every connection, admitted or not; it undoes what was counted. */
    method ClientDisconnected(id: nat)
      requires id < |conns| && (conns[id].pc.Serving? || conns[id].pc.Gone?)
      modifies this
      ensures View() == Run(old(View()), [Disconnect(id), Step(id), Step(id), Step(id), Step(id)])
      ensures |conns| == |old(conns)| && conns[id].pc.Gone?
      ensures var was := old(conns)[id];
        && activeConnections == old(activeConnections) - (if was.pc.Serving? then 1 else 0)
        && connectionsGauge == old(connectionsGauge) - (if was.pc.Serving? then 1 else 0)
        && sessions == old(sessions) - (if was.pc.Serving? && was.sess.Session? then 1 else 0)
        && sftpGauge == old(sftpGauge)
             - (if was.pc.Serving? && was.sess.Session? && was.sess.client.Some? then 1 else 0)
        && registered == (if was.pc.Serving? then old(registered) - {id} else old(registered))
    {
      RunFive(View(), Disconnect(id), Step(id), Step(id), Step(id), Step(id));
      if conns[id].pc.Gone? {
        StepGone(View(), id);
        return;
      }
      LeaveAlone(Apply(View(), Disconnect(id)), id);
      registered := registered - {id};
      activeConnections := activeConnections - 1;
      connectionsGauge := connectionsGauge - 1;
      var sess := conns[id].sess;
      if sess.Session? {
        if sess.client.Some? {
          clients := Closed(clients, sess.client);
          sftpGauge := sftpGauge - 1;
        }
        sessions := sessions - 1;
      }
      conns := conns[id := Conn(Gone, NoSession)];
    }

    /** From now on ClientConnected refuses. */
    method PrepareShutdown()
      modifies this`shuttingDown
      ensures shuttingDown
      ensures View() == Apply(old(View()), Shutdown)
    {
      shuttingDown := true;
    }

    /** Closes every registered connection, once each. */
    method CloseAllConnections() returns (closed: seq<nat>)
      ensures forall id :: id in closed <==> id in registered
      ensures |closed| == |registered|
    {
      closed := [];
      var left := registered;
      while left != {}
        invariant left <= registered && |closed| + |left| == |registered|
        invariant forall id :: id in closed <==> id in registered - left
        decreases |left|
      {
        var id :| id in left;
        closed := closed + [id];
        left := left - {id};
      }
    }
  }

  function With(s: State, i: nat, c: Conn): State
    requires i < |s.conns|
  {
    s.(conns := s.conns[i := c])
  }

  /** The result of one step when connection i is at `c` and everything else is as in `s`. */
  lemma StepWith(s: State, i: nat, c: Conn)
    requires i < |s.conns| && !c.pc.Serving? && !c.pc.Gone?
    ensures Apply(With(s, i, c), Step(i)) ==
      With(s, i, Moved(s, c)).(n := Tallied(s, c),
        listed := if c.pc.Admitted? then s.listed + {i} else s.listed,
        clients := if c.pc.Ungauged? && c.sess.Session? then Closed(s.clients, c.sess.client) else s.clients)
  {
    assert s.conns[i := c][i := Moved(s, c)] == s.conns[i := Moved(s, c)];
  }

  lemma StepGone(s: State, i: nat)
    requires i < |s.conns| && s.conns[i].pc.Gone?
    ensures Apply(s, Step(i)) == s && Apply(s, Disconnect(i)) == s
  {
  }

  /** ClientConnected without interference: `s` already lists the connection as arrived. */
  lemma ArriveAlone(s: State, i: nat)
    requires i < |s.conns| && s.conns[i] == Conn(Arrived, NoSession)
    ensures Apply(Apply(Apply(Apply(s, Step(i)), Step(i)), Step(i)), Step(i)) ==
      if s.shutting || s.n.active >= s.max then With(s, i, Conn(Gone, NoSession))
      else With(s, i, Conn(Serving, NoSession)).(
        n := s.n.(active := s.n.active + 1, connections := s.n.connections + 1), listed := s.listed + {i})
  {
    assert With(s, i, s.conns[i]) == s;
    StepWith(s, i, s.conns[i]);
    var gone := With(s, i, Conn(Gone, NoSession));
    if s.shutting {
      StepGone(gone, i);
    } else {
      StepWith(s, i, Conn(Cleared, NoSession));
      var s2 := s.(n := s.n.(active := s.n.active + 1));
      StepWith(s2, i, Conn(Numbered(s.n.active + 1), NoSession));
      if s.n.active >= s.max {
        StepGone(gone, i);
      } else {
        StepWith(s2.(n := s2.n.(connections := s.n.connections + 1)), i, Conn(Admitted, NoSession));
      }
    }
  }

  /** The two counters that a leaving connection gives back first. */
  lemma LeaveCounters(s: State, i: nat)
    requires i < |s.conns| && s.conns[i].pc.Unlisted?
    ensures Apply(Apply(s, Step(i)), Step(i)) ==
      With(s, i, Conn(Ungauged, s.conns[i].sess)).(
        n := s.n.(active := s.n.active - 1, connections := s.n.connections - 1))
  {
    var sess := s.conns[i].sess;
    assert With(s, i, s.conns[i]) == s;
    StepWith(s, i, s.conns[i]);
    StepWith(s.(n := s.n.(active := s.n.active - 1)), i, Conn(Uncounted, sess));
  }

  /** Then its session. */
  lemma LeaveSession(s: State, i: nat, sess: Sess)
    requires i < |s.conns|
    ensures var held := sess.Session? && sess.client.Some?;
      Apply(Apply(With(s, i, Conn(Ungauged, sess)), Step(i)), Step(i)) ==
        With(s, i, Conn(Gone, NoSession)).(
          n := s.n.(sftp := s.n.sftp - One(held), sessions := s.n.sessions - One(sess.Session?)),
          clients := if held then Closed(s.clients, sess.client) else s.clients)
  {
    StepWith(s, i, Conn(Ungauged, sess));
    if sess.Session? {
      var s' := s.(n := Tallied(s, Conn(Ungauged, sess)), clients := Closed(s.clients, sess.client));
      StepWith(s', i, Conn(Dropped, Session(None)));
    } else {
      StepGone(With(s, i, Conn(Gone, NoSession)), i);
    }
  }

  /** ClientDisconnected without interference. */
  lemma LeaveAlone(s: State, i: nat)
    requires i < |s.conns| && s.conns[i].pc.Unlisted?
    ensures var sess := s.conns[i].sess;
      var held := sess.Session? && sess.client.Some?;
      Apply(Apply(Apply(Apply(s, Step(i)), Step(i)), Step(i)), Step(i)) ==
        With(s, i, Conn(Gone, NoSession)).(
          n := Tally(s.n.active - 1, s.n.connections - 1, s.n.sftp - One(held), s.n.sessions - One(sess.Session?)),
          clients := if held then Closed(s.clients, sess.client) else s.clients)
  {
    LeaveCounters(s, i);
    LeaveSession(s.(n := s.n.(active := s.n.active - 1, connections := s.n.connections - 1)), i, s.conns[i].sess);
  }

  lemma RunFive(s: State, a: Event, b: Event, c: Event, d: Event, e: Event)
    ensures Run(s, [a, b, c, d, e]) == Apply(Apply(Apply(Apply(Apply(s, a), b), c), d), e)
  {
    RunCons(s, a, [b, c, d, e]);
    var s1 := Apply(s, a);
    RunCons(s1, b, [c, d, e]);
    RunCons(Apply(s1, b), c, [d, e]);
    var s3 := Apply(Apply(s1, b), c);
    RunCons(s3, d, [e]);
    RunCons(Apply(s3, d), e, []);
  }

  lemma RunCons(s: State, e: Event, rest: seq<Event>)
    ensures Run(s, [e] + rest) == Run(Apply(s, e), rest)
  {
    assert ([e] + rest)[1..] == rest;
  }

  // ---------------------------------------------------------------- what is counted

  /** Included in activeConnections. */
  function Reserved(): Conn -> bool {
    (c: Conn) => c.pc.Numbered? || c.pc.Admitted? || c.pc.Serving? || c.pc.Unlisted?
  }

  /** Admitted, or sure to be. */
  function Accepted(max: nat): Conn -> bool {
    (c: Conn) => (c.pc.Numbered? && c.pc.active <= max) || c.pc.Admitted? || c.pc.Serving? || c.pc.Unlisted?
  }

  /** An admitted connection whose slot is still taken. */
  function Alive(): Conn -> bool {
    (c: Conn) => c.pc.Admitted? || c.pc.Serving? || c.pc.Unlisted?
  }

  function Gauged(): Conn -> bool {
    (c: Conn) => c.pc.Admitted? || c.pc.Serving? || c.pc.Unlisted? || c.pc.Uncounted?
  }

  function HasSession(): Conn -> bool {
    (c: Conn) => c.sess.Session?
  }

  function Connected(): Conn -> bool {
    (c: Conn) => c.sess.Session? && c.sess.client.Some?
  }

  function IsSome(): Option<nat> -> bool {
    (c: Option<nat>) => c.Some?
  }

  // ---------------------------------------------------------------- the invariant

  ghost predicate TallyOk(s: State) {
    && s.n.active == Count(s.conns, Reserved())
    && s.n.connections == Count(s.conns, Gauged())
    && s.n.sessions == Count(s.conns, HasSession()) + |s.lost|
    && s.n.sftp == Count(s.conns, Connected()) + Count(s.lost, IsSome())
  }

  ghost predicate CountsOk(s: State) {
    TallyOk(s) && Count(s.conns, Accepted(s.max)) <= s.max
  }

  predicate ConnOk(c: Conn) {
    && (c.sess.Session? ==> c.pc.Serving? || c.pc.Unlisted? || c.pc.Uncounted? || c.pc.Ungauged? || c.pc.Dropped?)
    && (c.pc.Dropped? ==> c.sess == Session(None))
  }

  ghost predicate ListOk(s: State) {
    && (forall c :: c in s.conns ==> ConnOk(c))
    && (forall i: nat :: i in s.listed <==> i < |s.conns| && s.conns[i].pc.Serving?)
  }

  predicate HeldBy(c: Conn, client: nat) {
    c.sess == Session(Some(client))
  }

  /** A session only holds an open client of its own. */
  ghost predicate HoldersOk(s: State) {
    forall i: nat, k: nat :: i < |s.conns| && HeldBy(s.conns[i], k) ==> OwnsOpen(s, i, k)
  }

  predicate OwnsOpen(s: State, i: nat, k: nat) {
    k < |s.clients| && s.clients[k] == Client(i, 0)
  }

  /** A client is closed at most once, and an open one is held by its own connection or by a lost session. */
  predicate ClientOk(s: State, k: nat)
    requires k < |s.clients|
  {
    var c := s.clients[k];
    c.owner < |s.conns| && c.closes <= 1 && (c.closes == 0 ==> HeldBy(s.conns[c.owner], k) || Some(k) in s.lost)
  }

  /** A lost session's client stays open, and is nobody else's. */
  ghost predicate LostOk(s: State) {
    forall k: nat :: Some(k) in s.lost ==> StaysOpen(s, k)
  }

  predicate StaysOpen(s: State, k: nat) {
    && k < |s.clients| && s.clients[k].closes == 0
    && s.clients[k].owner < |s.conns| && !HeldBy(s.conns[s.clients[k].owner], k)
  }

  ghost predicate ClientsOk(s: State) {
    HoldersOk(s) && (forall k: nat :: k < |s.clients| ==> ClientOk(s, k)) && LostOk(s)
  }

  ghost predicate Inv(s: State) {
    CountsOk(s) && ListOk(s) && ClientsOk(s)
  }

  // ---------------------------------------------------------------- every operation keeps it

  /** The counts after replacing one connection. */
  lemma Recount(s: State, i: nat, c': Conn)
    requires i < |s.conns|
    ensures var c, conns' := s.conns[i], s.conns[i := c'];
      && Count(conns', Reserved()) == Count(s.conns, Reserved()) - One(Reserved()(c)) + One(Reserved()(c'))
      && Count(conns', Gauged()) == Count(s.conns, Gauged()) - One(Gauged()(c)) + One(Gauged()(c'))
      && Count(conns', HasSession()) == Count(s.conns, HasSession()) - One(HasSession()(c)) + One(HasSession()(c'))
      && Count(conns', Connected()) == Count(s.conns, Connected()) - One(Connected()(c)) + One(Connected()(c'))
      && Count(conns', Accepted(s.max)) ==
           Count(s.conns, Accepted(s.max)) - One(Accepted(s.max)(c)) + One(Accepted(s.max)(c'))
  {
    CountUpdate(s.conns, i, c', Reserved());
    CountUpdate(s.conns, i, c', Gauged());
    CountUpdate(s.conns, i, c', HasSession());
    CountUpdate(s.conns, i, c', Connected());
    CountUpdate(s.conns, i, c', Accepted(s.max));
  }

  lemma StepKeepsTally(s: State, i: nat)
    requires TallyOk(s) && Enabled(s, Step(i)) && ConnOk(s.conns[i])
    ensures TallyOk(Apply(s, Step(i)))
  {
    Recount(s, i, Moved(s, s.conns[i]));
  }

  /** A connection that takes a number within the limit finds room: those accepted before are all reserved. */
  lemma StepKeepsAccepted(s: State, i: nat)
    requires CountsOk(s) && Enabled(s, Step(i))
    ensures Count(Apply(s, Step(i)).conns, Accepted(s.max)) <= s.max
  {
    CountUpdate(s.conns, i, Moved(s, s.conns[i]), Accepted(s.max));
    CountMonotone(s.conns, Accepted(s.max), Reserved());
  }

  lemma StepKeepsCounts(s: State, i: nat)
    requires CountsOk(s) && Enabled(s, Step(i)) && ConnOk(s.conns[i])
    ensures CountsOk(Apply(s, Step(i)))
  {
    StepKeepsTally(s, i);
    StepKeepsAccepted(s, i);
  }

  lemma SessionEventKeepsCounts(s: State, e: Event)
    requires CountsOk(s) && Enabled(s, e) && (e.Login? || e.Dial? || e.Invalidate? || e.Disconnect?)
    ensures CountsOk(Apply(s, e))
  {
    Recount(s, e.i, Apply(s, e).conns[e.i]);
    if e.Login? && s.conns[e.i].sess.Session? {
      CountAppend(s.lost, s.conns[e.i].sess.client, IsSome());
    }
  }

  lemma AddsNothing(conns: seq<Conn>, p: Conn -> bool)
    requires !p(Conn(Arrived, NoSession))
    ensures Count(conns + [Conn(Arrived, NoSession)], p) == Count(conns, p)
  {
    CountAppend(conns, Conn(Arrived, NoSession), p);
  }

  lemma ArriveKeepsCounts(s: State)
    requires CountsOk(s)
    ensures CountsOk(Apply(s, Arrive))
  {
    AddsNothing(s.conns, Reserved());
    AddsNothing(s.conns, Gauged());
    AddsNothing(s.conns, HasSession());
    AddsNothing(s.conns, Connected());
    AddsNothing(s.conns, Accepted(s.max));
  }

  lemma ApplyKeepsCounts(s: State, e: Event)
    requires CountsOk(s) && ListOk(s)
    ensures CountsOk(Apply(s, e))
  {
    if Enabled(s, e) {
      match e
      case Arrive => ArriveKeepsCounts(s);
      case Shutdown =>
      case Step(i) => assert s.conns[i] in s.conns; StepKeepsCounts(s, i);
      case _ => SessionEventKeepsCounts(s, e);
    }
  }

  lemma ApplyKeepsList(s: State, e: Event)
    requires ListOk(s)
    ensures ListOk(Apply(s, e))
  {
    if Enabled(s, e) && !e.Arrive? && !e.Shutdown? {
      assert s.conns[e.i] in s.conns;
    }
  }

  /** Every connection goes on holding what it held. */
  lemma HoldingKeepsClients(s: State, s': State)
    requires ClientsOk(s) && |s'.conns| == |s.conns|
    requires forall j: nat, k: nat :: j < |s.conns| ==> (HeldBy(s'.conns[j], k) <==> HeldBy(s.conns[j], k))
    requires s'.clients == s.clients && s'.lost == s.lost
    ensures ClientsOk(s')
  {
    forall j: nat | j < |s.clients|
      ensures ClientOk(s', j)
    {
      assert ClientOk(s, j);
    }
  }

  /** Connection i gives up its client, which is closed. */
  lemma ClosingKeepsClients(s: State, i: nat, k: nat, s': State)
    requires ClientsOk(s) && i < |s.conns| && HeldBy(s.conns[i], k) && |s'.conns| == |s.conns|
    requires forall j: nat :: j < |s.conns| && j != i ==> s'.conns[j] == s.conns[j]
    requires forall j: nat :: !HeldBy(s'.conns[i], j)
    requires s'.clients == Closed(s.clients, Some(k)) && s'.lost == s.lost
    ensures ClientsOk(s')
  {
    assert OwnsOpen(s, i, k);
    forall j: nat | j < |s.clients|
      ensures ClientOk(s', j)
    {
      assert ClientOk(s, j);
    }
  }

  /** A second login makes connection i forget its client. */
  lemma LosingKeepsClients(s: State, i: nat, k: nat, s': State)
    requires ClientsOk(s) && i < |s.conns| && HeldBy(s.conns[i], k) && |s'.conns| == |s.conns|
    requires forall j: nat :: j < |s.conns| && j != i ==> s'.conns[j] == s.conns[j]
    requires forall j: nat :: !HeldBy(s'.conns[i], j)
    requires s'.clients == s.clients && s'.lost == s.lost + [Some(k)]
    ensures ClientsOk(s')
  {
    assert OwnsOpen(s, i, k);
    assert s'.lost[|s.lost|] == Some(k);
    forall j: nat | j < |s.clients|
      ensures ClientOk(s', j)
    {
      assert ClientOk(s, j);
    }
  }

  /** Connection i, which held no client, gets a new one. */
  lemma DialKeepsClients(s: State, i: nat)
    requires ClientsOk(s) && Enabled(s, Dial(i))
    ensures ClientsOk(Apply(s, Dial(i)))
  {
    var s' := Apply(s, Dial(i));
    assert HeldBy(s'.conns[i], |s.clients|);
    forall j: nat | j < |s'.clients|
      ensures ClientOk(s', j)
    {
      if j < |s.clients| { assert ClientOk(s, j); }
    }
  }

  lemma StepKeepsClients(s: State, i: nat)
    requires ClientsOk(s) && Enabled(s, Step(i)) && ConnOk(s.conns[i])
    ensures ClientsOk(Apply(s, Step(i)))
  {
    var c, s' := s.conns[i], Apply(s, Step(i));
    if c.pc.Ungauged? && c.sess.Session? && c.sess.client.Some? {
      assert HeldBy(c, c.sess.client.value);
      ClosingKeepsClients(s, i, c.sess.client.value, s');
    } else {
      HoldingKeepsClients(s, s');
    }
  }

  lemma InvalidateKeepsClients(s: State, i: nat)
    requires ClientsOk(s) && Enabled(s, Invalidate(i))
    ensures ClientsOk(Apply(s, Invalidate(i)))
  {
    assert HeldBy(s.conns[i], s.conns[i].sess.client.value);
    ClosingKeepsClients(s, i, s.conns[i].sess.client.value, Apply(s, Invalidate(i)));
  }

  lemma LoginKeepsClients(s: State, i: nat)
    requires ClientsOk(s) && Enabled(s, Login(i))
    ensures ClientsOk(Apply(s, Login(i)))
  {
    var c, s' := s.conns[i], Apply(s, Login(i));
    if c.sess.Session? && c.sess.client.Some? {
      assert HeldBy(c, c.sess.client.value);
      LosingKeepsClients(s, i, c.sess.client.value, s');
    } else {
      HoldingKeepsClients(s, s'.(lost := s.lost));
      LostNothing(s'.(lost := s.lost), s');
    }
  }

  lemma LostNothing(s: State, s': State)
    requires ClientsOk(s) && (s'.lost == s.lost || s'.lost == s.lost + [None]) && s' == s.(lost := s'.lost)
    ensures ClientsOk(s')
  {
    assert forall k: nat :: Some(k) in s'.lost <==> Some(k) in s.lost;
    forall j: nat | j < |s.clients|
      ensures ClientOk(s', j)
    {
      assert ClientOk(s, j);
    }
  }

  lemma ArriveKeepsClients(s: State)
    requires ClientsOk(s)
    ensures ClientsOk(Apply(s, Arrive))
  {
    var s' := Apply(s, Arrive);
    assert forall k: nat :: !HeldBy(s'.conns[|s.conns|], k);
    forall j: nat | j < |s.clients|
      ensures ClientOk(s', j)
    {
      assert ClientOk(s, j);
    }
  }

  lemma ApplyKeepsClients(s: State, e: Event)
    requires ClientsOk(s) && ListOk(s)
    ensures ClientsOk(Apply(s, e))
  {
    if Enabled(s, e) {
      match e
      case Arrive => ArriveKeepsClients(s);
      case Shutdown => HoldingKeepsClients(s, Apply(s, e));
      case Step(i) => assert s.conns[i] in s.conns; StepKeepsClients(s, i);
      case Login(i) => LoginKeepsClients(s, i);
      case Dial(i) => DialKeepsClients(s, i);
      case Invalidate(i) => InvalidateKeepsClients(s, i);
      case Disconnect(i) => HoldingKeepsClients(s, Apply(s, e));
    }
  }

  lemma ApplyKeepsInv(s: State, e: Event)
    requires Inv(s)
    ensures Inv(Apply(s, e))
  {
    ApplyKeepsCounts(s, e);
    ApplyKeepsList(s, e);
    ApplyKeepsClients(s, e);
  }

  lemma {:induction false} RunKeepsInv(s: State, events: seq<Event>)
    requires Inv(s)
    ensures Inv(Run(s, events)) && Run(s, events).max == s.max
    decreases |events|
  {
    if events != [] {
      ApplyKeepsInv(s, events[0]);
      RunKeepsInv(Apply(s, events[0]), events[1..]);
    }
  }

  // ---------------------------------------------------------------- admission

  /** Under any interleaving of the add, compare and undo of arriving connections with everything else, the
      admitted connections never exceed the limit; and the atomic counter equals their number whenever no
      connection stands between its add and its verdict. */
  lemma AdmissionIsBounded(max: nat, events: seq<Event>)
    ensures var s := Run(Fresh(max), events);
      && Count(s.conns, Alive()) <= max
      && s.n.active == Count(s.conns, Reserved())
      && ((forall c :: c in s.conns ==> !c.pc.Numbered?) ==> s.n.active == Count(s.conns, Alive()))
  {
    var s := Run(Fresh(max), events);
    RunKeepsInv(Fresh(max), events);
    CountMonotone(s.conns, Alive(), Accepted(s.max));
    if forall c :: c in s.conns ==> !c.pc.Numbered? {
      CountMonotone(s.conns, Alive(), Reserved());
      CountMonotone(s.conns, Reserved(), Alive());
    }
  }

  // ---------------------------------------------------------------- sessions and SFTP connections

  /** A successful login on a connection that already has a session satisfying `p`, which is lost. */
  predicate Relogin(s: State, e: Event, p: Conn -> bool) {
    e.Login? && Enabled(s, e) && s.conns[e.i].sess.Session? && p(s.conns[e.i])
  }

  /** How many there are in a run. */
  function Relogins(s: State, events: seq<Event>, p: Conn -> bool): nat
    decreases |events|
  {
    if events == [] then 0
    else (if Relogin(s, events[0], p) then 1 else 0) + Relogins(Apply(s, events[0]), events[1..], p)
  }

  lemma ApplyLoses(s: State, e: Event)
    ensures |Apply(s, e).lost| == |s.lost| + (if Relogin(s, e, HasSession()) then 1 else 0)
    ensures Count(Apply(s, e).lost, IsSome()) == Count(s.lost, IsSome()) + (if Relogin(s, e, Connected()) then 1 else 0)
  {
    if Relogin(s, e, HasSession()) { CountAppend(s.lost, s.conns[e.i].sess.client, IsSome()); }
  }

  lemma {:induction false} RunLoses(s: State, events: seq<Event>)
    ensures |Run(s, events).lost| == |s.lost| + Relogins(s, events, HasSession())
    ensures Count(Run(s, events).lost, IsSome()) == Count(s.lost, IsSome()) + Relogins(s, events, Connected())
    decreases |events|
  {
    if events != [] {
      ApplyLoses(s, events[0]);
      RunLoses(Apply(s, events[0]), events[1..]);
    }
  }

  /** In every run, the wait group counts the live connections that hold a session plus one for every login on a
      connection that had one already, which nothing ever undoes; the SFTP gauge likewise for the logins that
      lost a connected session.  So each is right exactly in the runs without such logins. */
  lemma SessionAccounting(max: nat, events: seq<Event>)
    ensures var s := Run(Fresh(max), events);
      && s.n.sessions == Count(s.conns, HasSession()) + Relogins(Fresh(max), events, HasSession())
      && s.n.sftp == Count(s.conns, Connected()) + Relogins(Fresh(max), events, Connected())
      && s.n.connections == Count(s.conns, Gauged())
      && (s.lost == [] <==> Relogins(Fresh(max), events, HasSession()) == 0)
  {
    RunKeepsInv(Fresh(max), events);
    RunLoses(Fresh(max), events);
  }

  /** The only connection, admitted, after two logins. */
  function LoggedInTwice(): State {
    State(1, false, Tally(1, 1, 0, 2), {0}, [Conn(Serving, Session(None))], [None], [])
  }

  lemma FirstArrives()
    ensures Apply(Apply(Apply(Apply(Apply(Fresh(1), Arrive), Step(0)), Step(0)), Step(0)), Step(0))
      == State(1, false, Tally(1, 1, 0, 0), {0}, [Conn(Serving, NoSession)], [], [])
  {
    var s1 := Apply(Fresh(1), Arrive);
    assert s1.conns == [Conn(Arrived, NoSession)];
    ArriveAlone(s1, 0);
    assert s1.conns[0 := Conn(Serving, NoSession)] == [Conn(Serving, NoSession)];
  }

  lemma TwoLogins()
    ensures Run(Fresh(1), [Arrive, Step(0), Step(0), Step(0), Step(0), Login(0), Login(0)]) == LoggedInTwice()
  {
    RunSeven(Fresh(1), Arrive, Step(0), Step(0), Step(0), Step(0), Login(0), Login(0));
    FirstArrives();
    var s := State(1, false, Tally(1, 1, 0, 0), {0}, [Conn(Serving, NoSession)], [], []);
    var s1 := Apply(s, Login(0));
    assert s1.conns == [Conn(Serving, Session(None))];
    assert Apply(s1, Login(0)).conns == [Conn(Serving, Session(None))];
  }

  lemma ThenLeaves()
    ensures Run(LoggedInTwice(), [Disconnect(0), Step(0), Step(0), Step(0), Step(0)])
      == State(1, false, Tally(0, 0, 0, 1), {}, [Conn(Gone, NoSession)], [None], [])
  {
    RunFive(LoggedInTwice(), Disconnect(0), Step(0), Step(0), Step(0), Step(0));
    var s := Apply(LoggedInTwice(), Disconnect(0));
    assert s.conns == [Conn(Unlisted, Session(None))] && s.listed == {};
    LeaveAlone(s, 0);
    assert s.conns[0 := Conn(Gone, NoSession)] == [Conn(Gone, NoSession)];
  }

  /** One connection that logs in twice and leaves: nothing is left, and the wait group never gets back to zero. */
  lemma SecondLoginLeaks()
    ensures var s := Run(Fresh(1), [Arrive, Step(0), Step(0), Step(0), Step(0), Login(0), Login(0)]
                                   + [Disconnect(0), Step(0), Step(0), Step(0), Step(0)]);
      s.conns == [Conn(Gone, NoSession)] && s.listed == {} && s.n == Tally(0, 0, 0, 1)
  {
    TwoLogins();
    ThenLeaves();
    RunConcat(Fresh(1), [Arrive, Step(0), Step(0), Step(0), Step(0), Login(0), Login(0)],
              [Disconnect(0), Step(0), Step(0), Step(0), Step(0)]);
  }

  lemma {:induction false} RunConcat(s: State, a: seq<Event>, b: seq<Event>)
    ensures Run(s, a + b) == Run(Run(s, a), b)
    decreases |a|
  {
    if a == [] {
      assert a + b == b;
    } else {
      assert (a + b)[0] == a[0] && (a + b)[1..] == a[1..] + b;
      RunConcat(Apply(s, a[0]), a[1..], b);
    }
  }

  /** Every dialled client is closed at most once; it is still open exactly while its session, or a lost one,
      holds it; so all are closed once their connections are gone and no session was lost. */
  lemma ClientsAreClosedOnce(max: nat, events: seq<Event>)
    ensures var s := Run(Fresh(max), events);
      forall k: nat :: k < |s.clients| ==>
        && s.clients[k].owner < |s.conns| && s.clients[k].closes <= 1
        && (s.clients[k].closes == 0 <==> HeldBy(s.conns[s.clients[k].owner], k) || Some(k) in s.lost)
        && (s.lost == [] && s.conns[s.clients[k].owner].pc.Gone? ==> s.clients[k].closes == 1)
  {
    var s := Run(Fresh(max), events);
    RunKeepsInv(Fresh(max), events);
    forall k: nat | k < |s.clients|
      ensures ClientOk(s, k)
      ensures s.conns[s.clients[k].owner].pc.Gone? ==> !HeldBy(s.conns[s.clients[k].owner], k)
    {
      assert ClientOk(s, k);
      assert s.conns[s.clients[k].owner] in s.conns;
    }
  }

  predicate Leaving(c: Conn) {
    c.pc.Unlisted? || c.pc.Uncounted? || c.pc.Ungauged? || c.pc.Dropped?
  }

  function LeavingSession(): Conn -> bool {
    (c: Conn) => c.sess.Session? && Leaving(c)
  }

  function ServingSession(): Conn -> bool {
    (c: Conn) => c.sess.Session? && c.pc.Serving?
  }

  function IsServing(): Conn -> bool {
    (c: Conn) => c.pc.Serving?
  }

  function ServingIdle(): Conn -> bool {
    (c: Conn) => c.sess.NoSession? && c.pc.Serving?
  }

  /** In every run, the wait group is at most the size of the register exactly if the connections that are leaving
      with a session, and the sessions lost to second logins, are no more than the registered connections that
      have not logged in.  So it is between callbacks of runs without second logins. */
  lemma WaitGroupIsBounded(max: nat, events: seq<Event>)
    ensures var s := Run(Fresh(max), events);
      var lost := Relogins(Fresh(max), events, HasSession());
      && (s.n.sessions <= |s.listed| <==> Count(s.conns, LeavingSession()) + lost <= Count(s.conns, ServingIdle()))
      && ((forall c :: c in s.conns ==> !Leaving(c)) && lost == 0 ==> s.n.sessions <= |s.listed|)
  {
    var s := Run(Fresh(max), events);
    RunKeepsInv(Fresh(max), events);
    RunLoses(Fresh(max), events);
    CountSplit(s.conns, HasSession(), ServingSession(), LeavingSession());
    CountSplit(s.conns, IsServing(), ServingSession(), ServingIdle());
    CountIsCardinality(s.conns, IsServing(), s.listed);
    if forall c :: c in s.conns ==> !Leaving(c) {
      CountNone(s.conns, LeavingSession());
    }
  }

  /** Inside ClientDisconnected it can: the connection leaves the register before its session is done. */
  lemma WaitGroupExceedsRegister()
    ensures var s := Run(Fresh(1), [Arrive, Step(0), Step(0), Step(0), Step(0), Login(0), Disconnect(0)]);
      s.listed == {} && s.n.sessions == 1
  {
    RunSeven(Fresh(1), Arrive, Step(0), Step(0), Step(0), Step(0), Login(0), Disconnect(0));
    FirstArrives();
    LogsInAndLeaves();
  }

  lemma LogsInAndLeaves()
    ensures var s := State(1, false, Tally(1, 1, 0, 0), {0}, [Conn(Serving, NoSession)], [], []);
      var s' := Apply(Apply(s, Login(0)), Disconnect(0));
      s'.listed == {} && s'.n.sessions == 1
  {
    var s := State(1, false, Tally(1, 1, 0, 0), {0}, [Conn(Serving, NoSession)], [], []);
    assert Apply(s, Login(0)).conns == [Conn(Serving, Session(None))];
    assert {0} - {0} == {};
  }

  lemma RunSeven(s: State, a: Event, b: Event, c: Event, d: Event, e: Event, f: Event, g: Event)
    ensures Run(s, [a, b, c, d, e, f, g]) == Apply(Apply(Apply(Apply(Apply(Apply(Apply(s, a), b), c), d), e), f), g)
  {
    RunCons(s, a, [b, c, d, e, f, g]);
    RunCons(Apply(s, a), b, [c, d, e, f, g]);
    RunFive(Apply(Apply(s, a), b), c, d, e, f, g);
  }

  // ---------------------------------------------------------------- shutdown

  /** Past the shutdown flag and not yet gone. */
  predicate InFlight(s: State, i: nat) {
    i < |s.conns| && !s.conns[i].pc.Arrived? && !s.conns[i].pc.Gone?
  }

  /** Past the flag but not yet registered. */
  predicate Pending(s: State, i: nat) {
    i < |s.conns| && (s.conns[i].pc.Cleared? || s.conns[i].pc.Numbered? || s.conns[i].pc.Admitted?)
  }

  lemma ShuttingOnlyDrains(s: State, e: Event, i: nat)
    requires s.shutting
    ensures Apply(s, e).shutting
    ensures InFlight(Apply(s, e), i) ==> InFlight(s, i)
    ensures Pending(Apply(s, e), i) ==> Pending(s, i)
    ensures Apply(s, e).listed <= s.listed + (set j: nat | j < |s.conns| && Pending(s, j))
  {
  }

  lemma {:induction false} ShuttingRunDrains(s: State, events: seq<Event>, i: nat)
    requires s.shutting
    ensures Run(s, events).shutting
    ensures InFlight(Run(s, events), i) ==> InFlight(s, i)
    ensures Pending(Run(s, events), i) ==> Pending(s, i)
    ensures (forall j: nat :: !Pending(s, j)) ==> Run(s, events).listed <= s.listed
    decreases |events|
  {
    if events != [] {
      var s1 := Apply(s, events[0]);
      ShuttingOnlyDrains(s, events[0], i);
      ShuttingRunDrains(s1, events[1..], i);
      if forall j: nat :: !Pending(s, j) {
        forall j: nat
          ensures !Pending(s1, j)
        {
          ShuttingOnlyDrains(s, events[0], j);
        }
      }
    }
  }

  /** Whatever happens after PrepareShutdown, in any state: only connections that were already past the flag are ever
      in flight, none becomes pending, every connection that arrives later is at most waiting to be refused, and once
      none is pending the register only shrinks. */
  lemma ShutdownDrains(s: State, events: seq<Event>, i: nat)
    ensures var s' := Run(Apply(s, Shutdown), events);
      && (InFlight(s', i) ==> InFlight(s, i))
      && (Pending(s', i) ==> Pending(s, i))
      && (|s.conns| <= i < |s'.conns| ==> s'.conns[i].pc.Arrived? || s'.conns[i].pc.Gone?)
      && ((forall j: nat :: !Pending(s, j)) ==> s'.listed <= s.listed)
  {
    var s0 := Apply(s, Shutdown);
    assert s0.conns == s.conns && s0.listed == s.listed;
    ShuttingRunDrains(s0, events, i);
    if forall j: nat :: !Pending(s, j) {
      forall j: nat
        ensures !Pending(s0, j)
      {
        assert !Pending(s, j);
      }
    }
  }

  /** In particular each later ClientConnected refuses, at its first step, without counting anything. */
  lemma LaterArrivalsAreRefused(s: State, events: seq<Event>)
    ensures var s' := Run(Apply(s, Shutdown), events);
      var s2 := Apply(Apply(s', Arrive), Step(|s'.conns|));
      s2 == s'.(conns := s'.conns + [Conn(Gone, NoSession)])
  {
    var s' := Run(Apply(s, Shutdown), events);
    ShuttingRunDrains(Apply(s, Shutdown), events, 0);
    var arrived := Apply(s', Arrive);
    assert arrived.conns[|s'.conns| := Conn(Gone, NoSession)] == s'.conns + [Conn(Gone, NoSession)];
  }

  /** Once no connection is pending, the register, and so CloseAllConnections, covers every admitted
      connection that is not already leaving. */
  lemma RegisterCoversLiveConnections(max: nat, events: seq<Event>)
    ensures var s := Run(Fresh(max), events);
      forall i :: 0 <= i < |s.conns| && InFlight(s, i) && !Pending(s, i) ==> i in s.listed || Leaving(s.conns[i])
  {
    RunKeepsInv(Fresh(max), events);
  }
}
