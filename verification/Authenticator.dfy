/**
  internal/auth/authenticator.go: one login attempt drives a limiter per client address and a
  limiter per user name, in four critical sections that interleave with those of other
  attempts.  bcrypt is a parameter.
 */
module Authenticator {
  import opened Wrappers
  import opened Limiter
  import opened Counting

  datatype Outcome = Accepted | InvalidCredentials | RateLimited

  datatype Login = Login(clientIP: string, username: string, password: string)

  /** The clock at each of the four uses of a limiter in one call of Authenticate. */
  datatype Times = Times(askIP: int, askUser: int, noteIP: int, noteUser: int) {
    predicate InOrder() {
      askIP <= askUser <= noteIP <= noteUser
    }
  }

  datatype Guard = Guard(byIP: State, byUser: State)

  datatype Rules = Rules(byIP: Config, byUser: Config)

  const DUMMY_HASH := "ftp2sftp-dummy-comparison-only"

  /** bcrypt runs for unknown users too, but only a known one can match. */
  predicate Matches(store: map<string, string>, verifies: (string, string) -> bool, login: Login) {
    login.username in store && verifies(store[login.username], login.password)
  }

  function Judged(g: Guard, login: Login, t: Times, good: bool): Outcome {
    if !Allowed(g.byIP, login.clientIP, t.askIP) || !Allowed(g.byUser, login.username, t.askUser) then RateLimited
    else Verdict(good)
  }

  function Verdict(good: bool): Outcome {
    if good then Accepted else InvalidCredentials
  }

  /** RecordSuccess or RecordFailure. */
  function Recorded(cfg: Config, st: State, key: string, good: bool, at: int): State {
    if good then Cleared(st, key) else Failed(cfg, st, key, at)
  }

  function Noted(rules: Rules, g: Guard, login: Login, t: Times, good: bool): Guard {
    if Judged(g, login, t, good) == RateLimited then g
    else Guard(Recorded(rules.byIP, g.byIP, login.clientIP, good, t.noteIP),
               Recorded(rules.byUser, g.byUser, login.username, good, t.noteUser))
  }

  /** The table holds a lockout of the key that has not ended. */
  predicate LocksOut(st: State, key: string, now: int) {
    key in st && st[key].lockedUntil.Some? && now < st[key].lockedUntil.value
  }

  /** The table counts one more failure of the key, or the first of a new window. */
  predicate OneMore(was: State, st: State, key: string, now: int, window: int) {
    && key in st && st[key].lastActivity == now
    && (if key in was && now - was[key].windowStart <= window
        then st[key].failures == was[key].failures + 1 && st[key].windowStart == was[key].windowStart
        else st[key].failures == 1 && st[key].windowStart == now)
  }

  class Authenticator {
    const store: map<string, string>
    const byIP: Limiter
    const byUser: Limiter

    constructor (store: map<string, string>, byIP: Limiter, byUser: Limiter)
      ensures this.store == store && this.byIP == byIP && this.byUser == byUser
    {
      this.store, this.byIP, this.byUser := store, byIP, byUser;
    }

    ghost predicate Valid(now: int)
      reads byIP, byUser
    {
      byIP != byUser && byIP.Valid(now) && byUser.Valid(now)
    }

    ghost function Configs(): Rules
      reads byIP, byUser
    {
      Rules(byIP.cfg, byUser.cfg)
    }

    /** Each Allow may sweep, with a cutoff and clock readings of its own.  `before` is what the limiters hold
        after that; the sweeps are the only difference to the state on entry. */
    method Authenticate(login: Login, t: Times, verifies: (string, string) -> bool,
                        cutoffIP: int, cutoffUser: int, clockIP: string -> int, clockUser: string -> int)
      returns (outcome: Outcome, ghost before: Guard)
      requires Valid(t.askIP) && t.InOrder()
      requires (forall k :: cutoffIP <= clockIP(k)) && (forall k :: cutoffUser <= clockUser(k))
      modifies byIP, byUser
      ensures Valid(t.noteUser)
      ensures before.byIP == old(byIP.state) || before.byIP == Swept(byIP.cfg, old(byIP.state), cutoffIP)
      ensures before.byUser == old(byUser.state) || before.byUser == Swept(byUser.cfg, old(byUser.state), cutoffUser)
      ensures outcome == Judged(before, login, t, Matches(store, verifies, login))
      ensures Guard(byIP.state, byUser.state) == Noted(Configs(), before, login, t, Matches(store, verifies, login))
      ensures LocksOut(before.byIP, login.clientIP, t.askIP) || LocksOut(before.byUser, login.username, t.askUser) ==>
        outcome == RateLimited && byIP.state == before.byIP && byUser.state == before.byUser
      ensures !LocksOut(before.byIP, login.clientIP, t.askIP) && !LocksOut(before.byUser, login.username, t.askUser) ==>
        if login.username in store && verifies(store[login.username], login.password) then
          && outcome == Accepted
          && login.clientIP !in byIP.state && login.username !in byUser.state
        else
          && outcome == InvalidCredentials
          && OneMore(before.byIP, byIP.state, login.clientIP, t.noteIP, byIP.cfg.window)
          && OneMore(before.byUser, byUser.state, login.username, t.noteUser, byUser.cfg.window)
    {
      var ok := byIP.Allow(login.clientIP, cutoffIP, clockIP, t.askIP);
      if ok {
        ok := byUser.Allow(login.username, cutoffUser, clockUser, t.askUser);
      }
      before := Guard(byIP.state, byUser.state);
      if !ok {
        return RateLimited, before;
      }
      var found := login.username in store;
      var hash := if found then store[login.username] else DUMMY_HASH;
      if !found || !verifies(hash, login.password) {
        NoteFailure(login, t);
        return InvalidCredentials, before;
      }
      NoteSuccess(login, t);
      return Accepted, before;
    }

    method NoteFailure(login: Login, t: Times)
      requires byIP != byUser && byIP.Valid(t.askIP) && byUser.Valid(t.askUser) && t.InOrder()
      modifies byIP, byUser
      ensures Valid(t.noteUser)
      ensures byIP.state == Failed(byIP.cfg, old(byIP.state), login.clientIP, t.noteIP)
      ensures byUser.state == Failed(byUser.cfg, old(byUser.state), login.username, t.noteUser)
      ensures OneMore(old(byIP.state), byIP.state, login.clientIP, t.noteIP, byIP.cfg.window)
      ensures OneMore(old(byUser.state), byUser.state, login.username, t.noteUser, byUser.cfg.window)
    {
      byIP.RecordFailure(login.clientIP, t.askIP, t.noteIP);
      byUser.RecordFailure(login.username, t.askUser, t.noteUser);
    }

    method NoteSuccess(login: Login, t: Times)
      requires byIP != byUser && byIP.Valid(t.askIP) && byUser.Valid(t.askUser) && t.InOrder()
      modifies byIP, byUser
      ensures Valid(t.noteUser)
      ensures byIP.state == Cleared(old(byIP.state), login.clientIP) && login.clientIP !in byIP.state
      ensures byUser.state == Cleared(old(byUser.state), login.username) && login.username !in byUser.state
    {
      byIP.RecordSuccess(login.clientIP, t.noteUser);
      byUser.RecordSuccess(login.username, t.noteUser);
    }
  }

  // ---------------------------------------------------------------- attempts that interleave

  datatype Stage = AskingIP | AskingUser | NotingIP | NotingUser | Finished(outcome: Outcome)

  /** A call of Authenticate; `good` is what bcrypt will say. */
  datatype Attempt = Attempt(login: Login, good: bool, stage: Stage)

  /** Both limiters, and all attempts so far. */
  datatype Desk = Desk(g: Guard, attempts: seq<Attempt>)

  datatype Side = IP | User

  datatype Move =
    | Come(login: Login, good: bool)                 // Authenticate is called
    | Turn(i: nat, at: int)                          // the next critical section of attempt i
    | Tidy(side: Side, cutoff: int, at: int)         // a sweep

  function Table(g: Guard, side: Side): State {
    if side.IP? then g.byIP else g.byUser
  }

  function Cfg(rules: Rules, side: Side): Config {
    if side.IP? then rules.byIP else rules.byUser
  }

  function KeyOf(a: Attempt, side: Side): string {
    if side.IP? then a.login.clientIP else a.login.username
  }

  function NextStage(g: Guard, a: Attempt, at: int): Stage {
    match a.stage
    case AskingIP => if Allowed(g.byIP, a.login.clientIP, at) then AskingUser else Finished(RateLimited)
    case AskingUser => if Allowed(g.byUser, a.login.username, at) then NotingIP else Finished(RateLimited)
    case NotingIP => NotingUser
    case NotingUser => Finished(Verdict(a.good))
    case Finished(_) => a.stage
  }

  function NextGuard(rules: Rules, g: Guard, a: Attempt, at: int): Guard {
    match a.stage
    case NotingIP => g.(byIP := Recorded(rules.byIP, g.byIP, a.login.clientIP, a.good, at))
    case NotingUser => g.(byUser := Recorded(rules.byUser, g.byUser, a.login.username, a.good, at))
    case _ => g
  }

  function SweptSide(rules: Rules, g: Guard, side: Side, cutoff: int): Guard {
    if side.IP? then g.(byIP := Swept(rules.byIP, g.byIP, cutoff))
    else g.(byUser := Swept(rules.byUser, g.byUser, cutoff))
  }

  function Moved(rules: Rules, d: Desk, m: Move): Desk {
    match m
    case Come(login, good) => d.(attempts := d.attempts + [Attempt(login, good, AskingIP)])
    case Turn(i, at) =>
      if i >= |d.attempts| then d
      else
        var a := d.attempts[i];
        Desk(NextGuard(rules, d.g, a, at), d.attempts[i := a.(stage := NextStage(d.g, a, at))])
    case Tidy(side, cutoff, _) => d.(g := SweptSide(rules, d.g, side, cutoff))
  }

  function Run(rules: Rules, d: Desk, moves: seq<Move>): Desk
    decreases |moves|
  {
    if moves == [] then d else Run(rules, Moved(rules, d, moves[0]), moves[1..])
  }

  const EMPTY := Desk(Guard(map[], map[]), [])

  function TimeOf(m: Move, now: int): int {
    if m.Come? then now else m.at
  }

  /** The clock never runs backwards, and a sweep's cutoff was read before the sweep. */
  predicate OnTime(m: Move, now: int) {
    now <= TimeOf(m, now) && (m.Tidy? ==> m.cutoff <= m.at)
  }

  predicate Clocked(now: int, moves: seq<Move>)
    decreases |moves|
  {
    moves == [] || (OnTime(moves[0], now) && Clocked(TimeOf(moves[0], now), moves[1..]))
  }

  lemma {:induction false} RunConcat(rules: Rules, d: Desk, a: seq<Move>, b: seq<Move>)
    ensures Run(rules, d, a + b) == Run(rules, Run(rules, d, a), b)
    decreases |a|
  {
    if a == [] {
      assert a + b == b;
    } else {
      assert (a + b)[0] == a[0] && (a + b)[1..] == a[1..] + b;
      RunConcat(rules, Moved(rules, d, a[0]), a[1..], b);
    }
  }

  /** One attempt from beginning to end. */
  function Whole(login: Login, good: bool, n: nat, t: Times): seq<Move> {
    [Come(login, good), Turn(n, t.askIP), Turn(n, t.askUser), Turn(n, t.noteIP), Turn(n, t.noteUser)]
  }

  lemma RunCons(rules: Rules, d: Desk, m: Move, rest: seq<Move>)
    ensures Run(rules, d, [m] + rest) == Run(rules, Moved(rules, d, m), rest)
  {
    assert ([m] + rest)[1..] == rest;
  }

  lemma TurnLast(rules: Rules, g: Guard, attempts: seq<Attempt>, a: Attempt, at: int)
    ensures Moved(rules, Desk(g, attempts + [a]), Turn(|attempts|, at))
      == Desk(NextGuard(rules, g, a, at), attempts + [a.(stage := NextStage(g, a, at))])
  {
    var a' := a.(stage := NextStage(g, a, at));
    assert (attempts + [a])[|attempts| := a'] == attempts + [a'];
  }

  /** The stages of an attempt that nothing interrupts, with what the limiters hold at its last turn. */
  function Stages(rules: Rules, g: Guard, login: Login, good: bool, t: Times): (Attempt, Attempt, Guard, Attempt) {
    var a := Attempt(login, good, AskingIP);
    var a1 := a.(stage := NextStage(g, a, t.askIP));
    var a2 := a1.(stage := NextStage(g, a1, t.askUser));
    (a1, a2, NextGuard(rules, g, a2, t.noteIP), a2.(stage := NextStage(g, a2, t.noteIP)))
  }

  lemma StagesEnd(rules: Rules, g: Guard, login: Login, good: bool, t: Times)
    ensures var (_, _, g3, a3) := Stages(rules, g, login, good, t);
      && NextGuard(rules, g3, a3, t.noteUser) == Noted(rules, g, login, t, good)
      && a3.(stage := NextStage(g3, a3, t.noteUser)) == Attempt(login, good, Finished(Judged(g, login, t, good)))
  {
  }

  /** An attempt that nothing interrupts is the call of Authenticate that the class makes. */
  lemma AttemptAlone(rules: Rules, d: Desk, login: Login, good: bool, t: Times)
    ensures Run(rules, d, Whole(login, good, |d.attempts|, t))
      == Desk(Noted(rules, d.g, login, t, good),
              d.attempts + [Attempt(login, good, Finished(Judged(d.g, login, t, good)))])
  {
    StagesEnd(rules, d.g, login, good, t);
    var n, a := |d.attempts|, Attempt(login, good, AskingIP);
    var (a1, a2, g3, a3) := Stages(rules, d.g, login, good, t);
    var m1, m2, m3, m4 := Turn(n, t.askIP), Turn(n, t.askUser), Turn(n, t.noteIP), Turn(n, t.noteUser);
    RunCons(rules, d, Come(login, good), [m1, m2, m3, m4]);
    RunCons(rules, Desk(d.g, d.attempts + [a]), m1, [m2, m3, m4]);
    TurnLast(rules, d.g, d.attempts, a, t.askIP);
    RunCons(rules, Desk(d.g, d.attempts + [a1]), m2, [m3, m4]);
    TurnLast(rules, d.g, d.attempts, a1, t.askUser);
    RunCons(rules, Desk(d.g, d.attempts + [a2]), m3, [m4]);
    TurnLast(rules, d.g, d.attempts, a2, t.noteIP);
    RunCons(rules, Desk(g3, d.attempts + [a3]), m4, []);
    TurnLast(rules, g3, d.attempts, a3, t.noteUser);
  }

  // ---------------------------------------------------------------- the bound

  /** n + (n - k) + (n - 2k) + ... with every term capped: the least waiting, in lockouts, that leads past multiplier
      n when up to k failures can follow each wait. */
  function Waits(k: nat, n: int): nat
    requires k >= 1
    decreases if n > 0 then n else 0
  {
    if n <= 0 then 0 else Capped(n) + Waits(k, n - k)
  }

  lemma {:induction false} WaitsGrow(k: nat, a: int, b: int)
    requires k >= 1 && a <= b
    ensures Waits(k, a) <= Waits(k, b)
    decreases if b > 0 then b else 0
  {
    if b > 0 { WaitsGrow(k, a - k, b - k); }
  }

  /** What the limiter alone does not promise: the recorded failures were paid for with waiting. */
  predicate Earned(cfg: Config, s: Attempts, k: nat, now: int)
    requires k >= 1
  {
    var m := Excess(cfg, s.failures);
    && 1 <= s.failures
    && s.windowStart <= s.lastActivity <= now
    && s.lastActivity - s.windowStart <= cfg.window
    && s.lockedUntil == (if m >= 1 then Some(s.lastActivity + cfg.lockout * Capped(m)) else None)
    && s.windowStart + cfg.lockout * Waits(k, m - k) <= s.lastActivity
  }

  /** Multiplier p has been waited out, and the c attempts in flight lead at most k beyond it. */
  predicate Room(cfg: Config, s: Attempts, k: nat, c: nat, p: nat, now: int)
    requires k >= 1
  {
    s.windowStart + cfg.lockout * Waits(k, p) <= now && Excess(cfg, s.failures) + c <= p + k
  }

  ghost predicate HasRoom(cfg: Config, s: Attempts, k: nat, c: nat, now: int)
    requires k >= 1
  {
    exists p: nat :: Room(cfg, s, k, c, p, now)
  }

  lemma Distributes(x: int, a: int, b: int)
    ensures x * (a + b) == x * a + x * b
  {
  }

  lemma Scales(x: int, a: int, b: int)
    requires x >= 0 && a <= b
    ensures x * a <= x * b
  {
  }

  /** The first failure of a window. */
  lemma FirstIsEarned(cfg: Config, k: nat, c: nat, now: int)
    requires cfg.Valid() && cfg.maxFailures >= 1 && 1 <= c <= k
    ensures var s := Counted(cfg, Attempts(0, now, None, now), now);
      Earned(cfg, s, k, now) && HasRoom(cfg, s, k, c - 1, now)
  {
    var s := Counted(cfg, Attempts(0, now, None, now), now);
    assert Waits(k, Excess(cfg, 1) - k) == 0 && cfg.lockout * 0 == 0;
    assert Room(cfg, s, k, c - 1, 0, now);
  }

  /** A further failure, by one of the attempts in flight. */
  lemma NextIsEarned(cfg: Config, s: Attempts, k: nat, c: nat, before: int, now: int)
    requires cfg.Valid() && cfg.maxFailures >= 1 && 1 <= c <= k && before <= now
    requires Earned(cfg, s, k, before) && HasRoom(cfg, s, k, c, before) && now - s.windowStart <= cfg.window
    ensures Earned(cfg, Counted(cfg, s, now), k, now) && HasRoom(cfg, Counted(cfg, s, now), k, c - 1, now)
  {
    var p: nat :| Room(cfg, s, k, c, p, before);
    var m := Excess(cfg, s.failures) + 1;
    WaitsGrow(k, m - k, p);
    Scales(cfg.lockout, Waits(k, m - k), Waits(k, p));
    assert Room(cfg, Counted(cfg, s, now), k, c - 1, p, now);
  }

  lemma FailureIsEarned(cfg: Config, st: State, key: string, k: nat, c: nat, before: int, now: int)
    requires cfg.Valid() && cfg.maxFailures >= 1 && 1 <= c <= k && before <= now
    requires key in st ==> Earned(cfg, st[key], k, before) && HasRoom(cfg, st[key], k, c, before)
    ensures var s := Failed(cfg, st, key, now)[key]; Earned(cfg, s, k, now) && HasRoom(cfg, s, k, c - 1, now)
  {
    if key !in st || now - st[key].windowStart > cfg.window {
      FirstIsEarned(cfg, k, c, now);
    } else {
      NextIsEarned(cfg, st[key], k, c, before, now);
    }
  }

  /** An attempt that is let through finds the current multiplier waited out. */
  lemma PassingGivesRoom(cfg: Config, s: Attempts, k: nat, c: nat, before: int, at: int)
    requires cfg.Valid() && 1 <= c <= k && Earned(cfg, s, k, before) && before <= at
    requires s.lockedUntil.None? || s.lockedUntil.value <= at
    ensures HasRoom(cfg, s, k, c, at)
  {
    var m := Excess(cfg, s.failures);
    if m >= 1 {
      Distributes(cfg.lockout, Capped(m), Waits(k, m - k));
      assert Room(cfg, s, k, c, m, at);
    } else {
      assert cfg.lockout * Waits(k, 0) == 0;
      assert Room(cfg, s, k, c, 0, at);
    }
  }

  lemma LaterStillEarned(cfg: Config, s: Attempts, k: nat, c: nat, c': nat, before: int, now: int)
    requires k >= 1 && Earned(cfg, s, k, before) && HasRoom(cfg, s, k, c, before) && c' <= c && before <= now
    ensures Earned(cfg, s, k, now) && HasRoom(cfg, s, k, c', now)
  {
    var p: nat :| Room(cfg, s, k, c, p, before);
    assert Room(cfg, s, k, c', p, now);
  }

  /** The attempt has been let through by the limiter of this side and has not recorded its result there. */
  predicate InFlight(a: Attempt, side: Side) {
    if side.IP? then a.stage.AskingUser? || a.stage.NotingIP? else a.stage.NotingIP? || a.stage.NotingUser?
  }

  predicate InFlightOn(a: Attempt, side: Side, key: string) {
    InFlight(a, side) && KeyOf(a, side) == key
  }

  function FlightOn(side: Side, key: string): Attempt -> bool {
    (a: Attempt) => InFlightOn(a, side, key)
  }

  function Flying(d: Desk, side: Side, key: string): nat {
    Count(d.attempts, FlightOn(side, key))
  }

  predicate Asks(a: Attempt, side: Side) {
    if side.IP? then a.stage.AskingIP? else a.stage.AskingUser?
  }

  predicate Notes(a: Attempt, side: Side) {
    if side.IP? then a.stage.NotingIP? else a.stage.NotingUser?
  }

  /** At every point of the run at most k attempts on this one key are in flight; those on other keys may do what
      they like. */
  predicate AtMost(rules: Rules, d: Desk, moves: seq<Move>, side: Side, key: string, k: nat)
    decreases |moves|
  {
    Flying(d, side, key) <= k && (moves == [] || AtMost(rules, Moved(rules, d, moves[0]), moves[1..], side, key, k))
  }

  /** The invariant of one key: its failures are earned, and its attempts in flight cannot lead far. */
  ghost predicate KeyEarned(rules: Rules, d: Desk, side: Side, key: string, k: nat, now: int)
    requires k >= 1
  {
    var st := Table(d.g, side);
    key in st ==>
      Earned(Cfg(rules, side), st[key], k, now) && HasRoom(Cfg(rules, side), st[key], k, Flying(d, side, key), now)
  }

  lemma FlyingAfterTurn(rules: Rules, d: Desk, m: Move, side: Side, key: string)
    requires m.Turn? && m.i < |d.attempts|
    ensures var a, a' := d.attempts[m.i], Moved(rules, d, m).attempts[m.i];
      Flying(Moved(rules, d, m), side, key) == Flying(d, side, key)
        - (if InFlightOn(a, side, key) then 1 else 0) + (if InFlightOn(a', side, key) then 1 else 0)
  {
    CountUpdate(d.attempts, m.i, Moved(rules, d, m).attempts[m.i], FlightOn(side, key));
  }

  lemma NoteKeepsEarned(rules: Rules, d: Desk, m: Move, side: Side, key: string, k: nat, now: int)
    requires Cfg(rules, side).Valid() && Cfg(rules, side).maxFailures >= 1 && OnTime(m, now)
    requires k >= 1 && Flying(d, side, key) <= k && KeyEarned(rules, d, side, key, k, now)
    requires m.Turn? && m.i < |d.attempts| && Notes(d.attempts[m.i], side) && KeyOf(d.attempts[m.i], side) == key
    ensures KeyEarned(rules, Moved(rules, d, m), side, key, k, m.at)
  {
    var a := d.attempts[m.i];
    assert FlightOn(side, key)(a);
    CountPositive(d.attempts, m.i, FlightOn(side, key));
    FlyingAfterTurn(rules, d, m, side, key);
    if !a.good {
      FailureIsEarned(Cfg(rules, side), Table(d.g, side), key, k, Flying(d, side, key), now, m.at);
    }
  }

  /** A turn that records nothing for the key. */
  lemma TurnKeepsEarned(rules: Rules, d: Desk, m: Move, side: Side, key: string, k: nat, now: int)
    requires Cfg(rules, side).Valid() && OnTime(m, now) && k >= 1 && KeyEarned(rules, d, side, key, k, now)
    requires m.Turn? && m.i < |d.attempts| && !(Notes(d.attempts[m.i], side) && KeyOf(d.attempts[m.i], side) == key)
    requires Flying(Moved(rules, d, m), side, key) <= k
    ensures KeyEarned(rules, Moved(rules, d, m), side, key, k, m.at)
  {
    var a, d', st := d.attempts[m.i], Moved(rules, d, m), Table(d.g, side);
    assert SameFor(Table(d'.g, side), st, key);
    FlyingAfterTurn(rules, d, m, side, key);
    if key in st {
      if InFlightOn(d'.attempts[m.i], side, key) && !InFlightOn(a, side, key) {
        assert Allowed(st, key, m.at);
        PassingGivesRoom(Cfg(rules, side), st[key], k, Flying(d', side, key), now, m.at);
      } else {
        LaterStillEarned(Cfg(rules, side), st[key], k, Flying(d, side, key), Flying(d', side, key), now, m.at);
      }
    }
  }

  /** A new attempt, a sweep, or the turn of nobody. */
  lemma OtherMoveKeepsEarned(rules: Rules, d: Desk, m: Move, side: Side, key: string, k: nat, now: int)
    requires OnTime(m, now) && k >= 1 && KeyEarned(rules, d, side, key, k, now)
    requires !m.Turn? || m.i >= |d.attempts|
    ensures KeyEarned(rules, Moved(rules, d, m), side, key, k, TimeOf(m, now))
  {
    if m.Come? { CountAppend(d.attempts, Attempt(m.login, m.good, AskingIP), FlightOn(side, key)); }
    var st, c := Table(d.g, side), Flying(d, side, key);
    if key in st { LaterStillEarned(Cfg(rules, side), st[key], k, c, c, now, TimeOf(m, now)); }
  }

  lemma MoveKeepsEarned(rules: Rules, d: Desk, m: Move, side: Side, key: string, k: nat, now: int)
    requires Cfg(rules, side).Valid() && Cfg(rules, side).maxFailures >= 1 && OnTime(m, now)
    requires k >= 1 && KeyEarned(rules, d, side, key, k, now)
    requires Flying(d, side, key) <= k && Flying(Moved(rules, d, m), side, key) <= k
    ensures KeyEarned(rules, Moved(rules, d, m), side, key, k, TimeOf(m, now))
  {
    if !m.Turn? || m.i >= |d.attempts| {
      OtherMoveKeepsEarned(rules, d, m, side, key, k, now);
    } else if Notes(d.attempts[m.i], side) && KeyOf(d.attempts[m.i], side) == key {
      NoteKeepsEarned(rules, d, m, side, key, k, now);
    } else {
      TurnKeepsEarned(rules, d, m, side, key, k, now);
    }
  }

  lemma {:induction false} RunKeepsEarned(rules: Rules, d: Desk, moves: seq<Move>, side: Side, key: string, k: nat,
                                          now: int) returns (end: int)
    requires Cfg(rules, side).Valid() && Cfg(rules, side).maxFailures >= 1 && k >= 1
    requires KeyEarned(rules, d, side, key, k, now) && Clocked(now, moves) && AtMost(rules, d, moves, side, key, k)
    ensures KeyEarned(rules, Run(rules, d, moves), side, key, k, end)
    decreases |moves|
  {
    if moves == [] {
      end := now;
    } else {
      MoveKeepsEarned(rules, d, moves[0], side, key, k, now);
      end := RunKeepsEarned(rules, Moved(rules, d, moves[0]), moves[1..], side, key, k, TimeOf(moves[0], now));
    }
  }

  /** The waiting that a key's recorded failures have cost, with k attempts at a time, fits in one window. */
  predicate FitsWindow(cfg: Config, s: Attempts, k: nat)
    requires k >= 1
  {
    s.failures >= cfg.maxFailures ==> cfg.lockout * Waits(k, Excess(cfg, s.failures) - k) <= cfg.window
  }

  /** In every run in which at most k attempts on one address (or one user) are in flight at once, however all others
      interleave, progressive lockout bounds the multiplier that key reaches.  For k == 1, when the attempts on the
      key do not overlap, the waits are those of all smaller multipliers. */
  lemma LockoutBoundsFailures(rules: Rules, start: int, moves: seq<Move>, side: Side, key: string, k: nat)
    requires Cfg(rules, side).Valid() && Cfg(rules, side).maxFailures >= 1 && k >= 1
    requires Clocked(start, moves) && AtMost(rules, EMPTY, moves, side, key, k)
    ensures var st := Table(Run(rules, EMPTY, moves).g, side);
      key in st ==> FitsWindow(Cfg(rules, side), st[key], k)
  {
    var end := RunKeepsEarned(rules, EMPTY, moves, side, key, k, start);
  }

  // ---------------------------------------------------------------- the gateway's constants

  const SECOND := 1_000_000_000

  /** authMaxFailures, authWindow and authLockout. */
  const GATEWAY := Config(5, 60 * SECOND, 10 * SECOND)

  const GATEWAY_RULES := Rules(GATEWAY, GATEWAY)

  /** The lockouts of the gateway: none for the first four failures of a window, then 10 seconds, 20, 30 and so on, up
      to 320 from the 36th failure on. */
  lemma GatewayLockouts(s: Attempts, now: int)
    requires s.failures >= 0
    ensures var n := s.failures + 1;
      var seconds := if n < 36 then 10 * (n - 4) else 320;
      var s' := Counted(GATEWAY, s, now);
      && s'.failures == n
      && (n <= 4 ==> s'.lockedUntil == s.lockedUntil)
      && (n >= 5 ==> s'.lockedUntil == Some(now + seconds * 1_000_000_000))
  {
  }

  /** One window of the gateway records at most eight failures for an address or user whose attempts do not overlap,
      and at most k + 10 if up to k of them are in flight at once. */
  lemma AtMostEightFailures(start: int, moves: seq<Move>, side: Side, key: string, k: nat)
    requires k >= 1 && Clocked(start, moves) && AtMost(GATEWAY_RULES, EMPTY, moves, side, key, k)
    ensures var st := Table(Run(GATEWAY_RULES, EMPTY, moves).g, side);
      key in st ==> st[key].failures <= if k == 1 then 8 else k + 10
  {
    LockoutBoundsFailures(GATEWAY_RULES, start, moves, side, key, k);
    var st := Table(Run(GATEWAY_RULES, EMPTY, moves).g, side);
    if key in st {
      if k == 1 && st[key].failures > 8 {
        FourLockoutsAreTooLong(st[key]);
      } else if st[key].failures > k + 10 {
        SevenUnitsAreTooLong(st[key], k);
      }
    }
  }

  lemma FourLockoutsAreTooLong(s: Attempts)
    requires s.failures > 8
    ensures !FitsWindow(GATEWAY, s, 1)
  {
    WaitsGrow(1, 4, Excess(GATEWAY, s.failures) - 1);
    assert Waits(1, 4) == 10 by {
      assert Waits(1, 2) == 3;
    }
  }

  lemma SevenUnitsAreTooLong(s: Attempts, k: nat)
    requires k >= 1 && s.failures > k + 10
    ensures !FitsWindow(GATEWAY, s, k)
  {
    WaitsGrow(k, 7, Excess(GATEWAY, s.failures) - k);
    assert Waits(k, 7) >= Capped(7);
  }

  // ---------------------------------------------------------------- attempts one after the other

  datatype Call = Call(login: Login, good: bool, t: Times)

  function AllWhole(n: nat, calls: seq<Call>): seq<Move>
    decreases |calls|
  {
    if calls == [] then [] else Whole(calls[0].login, calls[0].good, n, calls[0].t) + AllWhole(n + 1, calls[1..])
  }

  function AfterAll(rules: Rules, g: Guard, calls: seq<Call>): Guard
    decreases |calls|
  {
    if calls == [] then g
    else AfterAll(rules, Noted(rules, g, calls[0].login, calls[0].t, calls[0].good), calls[1..])
  }

  predicate CallsInOrder(now: int, calls: seq<Call>)
    decreases |calls|
  {
    calls == [] || (now <= calls[0].t.askIP && calls[0].t.InOrder() && CallsInOrder(calls[0].t.noteUser, calls[1..]))
  }

  predicate AllDone(attempts: seq<Attempt>) {
    forall a :: a in attempts ==> a.stage.Finished?
  }

  lemma AtMostCons(rules: Rules, d: Desk, m: Move, rest: seq<Move>, side: Side, key: string, k: nat)
    requires Flying(d, side, key) <= k && AtMost(rules, Moved(rules, d, m), rest, side, key, k)
    ensures AtMost(rules, d, [m] + rest, side, key, k)
  {
    assert ([m] + rest)[1..] == rest;
  }

  /** With all others done, only the last attempt can be in flight. */
  lemma LastIsAlone(rules: Rules, g: Guard, attempts: seq<Attempt>, a: Attempt, at: int, rest: seq<Move>,
                    side: Side, key: string)
    requires AllDone(attempts)
    requires var d' := Desk(NextGuard(rules, g, a, at), attempts + [a.(stage := NextStage(g, a, at))]);
      AtMost(rules, d', rest, side, key, 1)
    ensures AtMost(rules, Desk(g, attempts + [a]), [Turn(|attempts|, at)] + rest, side, key, 1)
  {
    CountNone(attempts, FlightOn(side, key));
    CountAppend(attempts, a, FlightOn(side, key));
    TurnLast(rules, g, attempts, a, at);
    AtMostCons(rules, Desk(g, attempts + [a]), Turn(|attempts|, at), rest, side, key, 1);
  }

  function Turns(n: nat, t: Times, rest: seq<Move>): seq<Move> {
    [Turn(n, t.askIP)] + ([Turn(n, t.askUser)] + ([Turn(n, t.noteIP)] + ([Turn(n, t.noteUser)] + rest)))
  }

  lemma WholeUnfolds(login: Login, good: bool, n: nat, t: Times, rest: seq<Move>)
    ensures Whole(login, good, n, t) + rest == [Come(login, good)] + Turns(n, t, rest)
  {
  }

  lemma TurnsAreAlone(rules: Rules, d: Desk, login: Login, good: bool, t: Times, rest: seq<Move>,
                      side: Side, key: string)
    requires AllDone(d.attempts)
    requires var done := Attempt(login, good, Finished(Judged(d.g, login, t, good)));
      AtMost(rules, Desk(Noted(rules, d.g, login, t, good), d.attempts + [done]), rest, side, key, 1)
    ensures AtMost(rules, Moved(rules, d, Come(login, good)), Turns(|d.attempts|, t, rest), side, key, 1)
  {
    StagesEnd(rules, d.g, login, good, t);
    var n := |d.attempts|;
    var (a1, a2, g3, a3) := Stages(rules, d.g, login, good, t);
    var r4 := [Turn(n, t.noteUser)] + rest;
    var r3 := [Turn(n, t.noteIP)] + r4;
    LastIsAlone(rules, g3, d.attempts, a3, t.noteUser, rest, side, key);
    LastIsAlone(rules, d.g, d.attempts, a2, t.noteIP, r4, side, key);
    LastIsAlone(rules, d.g, d.attempts, a1, t.askUser, r3, side, key);
    LastIsAlone(rules, d.g, d.attempts, Attempt(login, good, AskingIP), t.askIP, [Turn(n, t.askUser)] + r3, side, key);
  }

  lemma AttemptIsAlone(rules: Rules, d: Desk, login: Login, good: bool, t: Times, rest: seq<Move>,
                       side: Side, key: string)
    requires AllDone(d.attempts)
    requires var done := Attempt(login, good, Finished(Judged(d.g, login, t, good)));
      AtMost(rules, Desk(Noted(rules, d.g, login, t, good), d.attempts + [done]), rest, side, key, 1)
    ensures AtMost(rules, d, Whole(login, good, |d.attempts|, t) + rest, side, key, 1)
  {
    var n := |d.attempts|;
    TurnsAreAlone(rules, d, login, good, t, rest, side, key);
    CountNone(d.attempts, FlightOn(side, key));
    AtMostCons(rules, d, Come(login, good), Turns(n, t, rest), side, key, 1);
    WholeUnfolds(login, good, n, t, rest);
  }

  lemma ClockedCons(now: int, m: Move, rest: seq<Move>)
    requires OnTime(m, now) && Clocked(TimeOf(m, now), rest)
    ensures Clocked(now, [m] + rest)
  {
    assert ([m] + rest)[1..] == rest;
  }

  lemma WholeIsClocked(now: int, login: Login, good: bool, n: nat, t: Times, rest: seq<Move>)
    requires now <= t.askIP && t.InOrder() && Clocked(t.noteUser, rest)
    ensures Clocked(now, Whole(login, good, n, t) + rest)
  {
    var r4 := [Turn(n, t.noteUser)] + rest;
    var r3 := [Turn(n, t.noteIP)] + r4;
    var r2 := [Turn(n, t.askUser)] + r3;
    var r1 := [Turn(n, t.askIP)] + r2;
    ClockedCons(t.noteIP, Turn(n, t.noteUser), rest);
    ClockedCons(t.askUser, Turn(n, t.noteIP), r4);
    ClockedCons(t.askIP, Turn(n, t.askUser), r3);
    ClockedCons(now, Turn(n, t.askIP), r2);
    ClockedCons(now, Come(login, good), r1);
    WholeUnfolds(login, good, n, t, rest);
  }

  /** Calls of Authenticate one after the other are a run in which no key's attempts overlap, and the limiters end
      as those calls leave them; so the bound holds of them. */
  lemma {:induction false} SerialCallsDoNotOverlap(rules: Rules, d: Desk, calls: seq<Call>, now: int,
                                                   side: Side, key: string)
    requires AllDone(d.attempts) && CallsInOrder(now, calls)
    ensures var moves := AllWhole(|d.attempts|, calls);
      && Run(rules, d, moves).g == AfterAll(rules, d.g, calls)
      && Clocked(now, moves) && AtMost(rules, d, moves, side, key, 1)
    decreases |calls|
  {
    CountNone(d.attempts, FlightOn(side, key));
    if calls != [] {
      var c, n := calls[0], |d.attempts|;
      var rest := AllWhole(n + 1, calls[1..]);
      AttemptAlone(rules, d, c.login, c.good, c.t);
      var d' := Run(rules, d, Whole(c.login, c.good, n, c.t));
      SerialCallsDoNotOverlap(rules, d', calls[1..], c.t.noteUser, side, key);
      RunConcat(rules, d, Whole(c.login, c.good, n, c.t), rest);
      WholeIsClocked(now, c.login, c.good, n, c.t, rest);
      AttemptIsAlone(rules, d, c.login, c.good, c.t, rest, side, key);
    }
  }

  /** A wrong password at second `t`. */
  function WrongAt(t: int): Call {
    var at := t * SECOND;
    Call(Login("ip", "user", ""), false, Times(at, at, at, at))
  }

  function OneKey(failures: int, lockedUntil: Option<int>, lastActivity: int): Guard {
    var s := Attempts(failures, 0, lockedUntil, lastActivity);
    Guard(map["ip" := s], map["user" := s])
  }

  lemma WrongFirst(g: Guard, t: int, next: Guard, later: seq<Call>)
    requires Noted(GATEWAY_RULES, g, WrongAt(t).login, WrongAt(t).t, false) == next
    ensures AfterAll(GATEWAY_RULES, g, [WrongAt(t)] + later) == AfterAll(GATEWAY_RULES, next, later)
  {
    assert ([WrongAt(t)] + later)[1..] == later;
  }

  /** Five failures at once start the first lockout. */
  lemma FiveAtOnce(later: seq<Call>)
    ensures var c := WrongAt(0);
      AfterAll(GATEWAY_RULES, EMPTY.g, [c] + ([c] + ([c] + ([c] + ([c] + later)))))
      == AfterAll(GATEWAY_RULES, OneKey(5, Some(10 * SECOND), 0), later)
  {
    var c := WrongAt(0);
    var l4 := [c] + later;
    var l3 := [c] + l4;
    var l2 := [c] + l3;
    WrongFirst(EMPTY.g, 0, OneKey(1, None, 0), [c] + l2);
    WrongFirst(OneKey(1, None, 0), 0, OneKey(2, None, 0), l2);
    WrongFirst(OneKey(2, None, 0), 0, OneKey(3, None, 0), l3);
    WrongFirst(OneKey(3, None, 0), 0, OneKey(4, None, 0), l4);
    WrongFirst(OneKey(4, None, 0), 0, OneKey(5, Some(10 * SECOND), 0), later);
  }

  /** Then one more at the end of each lockout. */
  lemma ThreeMore()
    ensures AfterAll(GATEWAY_RULES, OneKey(5, Some(10 * SECOND), 0), [WrongAt(10), WrongAt(30), WrongAt(60)])
      == OneKey(8, Some(100 * SECOND), 60 * SECOND)
  {
    var c30, c60 := WrongAt(30), WrongAt(60);
    WrongFirst(OneKey(5, Some(10 * SECOND), 0), 10, OneKey(6, Some(30 * SECOND), 10 * SECOND), [c30, c60]);
    WrongFirst(OneKey(6, Some(30 * SECOND), 10 * SECOND), 30, OneKey(7, Some(60 * SECOND), 30 * SECOND), [c60]);
    WrongFirst(OneKey(7, Some(60 * SECOND), 30 * SECOND), 60, OneKey(8, Some(100 * SECOND), 60 * SECOND), []);
  }

  lemma InOrderCons(now: int, c: Call, later: seq<Call>)
    requires now <= c.t.askIP && c.t.InOrder() && CallsInOrder(c.t.noteUser, later)
    ensures CallsInOrder(now, [c] + later)
  {
    assert ([c] + later)[1..] == later;
  }

  lemma EightInOrder()
    ensures var c := WrongAt(0);
      CallsInOrder(0, [c] + ([c] + ([c] + ([c] + ([c] + [WrongAt(10), WrongAt(30), WrongAt(60)])))))
  {
    var c := WrongAt(0);
    InOrderCons(30 * SECOND, WrongAt(60), []);
    InOrderCons(10 * SECOND, WrongAt(30), [WrongAt(60)]);
    var l5 := [WrongAt(10), WrongAt(30), WrongAt(60)];
    InOrderCons(0, WrongAt(10), [WrongAt(30), WrongAt(60)]);
    InOrderCons(0, c, l5);
    InOrderCons(0, c, [c] + l5);
    InOrderCons(0, c, [c] + ([c] + l5));
    InOrderCons(0, c, [c] + ([c] + ([c] + l5)));
    InOrderCons(0, c, [c] + ([c] + ([c] + ([c] + l5))));
  }

  /** Eight is reached. */
  lemma EightFailuresHappen()
    ensures var c := WrongAt(0);
      var calls := [c, c, c, c, c, WrongAt(10), WrongAt(30), WrongAt(60)];
      CallsInOrder(0, calls) && AfterAll(GATEWAY_RULES, EMPTY.g, calls) == OneKey(8, Some(100 * SECOND), 60 * SECOND)
  {
    var c, later := WrongAt(0), [WrongAt(10), WrongAt(30), WrongAt(60)];
    FiveAtOnce(later);
    ThreeMore();
    EightInOrder();
    assert [c] + ([c] + ([c] + ([c] + ([c] + later)))) == [c, c, c, c, c, WrongAt(10), WrongAt(30), WrongAt(60)];
  }

  // ---------------------------------------------------------------- attempts that overlap

  /** `n` attempts, each of which asks both limiters. */
  function AskAll(login: Login, n: nat, at: int): seq<Move> {
    if n == 0 then [] else AskAll(login, n - 1, at) + [Come(login, false), Turn(n - 1, at), Turn(n - 1, at)]
  }

  /** The first `n` attempts record their results. */
  function NoteAll(n: nat, at: int): seq<Move> {
    if n == 0 then [] else NoteAll(n - 1, at) + [Turn(n - 1, at), Turn(n - 1, at)]
  }

  /** `total` attempts, of which the first `done` have failed and the others are about to. */
  function Queue(login: Login, total: nat, done: nat): seq<Attempt> {
    seq(total, i => Attempt(login, false, if i < done then Finished(InvalidCredentials) else NotingIP))
  }

  lemma {:induction false} AllAreLetThrough(rules: Rules, login: Login, n: nat, at: int)
    ensures Run(rules, EMPTY, AskAll(login, n, at)) == Desk(EMPTY.g, Queue(login, n, 0))
  {
    if n == 0 {
      assert Queue(login, 0, 0) == [];
    } else {
      AllAreLetThrough(rules, login, n - 1, at);
      var q, a := Queue(login, n - 1, 0), Attempt(login, false, AskingIP);
      var m := Turn(n - 1, at);
      RunConcat(rules, EMPTY, AskAll(login, n - 1, at), [Come(login, false), m, m]);
      RunCons(rules, Desk(EMPTY.g, q), Come(login, false), [m, m]);
      RunCons(rules, Desk(EMPTY.g, q + [a]), m, [m]);
      TurnLast(rules, EMPTY.g, q, a, at);
      RunCons(rules, Desk(EMPTY.g, q + [a.(stage := AskingUser)]), m, []);
      TurnLast(rules, EMPTY.g, q, a.(stage := AskingUser), at);
      assert Queue(login, n, 0) == q + [a.(stage := NotingIP)];
    }
  }

  predicate CountsTo(st: State, key: string, n: nat, at: int) {
    if n == 0 then st == map[] else key in st && st[key].failures == n && st[key].windowStart == at
  }

  lemma OneMoreIsCounted(cfg: Config, st: State, key: string, n: nat, at: int)
    requires cfg.Valid() && CountsTo(st, key, n, at)
    ensures CountsTo(Failed(cfg, st, key, at), key, n + 1, at)
  {
  }

  lemma {:induction false} AllAreNoted(rules: Rules, login: Login, total: nat, n: nat, at: int)
    requires rules.byIP.Valid() && rules.byUser.Valid() && n <= total
    ensures var d := Run(rules, Desk(EMPTY.g, Queue(login, total, 0)), NoteAll(n, at));
      && d.attempts == Queue(login, total, n)
      && CountsTo(d.g.byIP, login.clientIP, n, at) && CountsTo(d.g.byUser, login.username, n, at)
  {
    if n > 0 {
      AllAreNoted(rules, login, total, n - 1, at);
      var d0, m := Desk(EMPTY.g, Queue(login, total, 0)), Turn(n - 1, at);
      var d := Run(rules, d0, NoteAll(n - 1, at));
      RunConcat(rules, d0, NoteAll(n - 1, at), [m, m]);
      RunCons(rules, d, m, [m]);
      RunCons(rules, Moved(rules, d, m), m, []);
      OneMoreIsCounted(rules.byIP, d.g.byIP, login.clientIP, n - 1, at);
      OneMoreIsCounted(rules.byUser, d.g.byUser, login.username, n - 1, at);
      assert Moved(rules, Moved(rules, d, m), m).attempts == Queue(login, total, n);
    }
  }

  /** Without the condition there is no bound: any number of attempts on one address and user that all ask before
      any of them records its failure are all let through, and all counted in one window. */
  lemma OverlappingAttemptsAreUnbounded(rules: Rules, login: Login, n: nat, at: int)
    requires rules.byIP.Valid() && rules.byUser.Valid() && n > 0
    ensures var g := Run(rules, EMPTY, AskAll(login, n, at) + NoteAll(n, at)).g;
      && login.clientIP in g.byIP && g.byIP[login.clientIP].failures == n && g.byIP[login.clientIP].windowStart == at
      && login.username in g.byUser && g.byUser[login.username].failures == n
      && g.byUser[login.username].windowStart == at
  {
    RunConcat(rules, EMPTY, AskAll(login, n, at), NoteAll(n, at));
    AllAreLetThrough(rules, login, n, at);
    AllAreNoted(rules, login, n, n, at);
  }

  // ---------------------------------------------------------------- every reachable entry is sound

  predicate BothSound(rules: Rules, g: Guard, now: int) {
    Sound(rules.byIP, g.byIP, now) && Sound(rules.byUser, g.byUser, now)
  }

  lemma MoveKeepsSound(rules: Rules, d: Desk, m: Move, now: int)
    requires rules.byIP.Valid() && rules.byUser.Valid() && BothSound(rules, d.g, now) && OnTime(m, now)
    ensures BothSound(rules, Moved(rules, d, m).g, TimeOf(m, now))
  {
    if m.Turn? && m.i < |d.attempts| {
      match d.attempts[m.i].stage
      case NotingIP => FailedKeepsSound(rules.byIP, d.g.byIP, KeyOf(d.attempts[m.i], IP), now, m.at);
      case NotingUser => FailedKeepsSound(rules.byUser, d.g.byUser, KeyOf(d.attempts[m.i], User), now, m.at);
      case _ =>
    }
  }

  /** In particular every lockout in a reachable state is bounded by the key's last activity. */
  lemma {:induction false} RunKeepsSound(rules: Rules, d: Desk, moves: seq<Move>, now: int) returns (end: int)
    requires rules.byIP.Valid() && rules.byUser.Valid() && BothSound(rules, d.g, now) && Clocked(now, moves)
    ensures BothSound(rules, Run(rules, d, moves).g, end)
    decreases |moves|
  {
    if moves == [] {
      end := now;
    } else {
      MoveKeepsSound(rules, d, moves[0], now);
      end := RunKeepsSound(rules, Moved(rules, d, moves[0]), moves[1..], TimeOf(moves[0], now));
    }
  }

  // ---------------------------------------------------------------- a locked key

  predicate LockedUntil(rules: Rules, g: Guard, side: Side, key: string, until: int) {
    var st := Table(g, side);
    key in st && st[key].lockedUntil == Some(until) && LockBounded(Cfg(rules, side), st[key])
  }

  /** The attempt has not got past the limiter of this side: it has yet to ask there, or has been refused. */
  predicate Outside(a: Attempt, side: Side) {
    a.stage.AskingIP? || (side.User? && a.stage.AskingUser?) || a.stage == Finished(RateLimited)
  }

  predicate NoneInFlight(d: Desk, side: Side, key: string) {
    forall j :: 0 <= j < |d.attempts| ==> !InFlightOn(d.attempts[j], side, key)
  }

  /** Attempts on the key that were outside, or come later, are outside. */
  predicate StayOutside(d: Desk, d': Desk, side: Side, key: string) {
    |d.attempts| <= |d'.attempts| &&
    forall j :: 0 <= j < |d'.attempts| && KeyOf(d'.attempts[j], side) == key ==>
      Outside(d'.attempts[j], side)
      || (j < |d.attempts| && KeyOf(d.attempts[j], side) == key && !Outside(d.attempts[j], side))
  }

  lemma TurnKeepsLock(rules: Rules, d: Desk, m: Move, side: Side, key: string, until: int)
    requires LockedUntil(rules, d.g, side, key, until) && NoneInFlight(d, side, key)
    requires m.Turn? && m.i < |d.attempts| && m.at < until
    ensures var d' := Moved(rules, d, m);
      && SameFor(Table(d.g, side), Table(d'.g, side), key)
      && NoneInFlight(d', side, key) && StayOutside(d, d', side, key)
  {
    var a, d' := d.attempts[m.i], Moved(rules, d, m);
    assert !InFlightOn(a, side, key);
    assert KeyOf(d'.attempts[m.i], side) == KeyOf(a, side);
  }

  lemma TidyKeepsLock(rules: Rules, d: Desk, m: Move, side: Side, key: string, until: int)
    requires Cfg(rules, side).Valid() && LockedUntil(rules, d.g, side, key, until) && m.Tidy? && m.cutoff <= until
    ensures SameFor(Table(d.g, side), Table(Moved(rules, d, m).g, side), key)
  {
  }

  lemma MoveKeepsLock(rules: Rules, d: Desk, m: Move, side: Side, key: string, until: int, now: int)
    requires Cfg(rules, side).Valid() && LockedUntil(rules, d.g, side, key, until) && NoneInFlight(d, side, key)
    requires OnTime(m, now) && (!m.Come? ==> m.at < until)
    ensures var d' := Moved(rules, d, m);
      && SameFor(Table(d.g, side), Table(d'.g, side), key)
      && NoneInFlight(d', side, key) && StayOutside(d, d', side, key)
  {
    if m.Turn? && m.i < |d.attempts| {
      TurnKeepsLock(rules, d, m, side, key, until);
    } else if m.Tidy? {
      TidyKeepsLock(rules, d, m, side, key, until);
    }
  }

  lemma LockedAskerIsRefused(rules: Rules, d: Desk, i: nat, at: int, side: Side, until: int)
    requires i < |d.attempts| && Asks(d.attempts[i], side) && at < until
    requires LockedUntil(rules, d.g, side, KeyOf(d.attempts[i], side), until)
    ensures Moved(rules, d, Turn(i, at)) == Refuses(d, i)
  {
  }

  /** Attempt i is told RateLimited, and nothing else happens. */
  function Refuses(d: Desk, i: nat): Desk
    requires i < |d.attempts|
  {
    d.(attempts := d.attempts[i := d.attempts[i].(stage := Finished(RateLimited))])
  }

  /** A locked address or user with no attempt in flight: in every run before the lockout ends, however attempts
      on all keys come, interleave, succeed and fail, and whenever the limiters sweep, no attempt on that key gets
      past its limiter, what is recorded for the key is neither extended, shortened nor forgotten, and whoever
      asks about it at any point is refused at once, with no other effect. */
  lemma {:induction false} LockedAttemptsAreInert(rules: Rules, d: Desk, moves: seq<Move>, side: Side, key: string,
                                                  until: int, now: int)
    requires Cfg(rules, side).Valid() && LockedUntil(rules, d.g, side, key, until) && NoneInFlight(d, side, key)
    requires Clocked(now, moves) && forall m :: m in moves && !m.Come? ==> m.at < until
    ensures var d' := Run(rules, d, moves);
      && SameFor(Table(d.g, side), Table(d'.g, side), key)
      && NoneInFlight(d', side, key) && StayOutside(d, d', side, key)
      && forall i: nat, at ::
           i < |d'.attempts| && Asks(d'.attempts[i], side) && KeyOf(d'.attempts[i], side) == key && at < until ==>
             Moved(rules, d', Turn(i, at)) == Refuses(d', i)
    decreases |moves|
  {
    if moves == [] {
      forall i: nat, at
        | i < |d.attempts| && Asks(d.attempts[i], side) && KeyOf(d.attempts[i], side) == key && at < until
        ensures Moved(rules, d, Turn(i, at)) == Refuses(d, i)
      {
        LockedAskerIsRefused(rules, d, i, at, side, until);
      }
    } else {
      assert moves[0] in moves;
      MoveKeepsLock(rules, d, moves[0], side, key, until, now);
      LockedAttemptsAreInert(rules, Moved(rules, d, moves[0]), moves[1..], side, key, until, TimeOf(moves[0], now));
    }
  }

  /** That none is in flight is needed: an attempt that was let through earlier changes what is recorded for the key
      when its turn comes, locked or not, and one that succeeds ends the lockout. */
  lemma InFlightAttemptDisturbs(rules: Rules, d: Desk, i: nat, at: int, side: Side)
    requires i < |d.attempts| && Notes(d.attempts[i], side) && Cfg(rules, side).Valid()
    requires KeyOf(d.attempts[i], side) in Table(d.g, side)
    ensures var key, st' := KeyOf(d.attempts[i], side), Table(Moved(rules, d, Turn(i, at)).g, side);
      !SameFor(Table(d.g, side), st', key) && (d.attempts[i].good ==> key !in st')
  {
  }

  // ---------------------------------------------------------------- sweeps decide nothing

  function WithoutSweeps(moves: seq<Move>): seq<Move> {
    if moves == [] then [] else (if moves[0].Tidy? then [] else [moves[0]]) + WithoutSweeps(moves[1..])
  }

  /** The same attempts at the same points, before limiters that differ by stale entries only. */
  predicate Alike(rules: Rules, lean: Desk, full: Desk, now: int) {
    && lean.attempts == full.attempts
    && Agrees(rules.byIP, lean.g.byIP, full.g.byIP, now)
    && Agrees(rules.byUser, lean.g.byUser, full.g.byUser, now)
  }

  lemma RecordKeepsAgreement(cfg: Config, lean: State, full: State, now: int, key: string, good: bool, at: int)
    requires cfg.Valid() && Agrees(cfg, lean, full, now) && now <= at
    ensures Agrees(cfg, Recorded(cfg, lean, key, good, at), Recorded(cfg, full, key, good, at), at)
  {
    EffectKeepsAgreement(cfg, lean, full, now, if good then Success(key, at) else Failure(key, at), false);
  }

  lemma WaitingKeepsAgreement(cfg: Config, lean: State, full: State, now: int, key: string, at: int)
    requires cfg.Valid() && Agrees(cfg, lean, full, now) && now <= at
    ensures Agrees(cfg, lean, full, at) && Allowed(lean, key, at) == Allowed(full, key, at)
  {
    EffectKeepsAgreement(cfg, lean, full, now, Allow(key, at), false);
  }

  lemma TurnKeepsAlike(rules: Rules, lean: Desk, full: Desk, m: Move, now: int)
    requires rules.byIP.Valid() && rules.byUser.Valid() && Alike(rules, lean, full, now) && OnTime(m, now) && m.Turn?
    ensures Alike(rules, Moved(rules, lean, m), Moved(rules, full, m), m.at)
  {
    var key := if m.i < |lean.attempts| then KeyOf(lean.attempts[m.i], IP) else "";
    var user := if m.i < |lean.attempts| then KeyOf(lean.attempts[m.i], User) else "";
    WaitingKeepsAgreement(rules.byIP, lean.g.byIP, full.g.byIP, now, key, m.at);
    WaitingKeepsAgreement(rules.byUser, lean.g.byUser, full.g.byUser, now, user, m.at);
    if m.i < |lean.attempts| {
      var good := lean.attempts[m.i].good;
      RecordKeepsAgreement(rules.byIP, lean.g.byIP, full.g.byIP, now, key, good, m.at);
      RecordKeepsAgreement(rules.byUser, lean.g.byUser, full.g.byUser, now, user, good, m.at);
    }
  }

  lemma TidyKeepsAlike(rules: Rules, lean: Desk, full: Desk, m: Move, now: int)
    requires rules.byIP.Valid() && rules.byUser.Valid() && Alike(rules, lean, full, now) && OnTime(m, now) && m.Tidy?
    ensures Alike(rules, Moved(rules, lean, m), full, m.at)
  {
    WaitingKeepsAgreement(rules.byIP, lean.g.byIP, full.g.byIP, now, "", m.at);
    WaitingKeepsAgreement(rules.byUser, lean.g.byUser, full.g.byUser, now, "", m.at);
  }

  lemma {:induction false} AlikeRunsAlike(rules: Rules, lean: Desk, full: Desk, moves: seq<Move>, now: int)
    requires rules.byIP.Valid() && rules.byUser.Valid() && Alike(rules, lean, full, now) && Clocked(now, moves)
    ensures Run(rules, lean, moves).attempts == Run(rules, full, WithoutSweeps(moves)).attempts
    decreases |moves|
  {
    if moves != [] {
      var m, rest := moves[0], WithoutSweeps(moves[1..]);
      if m.Tidy? {
        TidyKeepsAlike(rules, lean, full, m, now);
        assert WithoutSweeps(moves) == [] + rest == rest;
        AlikeRunsAlike(rules, Moved(rules, lean, m), full, moves[1..], m.at);
      } else {
        if m.Turn? { TurnKeepsAlike(rules, lean, full, m, now); }
        RunCons(rules, full, m, rest);
        AlikeRunsAlike(rules, Moved(rules, lean, m), Moved(rules, full, m), moves[1..], TimeOf(m, now));
      }
    }
  }

  /** In every run, the sweeps of both limiters change no verdict of any attempt. */
  lemma SweepsDecideNothing(rules: Rules, moves: seq<Move>, start: int)
    requires rules.byIP.Valid() && rules.byUser.Valid() && Clocked(start, moves)
    ensures Run(rules, EMPTY, moves).attempts == Run(rules, EMPTY, WithoutSweeps(moves)).attempts
  {
    AlikeRunsAlike(rules, EMPTY, EMPTY, moves, start);
  }

  /** A call of Authenticate that ends in RateLimited cannot be observed afterwards, even if it made either limiter
      sweep: every attempt of every later run gets the verdict that it would have got without that call. */
  lemma RefusalCannotBeObserved(rules: Rules, entry: Desk, before: Guard, login: Login, t: Times, good: bool,
                                cutoffIP: int, cutoffUser: int, moves: seq<Move>)
    requires rules.byIP.Valid() && rules.byUser.Valid()
    requires Sound(rules.byIP, entry.g.byIP, t.askUser) && Sound(rules.byUser, entry.g.byUser, t.askUser)
    requires cutoffIP <= t.askUser && cutoffUser <= t.askUser
    requires before.byIP == entry.g.byIP || before.byIP == Swept(rules.byIP, entry.g.byIP, cutoffIP)
    requires before.byUser == entry.g.byUser || before.byUser == Swept(rules.byUser, entry.g.byUser, cutoffUser)
    requires Judged(before, login, t, good) == RateLimited && Clocked(t.askUser, moves)
    ensures Run(rules, Desk(Noted(rules, before, login, t, good), entry.attempts), moves).attempts
      == Run(rules, entry, moves).attempts
  {
    AlikeRunsAlike(rules, Desk(before, entry.attempts), entry, moves, t.askUser);
    AlikeRunsAlike(rules, entry, entry, moves, t.askUser);
  }
}
