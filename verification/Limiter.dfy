/**
  internal/auth/limiter.go: failure windows with progressive lockout per key, and the sweep
  that forgets stale keys.  Time is an integer passed to each operation; the zero
  `lockedUntil` of the source is `None`.
 */
module Limiter {
  import opened Wrappers

  datatype Config = Config(maxFailures: int, window: int, lockout: int) {
    predicate Valid() {
      window >= 0 && lockout >= 0
    }
  }

  datatype Attempts = Attempts(failures: int, windowStart: int, lockedUntil: Option<int>, lastActivity: int)

  type State = map<string, Attempts>

  const MAX_MULTIPLIER := 32

  const SWEEP_EVERY := 256

  // ---------------------------------------------------------------- the operations as functions

  predicate Allowed(st: State, key: string, now: int) {
    key !in st || st[key].lockedUntil.None? || now >= st[key].lockedUntil.value
  }

  function Capped(n: int): int {
    if n > MAX_MULTIPLIER then MAX_MULTIPLIER else n
  }

  /** How far past the threshold a key is; 1 at the failure that reaches it. */
  function Excess(cfg: Config, failures: int): int {
    failures - cfg.maxFailures + 1
  }

  function Counted(cfg: Config, s: Attempts, now: int): Attempts {
    var bumped := s.(failures := s.failures + 1, lastActivity := now);
    if bumped.failures < cfg.maxFailures then bumped
    else bumped.(lockedUntil := Some(now + cfg.lockout * Capped(Excess(cfg, bumped.failures))))
  }

  function Failed(cfg: Config, st: State, key: string, now: int): State {
    var s := if key !in st || now - st[key].windowStart > cfg.window then Attempts(0, now, None, now) else st[key];
    st[key := Counted(cfg, s, now)]
  }

  function Cleared(st: State, key: string): State {
    st - {key}
  }

  predicate Stale(cfg: Config, s: Attempts, now: int) {
    s.lastActivity < now - (cfg.window + cfg.lockout * MAX_MULTIPLIER)
  }

  function Swept(cfg: Config, st: State, cutoffNow: int): State {
    map k | k in st && !Stale(cfg, st[k], cutoffNow) :: st[k]
  }

  // ---------------------------------------------------------------- what every reachable entry satisfies

  predicate LockBounded(cfg: Config, s: Attempts) {
    s.lockedUntil.Some? ==> s.lockedUntil.value <= s.lastActivity + cfg.lockout * MAX_MULTIPLIER
  }

  predicate Sound(cfg: Config, st: State, now: int) {
    forall k :: k in st ==>
      st[k].windowStart <= st[k].lastActivity <= now && LockBounded(cfg, st[k])
  }

  lemma FailedKeepsSound(cfg: Config, st: State, key: string, before: int, now: int)
    requires cfg.Valid() && Sound(cfg, st, before) && before <= now
    ensures Sound(cfg, Failed(cfg, st, key, now), now)
  {
  }

  // ---------------------------------------------------------------- the limiter object

  class Limiter {
    var state: State
    var calls: nat
    const cfg: Config

    ghost predicate Valid(now: int)
      reads this
    {
      cfg.Valid() && Sound(cfg, state, now)
    }

    constructor (maxFailures: int, window: int, lockout: int)
      requires window >= 0 && lockout >= 0
      ensures cfg == Config(maxFailures, window, lockout) && state == map[] && calls == 0
      ensures forall now :: Valid(now)
    {
      state, calls, cfg := map[], 0, Config(maxFailures, window, lockout);
    }

    /** `cutoffNow` is the clock when the cutoff is computed, `clock(key)` the later reading
        taken for each entry.  The result does not depend on those readings: the second test
        of the source is implied by the first. */
    method SweepOccasionally(cutoffNow: int, clock: string -> int)
      requires cfg.Valid() && (forall k :: k in state ==> LockBounded(cfg, state[k]))
      requires forall k :: clock(k) >= cutoffNow
      modifies this
      ensures calls == (old(calls) + 1) % 0x1_0000_0000_0000_0000
      ensures state == if calls % SWEEP_EVERY == 0 then Swept(cfg, old(state), cutoffNow) else old(state)
      ensures calls % 256 != 0 ==> state == old(state)
      ensures forall k :: k in state ==> k in old(state) && state[k] == old(state)[k]
      ensures calls % 256 == 0 ==> forall k :: k in old(state) ==>
        (k in state <==> old(state)[k].lastActivity >= cutoffNow - (cfg.window + cfg.lockout * 32))
    {
      calls := (calls + 1) % 0x1_0000_0000_0000_0000;
      if calls % SWEEP_EVERY != 0 {
        return;
      }
      var cutoff := cutoffNow - (cfg.window + cfg.lockout * 32);
      ghost var was := state;
      var pending := state.Keys;
      while pending != {}
        invariant calls == (old(calls) + 1) % 0x1_0000_0000_0000_0000
        invariant pending <= was.Keys
        invariant state == map k | k in was && (k in pending || !Stale(cfg, was[k], cutoffNow)) :: was[k]
        decreases |pending|
      {
        var key :| key in pending;
        var s := state[key];
        assert s == was[key];
        if s.lastActivity < cutoff && (s.lockedUntil.None? || clock(key) > s.lockedUntil.value) {
          state := state - {key};
        }
        pending := pending - {key};
      }
    }

    method Allow(key: string, cutoffNow: int, clock: string -> int, now: int) returns (ok: bool)
      requires Valid(now) && (forall k :: cutoffNow <= clock(k))
      modifies this
      ensures Valid(now)
      ensures calls == (old(calls) + 1) % 0x1_0000_0000_0000_0000
      ensures state == if calls % SWEEP_EVERY == 0 then Swept(cfg, old(state), cutoffNow) else old(state)
      ensures ok <==> Allowed(state, key, now)
      ensures !ok <==> key in state && state[key].lockedUntil.Some? && now < state[key].lockedUntil.value
    {
      SweepOccasionally(cutoffNow, clock);
      if key !in state {
        return true;
      }
      var s := state[key];
      if s.lockedUntil.Some? && now < s.lockedUntil.value {
        return false;
      }
      return true;
    }

    method RecordFailure(key: string, ghost before: int, now: int)
      requires Valid(before) && before <= now
      modifies this`state
      ensures Valid(now) && state == Failed(cfg, old(state), key, now)
      ensures state.Keys == old(state).Keys + {key}
      ensures forall k :: k in old(state) && k != key ==> state[k] == old(state)[k]
      ensures var restarts := key !in old(state) || now - old(state)[key].windowStart > cfg.window;
        var e := state[key];
        var beyond := e.failures - cfg.maxFailures + 1;
        && e.failures == (if restarts then 1 else old(state)[key].failures + 1)
        && e.windowStart == (if restarts then now else old(state)[key].windowStart) && e.lastActivity == now
        && e.lockedUntil == (if beyond >= 1 then Some(now + cfg.lockout * (if beyond > 32 then 32 else beyond))
                             else if restarts then None else old(state)[key].lockedUntil)
    {
      FailedKeepsSound(cfg, state, key, before, now);
      if key !in state || now - state[key].windowStart > cfg.window {
        state := state[key := Attempts(0, now, None, now)];
      }
      var s := CountOne(state[key], now);
      state := state[key := s];
    }

    /** The failure is counted, and from the threshold on it locks the key. */
    method CountOne(was: Attempts, now: int) returns (s: Attempts)
      ensures s == Counted(cfg, was, now)
    {
      s := was.(failures := was.failures + 1, lastActivity := now);
      if s.failures >= cfg.maxFailures {
        var multiplier := s.failures - cfg.maxFailures + 1;
        if multiplier > 32 {
          multiplier := 32;
        }
        s := s.(lockedUntil := Some(now + cfg.lockout * multiplier));
      }
    }

    method RecordSuccess(key: string, ghost now: int)
      requires Valid(now)
      modifies this`state
      ensures Valid(now) && state == Cleared(old(state), key)
      ensures key !in state
      ensures forall k :: k != key ==>
        (k in state <==> k in old(state)) && (k in state ==> state[k] == old(state)[k])
    {
      state := state - {key};
    }
  }

  // ---------------------------------------------------------------- the sweep is invisible

  /** One critical section of a limiter.  A sweep carries the clock of its cutoff, which may
      be older than the moment it runs. */
  datatype Event =
    | Allow(key: string, at: int)
    | Failure(key: string, at: int)
    | Success(key: string, at: int)
    | Sweep(cutoff: int, at: int)

  /** The clock never runs backwards. */
  predicate Ordered(now: int, events: seq<Event>)
    decreases |events|
  {
    events == [] ||
    (now <= events[0].at && (events[0].Sweep? ==> events[0].cutoff <= events[0].at)
     && Ordered(events[0].at, events[1..]))
  }

  function Effect(cfg: Config, st: State, e: Event, sweeping: bool): State {
    match e
    case Allow(_, _) => st
    case Failure(key, at) => Failed(cfg, st, key, at)
    case Success(key, _) => Cleared(st, key)
    case Sweep(cutoff, _) => if sweeping then Swept(cfg, st, cutoff) else st
  }

  /** What the callers of Allow are told in the course of a run. */
  function Answers(cfg: Config, st: State, events: seq<Event>, sweeping: bool): seq<bool>
    decreases |events|
  {
    if events == [] then []
    else
      var e := events[0];
      (if e.Allow? then [Allowed(st, e.key, e.at)] else [])
      + Answers(cfg, Effect(cfg, st, e, sweeping), events[1..], sweeping)
  }

  /** `lean` is `full` without some keys that have been idle beyond every window and lockout. */
  predicate Agrees(cfg: Config, lean: State, full: State, now: int) {
    && Sound(cfg, full, now)
    && (forall k :: k in lean ==> k in full && lean[k] == full[k])
    && (forall k :: k in full && k !in lean ==> Stale(cfg, full[k], now))
  }

  lemma EffectKeepsAgreement(cfg: Config, lean: State, full: State, now: int, e: Event, sweeping: bool)
    requires cfg.Valid() && Agrees(cfg, lean, full, now) && Ordered(now, [e])
    ensures Agrees(cfg, Effect(cfg, lean, e, sweeping), Effect(cfg, full, e, false), e.at)
    ensures e.Allow? ==> Allowed(lean, e.key, e.at) == Allowed(full, e.key, e.at)
  {
    match e
    case Allow(_, _) =>
    case Success(_, _) =>
    case Sweep(_, _) =>
    case Failure(key, at) => FailedKeepsSound(cfg, full, key, now, at);
  }

  lemma {:induction false} AgreementGivesSameAnswers(cfg: Config, lean: State, full: State, now: int,
                                                     events: seq<Event>, sweeping: bool)
    requires cfg.Valid() && Agrees(cfg, lean, full, now) && Ordered(now, events)
    ensures Answers(cfg, lean, events, sweeping) == Answers(cfg, full, events, false)
    decreases |events|
  {
    if events != [] {
      var e := events[0];
      EffectKeepsAgreement(cfg, lean, full, now, e, sweeping);
      AgreementGivesSameAnswers(cfg, Effect(cfg, lean, e, sweeping), Effect(cfg, full, e, false), e.at,
                                events[1..], sweeping);
    }
  }

  /** Sweeping, at whatever moments, changes no answer the limiter ever gives. */
  lemma SweepIsInvisible(cfg: Config, events: seq<Event>, start: int)
    requires cfg.Valid() && Ordered(start, events)
    ensures Answers(cfg, map[], events, true) == Answers(cfg, map[], events, false)
  {
    AgreementGivesSameAnswers(cfg, map[], map[], start, events, true);
  }

  /** A swept limiter and the one before the sweep answer every continuation alike. */
  lemma SweptBehavesTheSame(cfg: Config, st: State, cutoff: int, now: int, events: seq<Event>, sweeping: bool)
    requires cfg.Valid() && Sound(cfg, st, now) && cutoff <= now && Ordered(now, events)
    ensures Answers(cfg, Swept(cfg, st, cutoff), events, sweeping) == Answers(cfg, st, events, sweeping)
  {
    AgreementGivesSameAnswers(cfg, Swept(cfg, st, cutoff), st, now, events, sweeping);
    AgreementGivesSameAnswers(cfg, st, st, now, events, sweeping);
  }

  // ---------------------------------------------------------------- keys do not influence each other

  /** What the callers asking about one key are told. */
  function AnswersTo(cfg: Config, st: State, key: string, events: seq<Event>): seq<bool>
    decreases |events|
  {
    if events == [] then []
    else
      var e := events[0];
      (if e.Allow? && e.key == key then [Allowed(st, key, e.at)] else [])
      + AnswersTo(cfg, Effect(cfg, st, e, true), key, events[1..])
  }

  predicate SameFor(a: State, b: State, key: string) {
    (key in a <==> key in b) && (key in a ==> a[key] == b[key])
  }

  /** Under the same events, only what is recorded for the key matters. */
  lemma {:induction false} OnlyTheEntryMatters(cfg: Config, a: State, b: State, key: string, events: seq<Event>)
    requires SameFor(a, b, key)
    ensures AnswersTo(cfg, a, key, events) == AnswersTo(cfg, b, key, events)
    decreases |events|
  {
    if events != [] {
      var e := events[0];
      OnlyTheEntryMatters(cfg, Effect(cfg, a, e, true), Effect(cfg, b, e, true), key, events[1..]);
    }
  }

  /** What is done to one key, without the sweeps. */
  function OnKey(events: seq<Event>, key: string): seq<Event> {
    if events == [] then []
    else (if !events[0].Sweep? && events[0].key == key then [events[0]] else []) + OnKey(events[1..], key)
  }

  /** `Agrees`, for one key. */
  predicate AgreesOn(cfg: Config, lean: State, full: State, key: string, now: int) {
    && (key in lean ==> key in full && lean[key] == full[key])
    && (key in full ==> full[key].windowStart <= full[key].lastActivity <= now && LockBounded(cfg, full[key]))
    && (key in full && key !in lean ==> Stale(cfg, full[key], now))
  }

  lemma FailureKeepsAgreementOn(cfg: Config, lean: State, full: State, key: string, now: int, at: int)
    requires cfg.Valid() && AgreesOn(cfg, lean, full, key, now) && now <= at
    ensures AgreesOn(cfg, Failed(cfg, lean, key, at), Failed(cfg, full, key, at), key, at)
  {
  }

  /** Something is done to the key. */
  lemma OwnEventKeepsAgreement(cfg: Config, lean: State, full: State, key: string, now: int, e: Event)
    requires cfg.Valid() && AgreesOn(cfg, lean, full, key, now) && now <= e.at && !e.Sweep? && e.key == key
    ensures AgreesOn(cfg, Effect(cfg, lean, e, true), Effect(cfg, full, e, true), key, e.at)
    ensures e.Allow? ==> Allowed(lean, key, e.at) == Allowed(full, key, e.at)
  {
    if e.Failure? { FailureKeepsAgreementOn(cfg, lean, full, key, now, e.at); }
  }

  /** Something is done to other keys, or a sweep. */
  lemma OtherEventKeepsAgreement(cfg: Config, lean: State, full: State, key: string, now: int, e: Event)
    requires cfg.Valid() && AgreesOn(cfg, lean, full, key, now) && Ordered(now, [e]) && (e.Sweep? || e.key != key)
    ensures AgreesOn(cfg, Effect(cfg, lean, e, true), full, key, e.at)
  {
    match e
    case Allow(_, _) =>
    case Failure(k, at) => assert SameFor(Failed(cfg, lean, k, at), lean, key);
    case Success(k, _) => assert SameFor(Cleared(lean, k), lean, key);
    case Sweep(_, _) =>
  }

  lemma {:induction false} OtherKeysDoNotMatter(cfg: Config, lean: State, full: State, key: string, now: int,
                                                events: seq<Event>)
    requires cfg.Valid() && AgreesOn(cfg, lean, full, key, now) && Ordered(now, events)
    ensures AnswersTo(cfg, lean, key, events) == AnswersTo(cfg, full, key, OnKey(events, key))
    decreases |events|
  {
    if events != [] {
      var e, rest := events[0], OnKey(events[1..], key);
      if !e.Sweep? && e.key == key {
        OwnEventKeepsAgreement(cfg, lean, full, key, now, e);
        assert ([e] + rest)[1..] == rest;
        OtherKeysDoNotMatter(cfg, Effect(cfg, lean, e, true), Effect(cfg, full, e, true), key, e.at, events[1..]);
      } else {
        OtherEventKeepsAgreement(cfg, lean, full, key, now, e);
        assert OnKey(events, key) == [] + rest == rest;
        OtherKeysDoNotMatter(cfg, Effect(cfg, lean, e, true), full, key, e.at, events[1..]);
      }
    }
  }

  /** Two runs that do the same to one key give the same answers about it, whatever each does to other keys and
      whenever each sweeps. */
  lemma KeysAreIndependent(cfg: Config, a: State, b: State, key: string, now: int, runA: seq<Event>, runB: seq<Event>)
    requires cfg.Valid() && Sound(cfg, a, now) && SameFor(a, b, key)
    requires Ordered(now, runA) && Ordered(now, runB) && OnKey(runA, key) == OnKey(runB, key)
    ensures AnswersTo(cfg, a, key, runA) == AnswersTo(cfg, b, key, runB)
  {
    OtherKeysDoNotMatter(cfg, a, a, key, now, runA);
    OtherKeysDoNotMatter(cfg, b, a, key, now, runB);
  }

  /** After a success the key is treated, from then on, like one never seen. */
  lemma SuccessStartsOver(cfg: Config, st: State, key: string, events: seq<Event>)
    ensures AnswersTo(cfg, Cleared(st, key), key, events) == AnswersTo(cfg, map[], key, events)
  {
    OnlyTheEntryMatters(cfg, Cleared(st, key), map[], key, events);
  }
}
