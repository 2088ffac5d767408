/**
  The reservation of transfer slots in beginUpload and beginDownload of
  internal/ftpserver/clientdriver.go, from the gate to the end of Close: any number of transfers of
  any users, one atomic operation at a time.
 */
module Transfers {
  import opened Wrappers
  import opened Counting

  // ---------------------------------------------------------------- transfers as a step system

  /** Where a transfer is: what begin*, the handle's Close and the release closure have done so far. */
  datatype Stage =
    | Acquired    // TryAcquire succeeded
    | Counted     // TransferActive incremented, NewUpload or NewDownload running
    | Open        // a handle exists
    | Closing     // the first Close is running
    | Reported    // OnComplete called; the deferred release is next
    | Abandoned   // NewUpload or NewDownload failed; release is next
    | Freed       // the gate's slot is back, TransferActive not yet decremented
    | Gone

  /** `handed` says whether there ever was a handle, `closed` is the flag of its Close, `released` the one that the
      release closure captures; `releases` counts gate releases, `reports` calls of OnComplete. */
  datatype Transfer = Transfer(user: string, stage: Stage, handed: bool, closed: bool, released: bool,
                               releases: nat, reports: nat) {
    predicate HoldsSlot() {
      !stage.Freed? && !stage.Gone?
    }

    predicate IsActive() {
      !stage.Acquired? && !stage.Gone?
    }
  }

  /** `misses` counts releases that found the gate empty, the no-op branch of Release. */
  datatype State = State(limits: map<string, nat>, inUse: map<string, nat>, active: int,
                         transfers: seq<Transfer>, misses: nat)

  datatype Event =
    | Begin(user: string)
    | Step(i: nat, opens: bool)   // the next operation; `opens` is the result of NewUpload or NewDownload
    | Close(i: nat)               // a call of the handle's Close, the first or a later one

  function GateRelease(s: State, user: string): State {
    if user in s.inUse && s.inUse[user] > 0 then s.(inUse := s.inUse[user := s.inUse[user] - 1])
    else s.(misses := s.misses + 1)
  }

  /** A call of the release closure: the flag decides. */
  function ReleaseCalled(s: State, i: nat): State
    requires i < |s.transfers|
  {
    var t := s.transfers[i];
    if t.released then s.(transfers := s.transfers[i := t.(stage := Gone)])
    else
      var t' := t.(stage := Freed, released := true, releases := t.releases + 1);
      GateRelease(s, t.user).(transfers := s.transfers[i := t'])
  }

  function Apply(s: State, e: Event): State {
    match e
    case Begin(user) =>
      if user !in s.limits || user !in s.inUse || s.inUse[user] >= s.limits[user] then s
      else
        s.(inUse := s.inUse[user := s.inUse[user] + 1],
           transfers := s.transfers + [Transfer(user, Acquired, false, false, false, 0, 0)])
    case Close(i) =>
      if i >= |s.transfers| || !s.transfers[i].handed || s.transfers[i].closed then s
      else s.(transfers := s.transfers[i := s.transfers[i].(closed := true, stage := Closing)])
    case Step(i, opens) =>
      if i >= |s.transfers| then s
      else
        var t := s.transfers[i];
        match t.stage
        case Acquired => s.(transfers := s.transfers[i := t.(stage := Counted)], active := s.active + 1)
        case Counted =>
          s.(transfers := s.transfers[i := t.(stage := if opens then Open else Abandoned, handed := opens)])
        case Closing => s.(transfers := s.transfers[i := t.(stage := Reported, reports := t.reports + 1)])
        case Reported => ReleaseCalled(s, i)
        case Abandoned => ReleaseCalled(s, i)
        case Freed => s.(transfers := s.transfers[i := t.(stage := Gone)], active := s.active - 1)
        case Open => s
        case Gone => s
  }

  function SlotOf(user: string): Transfer -> bool {
    (t: Transfer) => t.HoldsSlot() && t.user == user
  }

  function IsActive(): Transfer -> bool {
    (t: Transfer) => t.IsActive()
  }

  /** Released when its slot is gone and not before; reported when its Close has got that far, which only a handle
      can; and the two flags say so. */
  predicate OnceEach(t: Transfer) {
    && t.releases == (if t.stage.Freed? || t.stage.Gone? then 1 else 0)
    && t.reports == (if t.stage.Reported? || ((t.stage.Freed? || t.stage.Gone?) && t.handed) then 1 else 0)
    && (t.released <==> t.stage.Freed? || t.stage.Gone?)
    && (t.stage.Open? || t.stage.Closing? || t.stage.Reported? ==> t.handed)
    && (t.stage.Acquired? || t.stage.Counted? || t.stage.Abandoned? ==> !t.handed)
    && (t.closed <==> t.handed && !t.stage.Open?)
  }

  predicate Conserved(s: State, user: string)
    requires user in s.inUse && user in s.limits
  {
    s.inUse[user] == Count(s.transfers, SlotOf(user)) && s.inUse[user] <= s.limits[user]
  }

  ghost predicate Inv(s: State) {
    && s.limits.Keys == s.inUse.Keys
    && (forall t :: t in s.transfers ==> t.user in s.inUse && OnceEach(t))
    && (forall user :: user in s.inUse ==> Conserved(s, user))
    && s.active == Count(s.transfers, IsActive())
    && s.misses == 0
  }

  function Run(s: State, events: seq<Event>): State
    decreases |events|
  {
    if events == [] then s else Run(Apply(s, events[0]), events[1..])
  }

  /** Transfer i moved on: only its own user's count and the two totals can differ. */
  lemma MovedOn(s: State, i: nat, t': Transfer, s': State)
    requires Inv(s) && i < |s.transfers| && t'.user == s.transfers[i].user && OnceEach(t')
    requires s'.limits == s.limits && s'.inUse.Keys == s.inUse.Keys && s'.misses == 0
    requires s'.transfers == s.transfers[i := t']
    requires forall user :: user in s.inUse ==>
      s'.inUse[user] + (if SlotOf(user)(s.transfers[i]) then 1 else 0)
      == s.inUse[user] + (if SlotOf(user)(t') then 1 else 0)
    requires forall user :: user in s.inUse ==> s'.inUse[user] <= s.inUse[user]
    requires s'.active == s.active + (if t'.IsActive() then 1 else 0) - (if s.transfers[i].IsActive() then 1 else 0)
    ensures Inv(s')
  {
    CountUpdate(s.transfers, i, t', IsActive());
    forall user | user in s'.inUse
      ensures Conserved(s', user)
    {
      assert Conserved(s, user);
      CountUpdate(s.transfers, i, t', SlotOf(user));
    }
  }

  /** A transfer that holds a slot finds it in the gate. */
  lemma SlotIsThere(s: State, i: nat)
    requires Inv(s) && i < |s.transfers| && s.transfers[i].HoldsSlot()
    ensures s.transfers[i].user in s.inUse && s.inUse[s.transfers[i].user] > 0
  {
    var user := s.transfers[i].user;
    assert s.transfers[i] in s.transfers && Conserved(s, user);
    CountPositive(s.transfers, i, SlotOf(user));
  }

  lemma BeginKeepsInv(s: State, user: string)
    requires Inv(s)
    ensures Inv(Apply(s, Begin(user)))
  {
  }

  lemma StepKeepsInv(s: State, e: Event)
    requires Inv(s) && e.Step? && e.i < |s.transfers|
    ensures Inv(Apply(s, e))
  {
    var t := s.transfers[e.i];
    assert t in s.transfers && OnceEach(t);
    if t.stage.Reported? || t.stage.Abandoned? {
      SlotIsThere(s, e.i);
    }
    if !t.stage.Open? && !t.stage.Gone? {
      MovedOn(s, e.i, Apply(s, e).transfers[e.i], Apply(s, e));
    }
  }

  lemma CloseKeepsInv(s: State, e: Event)
    requires Inv(s) && e.Close?
    ensures Inv(Apply(s, e))
  {
    if e.i < |s.transfers| && s.transfers[e.i].handed && !s.transfers[e.i].closed {
      assert s.transfers[e.i] in s.transfers && OnceEach(s.transfers[e.i]);
      MovedOn(s, e.i, Apply(s, e).transfers[e.i], Apply(s, e));
    }
  }

  lemma ApplyKeepsInv(s: State, e: Event)
    requires Inv(s)
    ensures Inv(Apply(s, e))
  {
    match e
    case Begin(user) => BeginKeepsInv(s, user);
    case Close(_) => CloseKeepsInv(s, e);
    case Step(i, _) => if i < |s.transfers| { StepKeepsInv(s, e); }
  }

  lemma {:induction false} RunKeepsInv(s: State, events: seq<Event>)
    requires Inv(s)
    ensures Inv(Run(s, events))
    decreases |events|
  {
    if events != [] {
      ApplyKeepsInv(s, events[0]);
      RunKeepsInv(Apply(s, events[0]), events[1..]);
    }
  }

  function Idle(limits: map<string, nat>): (s: State)
    ensures Inv(s)
  {
    State(limits, map u | u in limits :: 0, 0, [], 0)
  }

  // ---------------------------------------------------------------- operations that nothing interrupts

  /** A run whose first event leads to `s1`. */
  lemma RunTo(s: State, e: Event, s1: State, rest: seq<Event>)
    requires Apply(s, e) == s1
    ensures Run(s, [e] + rest) == Run(s1, rest)
  {
    assert ([e] + rest)[1..] == rest;
  }

  /** What beginUpload and beginDownload do, from the gate on. */
  function Begins(user: string, i: nat, opens: bool): seq<Event> {
    [Begin(user)] + [Step(i, opens), Step(i, opens), Step(i, opens), Step(i, opens)]
  }

  /** `s` with one more transfer, and its user's gate and the gauge at these values. */
  function WithLast(s: State, t: Transfer, slots: nat, active: int): State {
    s.(inUse := s.inUse[t.user := slots], active := active, transfers := s.transfers + [t])
  }

  lemma BeginLast(s: State, user: string)
    requires user in s.limits && user in s.inUse && s.inUse[user] < s.limits[user]
    ensures Apply(s, Begin(user))
      == WithLast(s, Transfer(user, Acquired, false, false, false, 0, 0), s.inUse[user] + 1, s.active)
  {
  }

  lemma LastReplaced(transfers: seq<Transfer>, t: Transfer, t': Transfer)
    ensures (transfers + [t])[|transfers| := t'] == transfers + [t']
  {
  }

  lemma CountLast(s: State, t: Transfer, k: nat, a: int, opens: bool)
    requires t.stage.Acquired?
    ensures Apply(WithLast(s, t, k, a), Step(|s.transfers|, opens)) == WithLast(s, t.(stage := Counted), k, a + 1)
  {
    LastReplaced(s.transfers, t, t.(stage := Counted));
  }

  lemma OpenLast(s: State, t: Transfer, k: nat, a: int, opens: bool)
    requires t.stage.Counted?
    ensures var t' := t.(stage := if opens then Open else Abandoned, handed := opens);
      Apply(WithLast(s, t, k, a), Step(|s.transfers|, opens)) == WithLast(s, t', k, a)
  {
    LastReplaced(s.transfers, t, t.(stage := if opens then Open else Abandoned, handed := opens));
  }

  lemma FreeLast(s: State, t: Transfer, k: nat, a: int, opens: bool)
    requires t.stage.Abandoned? && !t.released && k > 0
    ensures var t' := t.(stage := Freed, released := true, releases := t.releases + 1);
      Apply(WithLast(s, t, k, a), Step(|s.transfers|, opens)) == WithLast(s, t', k - 1, a)
  {
    LastReplaced(s.transfers, t, t.(stage := Freed, released := true, releases := t.releases + 1));
    assert s.inUse[t.user := k][t.user := k - 1] == s.inUse[t.user := k - 1];
  }

  lemma EndLast(s: State, t: Transfer, k: nat, a: int, opens: bool)
    requires (t.stage.Freed? || t.stage.Open?)
    ensures Apply(WithLast(s, t, k, a), Step(|s.transfers|, opens))
      == if t.stage.Open? then WithLast(s, t, k, a) else WithLast(s, t.(stage := Gone), k, a - 1)
  {
    LastReplaced(s.transfers, t, t.(stage := Gone));
  }

  /** The gate lets the transfer in, and NewUpload or NewDownload succeeds. */
  lemma OpensAlone(s: State, user: string)
    requires user in s.limits && user in s.inUse && s.inUse[user] < s.limits[user]
    ensures Run(s, Begins(user, |s.transfers|, true)) ==
      WithLast(s, Transfer(user, Open, true, false, false, 0, 0), s.inUse[user] + 1, s.active + 1)
  {
    var e, k, a := Step(|s.transfers|, true), s.inUse[user] + 1, s.active;
    var t0 := Transfer(user, Acquired, false, false, false, 0, 0);
    var t1, t2 := t0.(stage := Counted), t0.(stage := Open, handed := true);
    BeginLast(s, user);
    RunTo(s, Begin(user), WithLast(s, t0, k, a), [e, e, e, e]);
    CountLast(s, t0, k, a, true);
    RunTo(WithLast(s, t0, k, a), e, WithLast(s, t1, k, a + 1), [e, e, e]);
    OpenLast(s, t1, k, a + 1, true);
    RunTo(WithLast(s, t1, k, a + 1), e, WithLast(s, t2, k, a + 1), [e, e]);
    EndLast(s, t2, k, a + 1, true);
    RunTo(WithLast(s, t2, k, a + 1), e, WithLast(s, t2, k, a + 1), [e]);
    RunTo(WithLast(s, t2, k, a + 1), e, WithLast(s, t2, k, a + 1), []);
  }

  lemma BeginsUnfolds(user: string, i: nat, opens: bool)
    ensures var e := Step(i, opens); Begins(user, i, opens) == [Begin(user)] + ([e] + ([e] + ([e] + ([e] + []))))
  {
  }

  lemma GivesUp(s: State, user: string, rest: seq<Event>)
    requires user in s.limits && user in s.inUse && s.inUse[user] < s.limits[user]
    ensures var e, k := Step(|s.transfers|, false), s.inUse[user] + 1;
      Run(s, [Begin(user)] + ([e] + ([e] + rest)))
      == Run(WithLast(s, Transfer(user, Abandoned, false, false, false, 0, 0), k, s.active + 1), rest)
  {
    var e, k, a := Step(|s.transfers|, false), s.inUse[user] + 1, s.active;
    var t0 := Transfer(user, Acquired, false, false, false, 0, 0);
    var t1, t2 := t0.(stage := Counted), t0.(stage := Abandoned);
    BeginLast(s, user);
    RunTo(s, Begin(user), WithLast(s, t0, k, a), [e] + ([e] + rest));
    CountLast(s, t0, k, a, false);
    RunTo(WithLast(s, t0, k, a), e, WithLast(s, t1, k, a + 1), [e] + rest);
    OpenLast(s, t1, k, a + 1, false);
    RunTo(WithLast(s, t1, k, a + 1), e, WithLast(s, t2, k, a + 1), rest);
  }

  lemma GivesBack(s: State, t: Transfer, k: nat, a: int)
    requires t.stage.Abandoned? && !t.released && k > 0
    ensures var e := Step(|s.transfers|, false);
      Run(WithLast(s, t, k, a), [e] + ([e] + []))
      == WithLast(s, t.(stage := Gone, released := true, releases := t.releases + 1), k - 1, a - 1)
  {
    var e, t' := Step(|s.transfers|, false), t.(stage := Freed, released := true, releases := t.releases + 1);
    FreeLast(s, t, k, a, false);
    RunTo(WithLast(s, t, k, a), e, WithLast(s, t', k - 1, a), [e] + []);
    EndLast(s, t', k - 1, a, false);
    RunTo(WithLast(s, t', k - 1, a), e, WithLast(s, t'.(stage := Gone), k - 1, a - 1), []);
  }

  /** The gate lets it in, but there is no handle: gate and gauge are back where they were. */
  lemma FailsAlone(s: State, user: string)
    requires user in s.limits && user in s.inUse && s.inUse[user] < s.limits[user]
    ensures Run(s, Begins(user, |s.transfers|, false)) ==
      WithLast(s, Transfer(user, Gone, false, false, true, 1, 0), s.inUse[user], s.active)
  {
    var e := Step(|s.transfers|, false);
    BeginsUnfolds(user, |s.transfers|, false);
    GivesUp(s, user, [e] + ([e] + []));
    GivesBack(s, Transfer(user, Abandoned, false, false, false, 0, 0), s.inUse[user] + 1, s.active + 1);
  }

  lemma RefusedAlone(s: State, user: string, opens: bool)
    requires user in s.limits && user in s.inUse && s.inUse[user] >= s.limits[user]
    ensures Run(s, Begins(user, |s.transfers|, opens)) == s
  {
    var e := Step(|s.transfers|, opens);
    RunTo(s, Begin(user), s, [e, e, e, e]);
    RunTo(s, e, s, [e, e, e]);
    RunTo(s, e, s, [e, e]);
    RunTo(s, e, s, [e]);
    RunTo(s, e, s, []);
  }

  /** One call of the handle's Close. */
  function Closes(i: nat): seq<Event> {
    [Close(i), Step(i, true), Step(i, true), Step(i, true)]
  }

  /** `s` with transfer i replaced, and its user's gate and the gauge at these values. */
  function With(s: State, i: nat, t: Transfer, slots: nat, active: int): State
    requires i < |s.transfers|
  {
    s.(inUse := s.inUse[t.user := slots], active := active, transfers := s.transfers[i := t])
  }

  lemma CloseFirst(s: State, i: nat, rest: seq<Event>)
    requires i < |s.transfers| && s.transfers[i].handed && !s.transfers[i].closed && s.transfers[i].user in s.inUse
    ensures var t := s.transfers[i];
      var s1 := With(s, i, t.(closed := true, stage := Closing), s.inUse[t.user], s.active);
      Run(s, [Close(i)] + rest) == Run(s1, rest)
  {
    var t := s.transfers[i];
    assert s.inUse[t.user := s.inUse[t.user]] == s.inUse;
    RunTo(s, Close(i), With(s, i, t.(closed := true, stage := Closing), s.inUse[t.user], s.active), rest);
  }

  lemma ReportNext(s: State, i: nat, t: Transfer, k: nat, a: int)
    requires i < |s.transfers| && t.stage.Closing?
    ensures Apply(With(s, i, t, k, a), Step(i, true))
      == With(s, i, t.(stage := Reported, reports := t.reports + 1), k, a)
  {
    assert s.transfers[i := t][i := t.(stage := Reported, reports := t.reports + 1)]
      == s.transfers[i := t.(stage := Reported, reports := t.reports + 1)];
  }

  lemma FreeNext(s: State, i: nat, t: Transfer, k: nat, a: int)
    requires i < |s.transfers| && t.stage.Reported? && !t.released && k > 0
    ensures Apply(With(s, i, t, k, a), Step(i, true))
      == With(s, i, t.(stage := Freed, released := true, releases := t.releases + 1), k - 1, a)
  {
    var t' := t.(stage := Freed, released := true, releases := t.releases + 1);
    assert s.transfers[i := t][i := t'] == s.transfers[i := t'];
    assert s.inUse[t.user := k][t.user := k - 1] == s.inUse[t.user := k - 1];
  }

  lemma EndNext(s: State, i: nat, t: Transfer, k: nat, a: int)
    requires i < |s.transfers| && t.stage.Freed?
    ensures Apply(With(s, i, t, k, a), Step(i, true)) == With(s, i, t.(stage := Gone), k, a - 1)
  {
    assert s.transfers[i := t][i := t.(stage := Gone)] == s.transfers[i := t.(stage := Gone)];
  }

  /** The first call of Close reports once and gives everything back. */
  lemma CloseAlone(s: State, i: nat)
    requires i < |s.transfers| && s.transfers[i].stage.Open? && OnceEach(s.transfers[i])
    requires s.transfers[i].user in s.inUse && s.inUse[s.transfers[i].user] > 0
    ensures var user := s.transfers[i].user;
      Run(s, Closes(i)) == With(s, i, Transfer(user, Gone, true, true, true, 1, 1), s.inUse[user] - 1, s.active - 1)
  {
    var t, e := s.transfers[i], Step(i, true);
    var k, a := s.inUse[t.user], s.active;
    var t1 := t.(closed := true, stage := Closing);
    var t2 := t1.(stage := Reported, reports := 1);
    var t3 := t2.(stage := Freed, released := true, releases := 1);
    CloseFirst(s, i, [e, e, e]);
    ReportNext(s, i, t1, k, a);
    RunTo(With(s, i, t1, k, a), e, With(s, i, t2, k, a), [e, e]);
    FreeNext(s, i, t2, k, a);
    RunTo(With(s, i, t2, k, a), e, With(s, i, t3, k - 1, a), [e]);
    EndNext(s, i, t3, k - 1, a);
    RunTo(With(s, i, t3, k - 1, a), e, With(s, i, t3.(stage := Gone), k - 1, a - 1), []);
  }

  /** A later one does nothing. */
  lemma CloseAgain(s: State, i: nat)
    requires i < |s.transfers| && s.transfers[i].closed && s.transfers[i].stage.Gone?
    ensures Run(s, Closes(i)) == s
  {
    var e := Step(i, true);
    RunTo(s, Close(i), s, [e, e, e]);
    RunTo(s, e, s, [e, e]);
    RunTo(s, e, s, [e]);
    RunTo(s, e, s, []);
  }

  /** In every run from an idle gateway: each user's gate counts exactly that user's transfers between
      acquiring and releasing, never above the limit; no release finds its gate empty; and every transfer
      releases and reports at most once, and exactly once by the end of its Close, however often Close
      is called. */
  lemma SlotsAreConserved(limits: map<string, nat>, events: seq<Event>)
    ensures var s := Run(Idle(limits), events);
      && s.misses == 0 && s.inUse.Keys == s.limits.Keys
      && (forall user :: user in s.inUse ==> Conserved(s, user))
      && (forall t :: t in s.transfers ==> OnceEach(t))
  {
    RunKeepsInv(Idle(limits), events);
  }

  // ---------------------------------------------------------------- the gauge is the sum over users

  function Sum(users: seq<string>, inUse: map<string, nat>): nat
    requires forall u :: u in users ==> u in inUse
  {
    if users == [] then 0 else inUse[users[0]] + Sum(users[1..], inUse)
  }

  function AnySlot(users: seq<string>): Transfer -> bool {
    (t: Transfer) => t.HoldsSlot() && t.user in users
  }

  /** Counting per user and adding up counts every holder once. */
  lemma {:induction false} SumCountsHolders(s: State, users: seq<string>)
    requires Inv(s) && (forall u :: u in users ==> u in s.inUse)
    requires forall i, j :: 0 <= i < j < |users| ==> users[i] != users[j]
    ensures Sum(users, s.inUse) == Count(s.transfers, AnySlot(users))
    decreases |users|
  {
    if users == [] {
      CountNone(s.transfers, AnySlot(users));
    } else {
      assert Conserved(s, users[0]);
      SumCountsHolders(s, users[1..]);
      CountSplit(s.transfers, AnySlot(users), SlotOf(users[0]), AnySlot(users[1..]));
    }
  }

  function JustAcquired(): Transfer -> bool {
    (t: Transfer) => t.stage.Acquired?
  }

  function JustFreed(): Transfer -> bool {
    (t: Transfer) => t.stage.Freed?
  }

  /** TransferActive against the gates, in every reachable state: they differ only by the transfers caught
      between the two updates, so they agree whenever no transfer is. */
  lemma ActiveIsSumOverUsers(limits: map<string, nat>, users: seq<string>, events: seq<Event>)
    requires forall u :: u in limits <==> u in users
    requires forall i, j :: 0 <= i < j < |users| ==> users[i] != users[j]
    ensures var s := Run(Idle(limits), events);
      && s.inUse.Keys == limits.Keys
      && s.active + Count(s.transfers, JustAcquired()) == Sum(users, s.inUse) + Count(s.transfers, JustFreed())
  {
    var s := Run(Idle(limits), events);
    RunKeepsInv(Idle(limits), events);
    RunKeepsLimits(Idle(limits), events);
    SumCountsHolders(s, users);
    CountSplit(s.transfers, Present(), AnySlot(users), JustFreed());
    CountSplit(s.transfers, Present(), IsActive(), JustAcquired());
  }

  function Present(): Transfer -> bool {
    (t: Transfer) => !t.stage.Gone?
  }

  lemma {:induction false} RunKeepsLimits(s: State, events: seq<Event>)
    requires Inv(s)
    ensures Run(s, events).limits == s.limits
    decreases |events|
  {
    if events != [] {
      ApplyKeepsInv(s, events[0]);
      RunKeepsLimits(Apply(s, events[0]), events[1..]);
    }
  }
}
