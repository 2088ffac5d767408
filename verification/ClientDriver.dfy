/**
  internal/ftpserver/clientdriver.go, beginUpload and beginDownload, and the end of the handles they give out:
  the gate, the gauges and the handle objects, against the step system of `Transfers`.
 */
module ClientDriver {
  import opened Wrappers
  import opened Remote
  import opened Gates
  import opened Uploads
  import opened Downloads
  import T = Transfers

  /** The gate of `user` and the gauge are those of `s`. */
  ghost predicate Shows(s: T.State, user: string, gate: ConcurrencyGate, active: Gauge)
    reads gate, active
  {
    && T.Inv(s) && user in s.limits && user in s.inUse
    && s.limits[user] == gate.max && s.inUse[user] == gate.slots && s.active == active.value
  }

  /** A handle between calls shows transfer `t`. */
  predicate Tracks(t: T.Transfer, closed: bool, reports: nat, released: bool) {
    t.handed && t.closed == closed && t.reports == reports && t.released == released && (t.stage.Open? || t.stage.Gone?)
  }

  /** The newest transfer is the user's, behind a fresh handle. */
  predicate LastTracks(s: T.State, i: nat, user: string) {
    |s.transfers| == i + 1 && s.transfers[i].user == user && Tracks(s.transfers[i], false, 0, false)
  }

  /** The slot and the gauge of a transfer that the policy permits. */
  method Reserve(gate: ConcurrencyGate, active: Gauge) returns (r: Option<Reservation>)
    requires gate.Valid()
    modifies gate, active
    ensures gate.Valid() && (r.Some? <==> old(gate.slots) < gate.max)
    ensures r.Some? ==> fresh(r.value) && !r.value.released && r.value.gate == gate && r.value.active == active
    ensures gate.slots == old(gate.slots) + (if r.Some? then 1 else 0)
    ensures active.value == old(active.value) + (if r.Some? then 1 else 0)
  {
    var ok := gate.TryAcquire();
    if !ok {
      return None;
    }
    active.value := active.value + 1;
    var reservation := new Reservation(gate, active);
    return Some(reservation);
  }

  lemma BeginsAlone(s: T.State, user: string, opens: bool)
    requires T.Inv(s) && user in s.limits && user in s.inUse
    ensures var s' := T.Run(s, T.Begins(user, |s.transfers|, opens));
      var extra := if opens && s.inUse[user] < s.limits[user] then 1 else 0;
      && T.Inv(s') && s'.limits == s.limits && user in s'.inUse
      && s'.inUse[user] == s.inUse[user] + extra && s'.active == s.active + extra
      && (extra == 1 ==> LastTracks(s', |s.transfers|, user))
  {
    T.RunKeepsInv(s, T.Begins(user, |s.transfers|, opens));
    if s.inUse[user] >= s.limits[user] {
      T.RefusedAlone(s, user, opens);
    } else if opens {
      T.OpensAlone(s, user);
    } else {
      T.FailsAlone(s, user);
    }
  }

  /** NewUpload with the reservation made for it, which is given back if there is no handle. */
  method OpenUpload(fs: Client, target: Path, opts: Options, pending: Gauge, reservation: Reservation)
    returns (r: Option<UploadHandle>)
    requires !reservation.released && reservation.active != pending
    modifies fs, pending, reservation, reservation.gate, reservation.active
    ensures var w := Settle(World(Begun(target, opts, fs.posix), old(fs.files), old(fs.faults)));
      fs.files == w.files && fs.faults == w.faults && (r.Some? <==> w.u.stage.Streaming?)
    ensures r.Some? ==>
      && fresh(r.value) && r.value.Valid() && !r.value.closed && r.value.fs == fs && r.value.reservation == reservation
      && r.value.View() == Begun(target, opts, fs.posix).(stage := Streaming)
    ensures pending.value == old(pending.value) + (if r.Some? then 1 else 0)
    ensures reservation.gate.slots
      == (if r.Some? then old(reservation.gate.slots) else Less(old(reservation.gate.slots)))
    ensures reservation.active.value == old(reservation.active.value) - (if r.Some? then 0 else 1)
  {
    pending.value := pending.value + 1;
    var upload := NewUpload(fs, target, opts, reservation);
    if upload.Ok? {
      return Some(upload.value);
    }
    pending.value := pending.value - 1;
    reservation.Release();
    return None;
  }

  /** `permitted` is the verdict of the policy, and that it is no APPE.  An upload that is not permitted or over the
      limit sends no request; one that NewUpload refuses leaves gate and gauges as they were. */
  method BeginUpload(fs: Client, target: Path, opts: Options, gate: ConcurrencyGate, active: Gauge, pending: Gauge,
                     permitted: bool, ghost s: T.State, ghost user: string) returns (r: Option<UploadHandle>)
    requires active != pending && Shows(s, user, gate, active)
    modifies fs, gate, active, pending
    ensures !permitted || old(gate.slots) >= gate.max ==>
      r.None? && fs.files == old(fs.files) && fs.faults == old(fs.faults)
    ensures permitted && old(gate.slots) < gate.max ==>
      var w := Settle(World(Begun(target, opts, fs.posix), old(fs.files), old(fs.faults)));
      fs.files == w.files && fs.faults == w.faults && (r.Some? <==> w.u.stage.Streaming?)
    ensures r.Some? ==>
      && fresh(r.value) && fresh(r.value.reservation) && r.value.Valid() && !r.value.closed && r.value.fs == fs
      && r.value.reservation.gate == gate && r.value.reservation.active == active
      && r.value.View() == Begun(target, opts, fs.posix).(stage := Streaming)
    ensures pending.value == old(pending.value) + (if r.Some? then 1 else 0)
    ensures Shows(if permitted then T.Run(s, T.Begins(user, |s.transfers|, r.Some?)) else s, user, gate, active)
    ensures r.Some? ==> LastTracks(T.Run(s, T.Begins(user, |s.transfers|, true)), |s.transfers|, user)
  {
    if !permitted {
      return None;
    }
    assert T.Conserved(s, user);
    var reservation := Reserve(gate, active);
    if reservation.None? {
      BeginsAlone(s, user, false);
      return None;
    }
    r := OpenUpload(fs, target, opts, pending, reservation.value);
    BeginsAlone(s, user, r.Some?);
  }

  /** The same for a download, which has no temporary file. */
  method BeginDownload(fs: Client, path: Path, hashing: bool, gate: ConcurrencyGate, active: Gauge,
                       permitted: bool, ghost s: T.State, ghost user: string) returns (r: Option<DownloadHandle>)
    requires Shows(s, user, gate, active)
    modifies fs`faults, gate, active
    ensures !permitted || old(gate.slots) >= gate.max ==> r.None? && fs.faults == old(fs.faults)
    ensures permitted && old(gate.slots) < gate.max ==> (r.Some? <==> OpenError(fs.files, path, old(fs.faults)).None?)
    ensures r.Some? ==>
      && fresh(r.value) && fresh(r.value.reservation) && r.value.Valid() && r.value.Untouched()
      && r.value.reservation.gate == gate && r.value.reservation.active == active
      && path in fs.files && r.value.content == fs.files[path] && r.value.hashing == hashing
    ensures Shows(if permitted then T.Run(s, T.Begins(user, |s.transfers|, r.Some?)) else s, user, gate, active)
    ensures r.Some? ==> LastTracks(T.Run(s, T.Begins(user, |s.transfers|, true)), |s.transfers|, user)
  {
    if !permitted {
      return None;
    }
    assert T.Conserved(s, user);
    var reservation := Reserve(gate, active);
    if reservation.None? {
      BeginsAlone(s, user, false);
      return None;
    }
    var download := NewDownload(fs, path, hashing, reservation.value);
    BeginsAlone(s, user, download.Ok?);
    if download.Err? {
      reservation.value.Release();
      return None;
    }
    return Some(download.value);
  }

  /** One call of Close in the step system. */
  lemma CloseOnce(s: T.State, i: nat, closed: bool, reports: nat, released: bool)
    requires T.Inv(s) && i < |s.transfers| && Tracks(s.transfers[i], closed, reports, released)
    ensures var s', user := T.Run(s, T.Closes(i)), s.transfers[i].user;
      && T.Inv(s') && s'.limits == s.limits && user in s.inUse && user in s'.inUse
      && i < |s'.transfers| && s'.transfers[i].user == user && Tracks(s'.transfers[i], true, 1, true)
      && s'.active == s.active - (if closed then 0 else 1)
      && s'.inUse[user] == (if closed then s.inUse[user] else Less(s.inUse[user]))
  {
    assert s.transfers[i] in s.transfers && T.OnceEach(s.transfers[i]);
    T.RunKeepsInv(s, T.Closes(i));
    if closed {
      T.CloseAgain(s, i);
    } else {
      T.SlotIsThere(s, i);
      T.CloseAlone(s, i);
    }
  }

  /** Close of an upload handle, with the metric of recordTransfer: the first call reports once and gives back the slot
      and both counts, later ones do nothing; each is a run of the step system. */
  method FinishUpload(h: UploadHandle, pending: Gauge, ghost s: T.State, ghost i: nat) returns (error: Option<Error>)
    requires h.Valid() && h.reservation.active != pending && i < |s.transfers|
    requires Shows(s, s.transfers[i].user, h.reservation.gate, h.reservation.active)
    requires Tracks(s.transfers[i], h.closed, |h.reports|, h.reservation.released)
    modifies h, h.fs, h.reservation, h.reservation.gate, h.reservation.active, pending
    ensures h.Valid() && h.closed
    ensures !old(h.closed) ==>
      World(h.View(), h.fs.files, h.fs.faults) == ClosedRun(World(old(h.View()), old(h.fs.files), old(h.fs.faults)))
    ensures error == (if old(h.closed) then None else h.reports[0].error)
    ensures pending.value == old(pending.value) - (if old(h.closed) then 0 else 1)
    ensures var s' := T.Run(s, T.Closes(i));
      && i < |s'.transfers| && Tracks(s'.transfers[i], h.closed, |h.reports|, h.reservation.released)
      && Shows(s', s.transfers[i].user, h.reservation.gate, h.reservation.active)
  {
    CloseOnce(s, i, h.closed, |h.reports|, h.reservation.released);
    var first := !h.closed;
    error := h.Close();
    if first {
      pending.value := pending.value - 1;
    }
  }

  /** Close of a download handle. */
  method FinishDownload(h: DownloadHandle, f: Fault, ghost s: T.State, ghost i: nat) returns (error: Option<Error>)
    requires h.Valid() && i < |s.transfers|
    requires Shows(s, s.transfers[i].user, h.reservation.gate, h.reservation.active)
    requires Tracks(s.transfers[i], h.closed, |h.reports|, h.reservation.released)
    modifies h, h.reservation, h.reservation.gate, h.reservation.active
    ensures h.Valid() && h.closed && h.hashed == old(h.hashed)
    ensures h.failed == old(h.failed) && h.failErr == old(h.failErr)
    ensures !old(h.closed) ==>
      && error == h.reports[0].error && (h.reports[0].phase.Committed? <==> !h.failed && f.Healthy?)
      && error == (if h.mishaps != [] then Kept(h.mishaps) else if f.Failing? then Some(f.error) else None)
    ensures h.mishaps == old(h.mishaps)
    ensures var s' := T.Run(s, T.Closes(i));
      && i < |s'.transfers| && Tracks(s'.transfers[i], h.closed, |h.reports|, h.reservation.released)
      && Shows(s', s.transfers[i].user, h.reservation.gate, h.reservation.active)
  {
    CloseOnce(s, i, h.closed, |h.reports|, h.reservation.released);
    error := h.Close(f);
  }
}
