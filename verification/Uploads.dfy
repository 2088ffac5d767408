/**
  internal/transfer/upload.go: the life of one upload as a machine that does one remote
  primitive per step, the handle object whose methods run it without interruption, and what
  holds of a single upload whatever its caller and the server do.
 */
module Uploads {
  import opened Wrappers
  import opened Remote
  import opened Gates
  import TempNames

  datatype Phase = Committed | Failed

  /** The Result given to OnComplete; `hashed` is the input of the SHA-256. */
  datatype Report = Report(bytes: int, phase: Phase, error: Option<Error>, hashed: Option<Bytes>)

  datatype Stage =
    | Looking                                // NewUpload's Stat, symlink check
    | Probing                                // NewUpload's Stat, the request
    | Creating                               // NewUpload's CreateTemp
    | Streaming                              // handed to the FTP library
    | Committing(pc: CommitPc)               // inside Close, inside Commit
    | Checking(error: Option<Error>)         // inside Close, clean-up, symlink check
    | Removing(error: Option<Error>)         // inside Close, clean-up, remove request
    | Finished(report: Report)
    | Refused(reason: Error)                 // NewUpload failed, there is no handle

  /** The calls a handle received before Close, as its caller saw them. */
  datatype Call =
    | Sent(chunk: Bytes, n: nat, error: Option<Error>)
    | Broke(error: Option<Error>)

  /** What keeps a transfer from completing: a request on its remote file that failed, or a transfer error that the FTP
      library signalled, with or without saying which. */
  datatype Mishap = Request(error: Error) | Signal(cause: Option<Error>)

  function LastRequest(ms: seq<Mishap>): Option<Error> {
    if ms == [] then None
    else if ms[|ms| - 1].Request? then Some(ms[|ms| - 1].error)
    else LastRequest(ms[..|ms| - 1])
  }

  function FirstCause(ms: seq<Mishap>): Option<Error> {
    if ms == [] then None
    else if ms[0].Signal? && ms[0].cause.Some? then ms[0].cause
    else FirstCause(ms[1..])
  }

  /** The error that a handle keeps: that of the last request that failed, or the first cause signalled if none did. */
  function Kept(ms: seq<Mishap>): Option<Error> {
    if LastRequest(ms).Some? then LastRequest(ms) else FirstCause(ms)
  }

  /** A failing request replaces the error kept so far; a signal does not. */
  lemma {:induction false} KeptAppend(ms: seq<Mishap>, m: Mishap)
    ensures Kept(ms + [m]) == if m.Request? then Some(m.error) else if Kept(ms).Some? then Kept(ms) else m.cause
  {
    assert (ms + [m])[..|ms|] == ms;
    FirstCauseAppend(ms, m);
  }

  lemma {:induction false} FirstCauseAppend(ms: seq<Mishap>, m: Mishap)
    ensures FirstCause(ms + [m]) ==
      if FirstCause(ms).Some? then FirstCause(ms) else if m.Signal? then m.cause else None
    decreases |ms|
  {
    if ms == [] {
      assert [] + [m] == [m] && [m][1..] == [];
    } else {
      assert (ms + [m])[0] == ms[0] && (ms + [m])[1..] == ms[1..] + [m];
      FirstCauseAppend(ms[1..], m);
    }
  }

  /** The calls that went wrong. */
  function Mishaps(calls: seq<Call>): seq<Mishap> {
    if calls == [] then []
    else
      var before := Mishaps(calls[..|calls| - 1]);
      match calls[|calls| - 1]
      case Sent(_, _, None) => before
      case Sent(_, _, Some(e)) => before + [Request(e)]
      case Broke(cause) => before + [Signal(cause)]
  }

  /** What is fixed when the upload begins. */
  datatype Plan = Plan(session: string, temp: Path, target: Path, overwrite: bool, posix: bool,
                       maxSize: int, hashing: bool)
  {
    function Job(): Job {
      Remote.Job(temp, target, overwrite, posix)
    }
  }

  /** What the handle keeps while it is written to; `calls` is only a history. */
  datatype Log = Log(written: int, failed: bool, failErr: Option<Error>, hashed: Bytes, calls: seq<Call>)

  datatype Upload = Upload(plan: Plan, stage: Stage, log: Log)

  datatype Options = Options(session: string, overwrite: bool, maxSize: int, hashing: bool, suffix: string)

  function PlanOf(target: Path, opts: Options, posix: bool): Plan {
    Plan(opts.session, TempNames.TempPath(target, opts.session, opts.suffix), target, opts.overwrite, posix,
         opts.maxSize, opts.hashing)
  }

  const FRESH := Log(0, false, None, [], [])

  function Begun(target: Path, opts: Options, posix: bool): Upload {
    Upload(PlanOf(target, opts, posix), if opts.overwrite then Creating else Looking, FRESH)
  }

  // ---------------------------------------------------------------- the machine

  predicate Live(u: Upload) {
    !u.stage.Finished? && !u.stage.Refused?
  }

  function ReportOf(u: Upload, phase: Phase, error: Option<Error>): Report {
    Report(u.log.written, phase, error, if u.plan.hashing then Some(u.log.hashed) else None)
  }

  function Reported(u: Upload, phase: Phase, error: Option<Error>): Upload {
    u.(stage := Finished(ReportOf(u, phase, error)))
  }

  /** The file close that begins Close. */
  function LogClosed(log: Log, f: Fault): Log {
    if f.Healthy? then log
    else log.(failed := true, failErr := if log.failErr.None? then Some(f.error) else log.failErr)
  }

  function FileClosed(u: Upload, f: Fault): Upload {
    var log := LogClosed(u.log, f);
    Upload(u.plan, if log.failed then Checking(log.failErr) else Committing(CheckLink), log)
  }

  function AfterCommitStep(u: Upload, pc: CommitPc): Upload {
    if !pc.Ended? then u.(stage := Committing(pc))
    else if pc.error.None? then Reported(u, Committed, None)
    else u.(stage := Checking(pc.error))
  }

  predicate CanStep(u: Upload) {
    Live(u) && (u.stage.Committing? ==> !u.stage.pc.Ended?)
  }

  /** The next primitive of `u`. */
  function Step(u: Upload, files: Files, f: Fault): (r: (Upload, Files))
    requires CanStep(u)
  {
    match u.stage
    case Looking =>
      (u.(stage := if LinkCheck(f).Some? then Refused(LinkCheck(f).value) else Probing), files)
    case Probing =>
      (match StatReply(files, u.plan.target, f)
       case None => u.(stage := Refused(Conflict))
       case Some(e) => u.(stage := if e == NotFound then Creating else Refused(e)), files)
    case Creating =>
      var r := Answer(files, CreateDone(files, u.plan.temp), f);
      (u.(stage := if r.error.None? then Streaming else Refused(r.error.value)), r.files)
    case Streaming => (FileClosed(u, f), files)
    case Committing(pc) =>
      var (files', pc') := CommitStep(u.plan.Job(), pc, files, f);
      (AfterCommitStep(u, pc'), files')
    case Checking(error) =>
      (if LinkCheck(f).Some? then Reported(u, Failed, error) else u.(stage := Removing(error)), files)
    case Removing(error) =>
      (Reported(u, Failed, error), Answer(files, RemoveDone(files, u.plan.temp), f).files)
  }

  /** How the remote file takes a chunk: whole; or its first `n` bytes; or so that the file is
      left with any content at all. */
  datatype WriteOutcome = Stored | Torn(n: nat, error: Error, content: Option<Bytes>) {
    predicate Honest() {
      Torn? ==> content.None?
    }
  }

  predicate Oversize(u: Upload, chunk: Bytes) {
    u.plan.maxSize > 0 && u.log.written + |chunk| > u.plan.maxSize
  }

  /** io.Writer: a short count comes with an error. */
  predicate WriterContract(chunk: Bytes, o: WriteOutcome) {
    o.Torn? ==> o.n <= |chunk|
  }

  /** The file a chunk was written to. */
  function Extended(files: Files, p: Path, chunk: Bytes, o: WriteOutcome): Files
    requires WriterContract(chunk, o)
  {
    if p !in files then files
    else match o
      case Stored => files[p := files[p] + chunk]
      case Torn(n, _, None) => files[p := files[p] + chunk[..n]]
      case Torn(_, _, Some(content)) => files[p := content]
  }

  function LogTooLarge(log: Log, chunk: Bytes): Log {
    log.(failed := true, failErr := Some(TooLarge), calls := log.calls + [Sent(chunk, 0, Some(TooLarge))])
  }

  function LogWritten(log: Log, chunk: Bytes, o: WriteOutcome): Log
    requires WriterContract(chunk, o)
  {
    match o
    case Stored =>
      Log(log.written + |chunk|, log.failed, log.failErr, log.hashed + chunk, log.calls + [Sent(chunk, |chunk|, None)])
    case Torn(n, error, _) =>
      Log(log.written + n, true, Some(error), log.hashed + chunk[..n], log.calls + [Sent(chunk, n, Some(error))])
  }

  function Wrote(u: Upload, files: Files, chunk: Bytes, o: WriteOutcome): (r: (Upload, Files))
    requires WriterContract(chunk, o)
  {
    if Oversize(u, chunk) then (u.(log := LogTooLarge(u.log, chunk)), files)
    else (u.(log := LogWritten(u.log, chunk, o)), Extended(files, u.plan.temp, chunk, o))
  }

  function LogBroken(log: Log, error: Option<Error>): Log {
    log.(failed := true, failErr := if log.failErr.None? then error else log.failErr,
         calls := log.calls + [Broke(error)])
  }

  function Errored(u: Upload, error: Option<Error>): Upload {
    u.(log := LogBroken(u.log, error))
  }

  // ---------------------------------------------------------------- runs without interruption

  function Rank(s: Stage): nat {
    match s
    case Looking => 3
    case Probing => 2
    case Creating => 1
    case Committing(pc) => 2 + CommitRank(pc)
    case Checking(_) => 2
    case Removing(_) => 1
    case _ => 0
  }

  datatype World = World(u: Upload, files: Files, faults: seq<Fault>)

  function Advance(w: World): World
    requires CanStep(w.u)
  {
    var (u', files') := Step(w.u, w.files, NextFault(w.faults));
    World(u', files', LaterFaults(w.faults))
  }

  /** The handle waits for its caller, or is done. */
  predicate Waiting(u: Upload) {
    !CanStep(u) || u.stage.Streaming?
  }

  lemma StepsDescend(u: Upload, files: Files, f: Fault)
    requires !Waiting(u)
    ensures Rank(Step(u, files, f).0.stage) < Rank(u.stage)
  {
  }

  lemma CommitStepsDescend(job: Job, pc: CommitPc, files: Files, f: Fault)
    requires !pc.Ended?
    ensures CommitRank(CommitStep(job, pc, files, f).1) < CommitRank(pc)
  {
  }

  /** Runs to the next point where the handle waits. */
  function Settle(w: World): World
    decreases Rank(w.u.stage)
  {
    if Waiting(w.u) then w
    else
      StepsDescend(w.u, w.files, NextFault(w.faults));
      Settle(Advance(w))
  }

  function ClosedRun(w: World): World
    requires w.u.stage.Streaming?
  {
    Settle(Advance(w))
  }

  // ---------------------------------------------------------------- the handle object

  /** The error of a request on a closed remote file. */
  const FILE_CLOSED := Other(0)

  class UploadHandle {
    const fs: Client
    const session: string
    const tempPath: Path
    const finalPath: Path
    const overwrite: bool
    const maxSize: int
    const hashing: bool
    const reservation: Reservation  // Release
    var written: int
    var failed: bool
    var failErr: Option<Error>
    var hashed: Bytes            // what the hasher has been fed
    var closed: bool
    var reports: seq<Report>     // calls of OnComplete
    ghost var calls: seq<Call>

    ghost predicate Valid()
      reads this, reservation
    {
      && (!closed ==> reports == [] && !reservation.released)
      && (closed ==> |reports| == 1 && reservation.released)
    }

    /** The handle as a state of the machine. */
    ghost function View(): Upload
      requires Valid()
      reads this, reservation
    {
      At(if closed then Finished(reports[0]) else Streaming)
    }

    ghost function At(stage: Stage): Upload
      reads this
    {
      Upload(Plan(session, tempPath, finalPath, overwrite, fs.posix, maxSize, hashing),
             stage, Log(written, failed, failErr, hashed, calls))
    }

    /** NewUpload once its remote requests have succeeded. */
    constructor (fs: Client, finalPath: Path, opts: Options, reservation: Reservation)
      requires !reservation.released
      ensures Valid() && !closed && this.fs == fs && this.reservation == reservation
      ensures View() == Begun(finalPath, opts, fs.posix).(stage := Streaming)
    {
      this.fs, this.session, this.finalPath := fs, opts.session, finalPath;
      tempPath := TempNames.TempPath(finalPath, opts.session, opts.suffix);
      overwrite, maxSize, hashing, this.reservation := opts.overwrite, opts.maxSize, opts.hashing, reservation;
      written, failed, failErr, hashed, closed := 0, false, None, [], false;
      reports, calls := [], [];
    }

    /** After Close the remote file is closed, so it answers with an error and takes nothing. */
    method Write(p: Bytes, o: WriteOutcome) returns (n: nat, error: Option<Error>)
      requires Valid() && WriterContract(p, o)
      modifies this, fs`files
      ensures Valid() && closed == old(closed) && reports == old(reports)
      ensures error.None? ==> n == |p|
      ensures maxSize > 0 && old(written) + |p| > maxSize ==>
        n == 0 && error == Some(TooLarge) && fs.files == old(fs.files)
      ensures (maxSize <= 0 || old(written) + |p| <= maxSize) && !closed ==>
        n == (if o.Stored? then |p| else o.n) && error == (if o.Stored? then None else Some(o.error))
      ensures failErr == (if error.Some? then error else old(failErr)) && (error.Some? ==> failed)
      ensures !closed ==> (View(), fs.files) == Wrote(old(View()), old(fs.files), p, o)
      ensures !closed ==> calls == old(calls) + [Sent(p, n, error)]
      ensures closed ==> error.Some? && n == 0 && fs.files == old(fs.files)
    {
      if maxSize > 0 && written + |p| > maxSize {
        failed, failErr := true, Some(TooLarge);
        n, error := 0, failErr;
      } else {
        n, error := WriteFile(p, o);
        written, hashed := written + n, hashed + p[..n];
        assert p[..|p|] == p;
        if error.Some? {
          failed, failErr := true, error;
        }
      }
      if !closed {
        calls := calls + [Sent(p, n, error)];
      }
    }

    /** The write on the remote file. */
    method WriteFile(p: Bytes, o: WriteOutcome) returns (n: nat, error: Option<Error>)
      requires WriterContract(p, o)
      modifies fs`files
      ensures closed ==> n == 0 && error == Some(FILE_CLOSED) && fs.files == old(fs.files)
      ensures !closed ==> fs.files == Extended(old(fs.files), tempPath, p, o)
      ensures !closed ==> n == (if o.Stored? then |p| else o.n) && error == (if o.Stored? then None else Some(o.error))
    {
      if closed {
        return 0, Some(FILE_CLOSED);
      }
      fs.files := Extended(fs.files, tempPath, p, o);
      match o {
        case Stored => return |p|, None;
        case Torn(k, e, _) => return k, Some(e);
      }
    }

    method TransferError(error: Option<Error>)
      requires Valid()
      modifies this
      ensures Valid() && closed == old(closed) && reports == old(reports)
      ensures !closed ==> View() == Errored(old(View()), error)
      ensures failed && failErr == if old(failErr).None? then error else old(failErr)
    {
      failed := true;
      if failErr.None? {
        failErr := error;
      }
      if !closed {
        calls := calls + [Broke(error)];
      }
    }

    /** Close reports and releases once, however often it is called; the first call is the machine's Close. */
    method Close() returns (error: Option<Error>)
      requires Valid()
      modifies this, fs, reservation, reservation.gate, reservation.active
      ensures Valid() && closed
      ensures old(closed) ==>
        error.None? && View() == old(View()) && fs.files == old(fs.files) && fs.faults == old(fs.faults)
      ensures old(closed) ==> reservation.gate.slots == old(reservation.gate.slots)
      ensures !old(closed) ==>
        World(View(), fs.files, fs.faults) == ClosedRun(World(old(View()), old(fs.files), old(fs.faults)))
      ensures !old(closed) ==> error == reports[0].error
      ensures !old(closed) ==> reservation.gate.slots == Less(old(reservation.gate.slots))
      ensures reservation.active.value == old(reservation.active.value) - (if old(closed) then 0 else 1)
    {
      if closed {
        return None;
      }
      closed := true;
      var f := fs.NextReply();
      if f.Failing? {
        failed := true;
        if failErr.None? {
          failErr := Some(f.error);
        }
      }
      if failed {
        error := CleanUp(failErr);
      } else {
        error := PublishOrCleanUp();
      }
      reservation.Release();
    }

    /** The commit, and the clean-up after one that failed. */
    method PublishOrCleanUp() returns (error: Option<Error>)
      requires reports == []
      modifies this`reports, fs
      ensures |reports| == 1 && error == reports[0].error
      ensures World(At(Finished(reports[0])), fs.files, fs.faults)
        == Settle(World(old(At(Committing(CheckLink))), old(fs.files), old(fs.faults)))
    {
      SettleCommit(At(Committing(CheckLink)), CheckLink, fs.files, fs.faults);
      error := fs.Commit(tempPath, finalPath, overwrite);
      if error.Some? {
        error := CleanUp(error);
      } else {
        reports := [Report(written, Committed, None, if hashing then Some(hashed) else None)];
      }
    }

    /** Best-effort removal of the temporary file, then the failure report. */
    method CleanUp(cause: Option<Error>) returns (error: Option<Error>)
      requires reports == []
      modifies this`reports, fs
      ensures |reports| == 1 && error == cause && reports[0].error == cause
      ensures World(At(Finished(reports[0])), fs.files, fs.faults)
        == Settle(World(old(At(Checking(cause))), old(fs.files), old(fs.faults)))
    {
      SettleCleanUp(At(Checking(cause)), fs.files, fs.faults);
      var ignored := fs.Remove(tempPath);
      reports := [Report(written, Failed, cause, if hashing then Some(hashed) else None)];
      error := cause;
    }
  }

  /** NewUpload: a handle, or the error of its Stat or CreateTemp. */
  method NewUpload(fs: Client, finalPath: Path, opts: Options, reservation: Reservation)
    returns (r: Result<UploadHandle, Error>)
    requires !reservation.released
    modifies fs
    ensures r.Ok? ==> fresh(r.value) && r.value.fs == fs && r.value.reservation == reservation
    ensures r.Ok? ==>
      r.value.Valid() && !r.value.closed && r.value.View() == Begun(finalPath, opts, fs.posix).(stage := Streaming)
    ensures var w := Settle(World(Begun(finalPath, opts, fs.posix), old(fs.files), old(fs.faults)));
      && fs.files == w.files && fs.faults == w.faults
      && (match r
          case Ok(h) => w.u == h.View()
          case Err(e) => w.u == Begun(finalPath, opts, fs.posix).(stage := Refused(e)))
    ensures !opts.overwrite && old(fs.faults) != [] && old(fs.faults)[0].Failing?
            && old(fs.faults)[0].error != NotFound ==>
              r == Err(old(fs.faults)[0].error) && fs.files == old(fs.files) && fs.faults == old(fs.faults)[1..]
    ensures !opts.overwrite && |old(fs.faults)| > 1 && old(fs.faults)[0].Healthy? && old(fs.faults)[1].Failing?
            && old(fs.faults)[1].error != NotFound ==>
              r == Err(old(fs.faults)[1].error) && fs.files == old(fs.files)
    ensures old(fs.faults) == [] && !opts.overwrite && finalPath in old(fs.files) ==>
      r == Err(Conflict) && fs.files == old(fs.files)
    ensures old(fs.faults) == [] && (opts.overwrite || finalPath !in old(fs.files)) ==> r.Ok?
  {
    ghost var u := Begun(finalPath, opts, fs.posix);
    if !opts.overwrite {
      SettleLooking(u, fs.files, fs.faults);
      var probe := fs.Stat(finalPath);
      if probe.None? {
        return Err(Conflict);
      } else if probe.value != NotFound {
        return Err(probe.value);
      }
    }
    SettleCreating(u.(stage := Creating), fs.files, fs.faults);
    var error := fs.CreateTemp(TempNames.TempPath(finalPath, opts.session, opts.suffix));
    if error.Some? {
      return Err(error.value);
    }
    var h := new UploadHandle(fs, finalPath, opts, reservation);
    return Ok(h);
  }

  // ---------------------------------------------------------------- settling, stage by stage

  lemma SettleOnce(w: World)
    requires !Waiting(w.u)
    ensures Settle(w) == Settle(Advance(w))
  {
  }

  lemma SettleWaiting(w: World)
    requires Waiting(w.u)
    ensures Settle(w) == w
  {
  }

  /** Clean-up: the symlink check, then the removal. */
  lemma SettleCleanUp(u: Upload, files: Files, faults: seq<Fault>)
    requires u.stage.Checking?
    ensures Settle(World(u, files, faults)) ==
      var later := LaterFaults(faults);
      if LinkCheck(NextFault(faults)).Some? then World(Reported(u, Failed, u.stage.error), files, later)
      else World(Reported(u, Failed, u.stage.error),
                 Answer(files, RemoveDone(files, u.plan.temp), NextFault(later)).files, LaterFaults(later))
  {
    var w := World(u, files, faults);
    SettleOnce(w);
    var w1 := Advance(w);
    if LinkCheck(NextFault(faults)).None? {
      SettleOnce(w1);
      SettleWaiting(Advance(w1));
    } else {
      SettleWaiting(w1);
    }
  }

  /** NewUpload's creation request. */
  lemma SettleCreating(u: Upload, files: Files, faults: seq<Fault>)
    requires u.stage.Creating?
    ensures Settle(World(u, files, faults)) == Advance(World(u, files, faults))
  {
  }

  /** NewUpload's existence test. */
  lemma SettleLooking(u: Upload, files: Files, faults: seq<Fault>)
    requires u.stage.Looking?
    ensures Settle(World(u, files, faults)) ==
      var link, later := LinkCheck(NextFault(faults)), LaterFaults(faults);
      var stat := StatReply(files, u.plan.target, NextFault(later));
      if link.Some? then World(u.(stage := Refused(link.value)), files, later)
      else if stat.None? then World(u.(stage := Refused(Conflict)), files, LaterFaults(later))
      else if stat.value != NotFound then World(u.(stage := Refused(stat.value)), files, LaterFaults(later))
      else Settle(World(u.(stage := Creating), files, LaterFaults(later)))
  {
    var w := World(u, files, faults);
    SettleOnce(w);
    var w1 := Advance(w);
    if LinkCheck(NextFault(faults)).Some? {
      SettleWaiting(w1);
    } else {
      SettleOnce(w1);
      if !Advance(w1).u.stage.Creating? { SettleWaiting(Advance(w1)); }
    }
  }

  /** Settling through the commit stages is RunCommit. */
  lemma {:induction false} SettleCommit(u: Upload, pc: CommitPc, files: Files, faults: seq<Fault>)
    requires u.stage == Committing(pc) && !pc.Ended?
    ensures var out := RunCommit(u.plan.Job(), pc, files, faults);
      Settle(World(u, files, faults))
        == if out.error.None? then World(Reported(u, Committed, None), out.files, out.faults)
           else Settle(World(u.(stage := Checking(out.error)), out.files, out.faults))
    decreases CommitRank(pc)
  {
    var (files', pc') := CommitStep(u.plan.Job(), pc, files, NextFault(faults));
    var w := World(u, files, faults);
    SettleOnce(w);
    assert Advance(w) == World(AfterCommitStep(u, pc'), files', LaterFaults(faults));
    if !pc'.Ended? {
      CommitStepsDescend(u.plan.Job(), pc, files, NextFault(faults));
      SettleCommit(u.(stage := Committing(pc')), pc', files', LaterFaults(faults));
    } else if pc'.error.None? {
      SettleWaiting(Advance(w));
    }
  }
}
