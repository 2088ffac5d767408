/**
  internal/sftpclient/client.go: the remote file tree, the SFTP primitives with the ways they
  can fail, and Commit, Rename, Remove and CreateTemp built from them.

  The tree holds regular files only.  Every primitive is one atomic step.  A failing primitive
  reports an error, and its effect may still have landed (a lost reply).
 */
module Remote {
  import opened Wrappers

  newtype byte = b: int | 0 <= b < 256

  type Path = string
  type Bytes = seq<byte>
  type Files = map<Path, Bytes>

  /** The error kinds that decide a branch; every other remote failure is `Other`. */
  datatype Error = NotFound | Conflict | TooLarge | Other(code: nat)

  /** SSH_FX_FAILURE, the answer of a plain rename onto an existing name. */
  const REFUSED := Other(4)

  datatype Fault = Healthy | Failing(error: Error, landed: bool) {
    predicate Honest() {
      Failing? ==> !landed
    }
  }

  datatype Reply = Reply(files: Files, error: Option<Error>)

  // ---------------------------------------------------------------- primitives

  function StatReply(files: Files, p: Path, f: Fault): Option<Error> {
    match f
    case Failing(e, _) => Some(e)
    case Healthy => if p in files then None else Some(NotFound)
  }

  /** checkNoEscapingSymlink where nothing is a symlink: only a failing Lstat can object. */
  function LinkCheck(f: Fault): Option<Error> {
    match f
    case Healthy => None
    case Failing(e, _) => if e == NotFound then None else Some(e)
  }

  /** What the server answers when `done` is the outcome of the request it received. */
  function Answer(files: Files, done: Reply, f: Fault): Reply {
    match f
    case Healthy => done
    case Failing(e, landed) => Reply(if landed then done.files else files, Some(e))
  }

  function Moved(files: Files, a: Path, b: Path): Files
    requires a in files
  {
    (files - {a})[b := files[a]]
  }

  function CreateDone(files: Files, p: Path): Reply {
    Reply(files[p := []], None)
  }

  function RemoveDone(files: Files, p: Path): Reply {
    if p in files then Reply(files - {p}, None) else Reply(files, Some(NotFound))
  }

  function PosixRenameDone(files: Files, a: Path, b: Path): Reply {
    if a in files then Reply(Moved(files, a, b), None) else Reply(files, Some(NotFound))
  }

  /** Plain rename refuses an existing target (section 6.5 of draft-ietf-secsh-filexfer-02). */
  function RenameDone(files: Files, a: Path, b: Path): Reply {
    if a !in files then Reply(files, Some(NotFound))
    else if b in files then Reply(files, Some(REFUSED))
    else Reply(Moved(files, a, b), None)
  }

  // ---------------------------------------------------------------- Commit, one primitive at a time

  datatype Job = Job(temp: Path, target: Path, overwrite: bool, posix: bool)

  datatype CommitPc = CheckLink | CheckTarget | ClearTarget | Publish | Ended(error: Option<Error>)

  function CommitStep(job: Job, pc: CommitPc, files: Files, f: Fault): (r: (Files, CommitPc))
    requires !pc.Ended?
  {
    match pc
    case CheckLink =>
      if LinkCheck(f).Some? then (files, Ended(LinkCheck(f)))
      else (files, if job.posix && job.overwrite then Publish else CheckTarget)
    case CheckTarget =>
      // any error, not only "no such file", counts as absent here
      if StatReply(files, job.target, f).Some? then (files, Publish)
      else if !job.overwrite then (files, Ended(Some(Conflict)))
      else (files, ClearTarget)
    case ClearTarget =>
      var r := Answer(files, RemoveDone(files, job.target), f);
      (r.files, if r.error.Some? then Ended(r.error) else Publish)
    case Publish =>
      var done := if job.posix then PosixRenameDone(files, job.temp, job.target)
                  else RenameDone(files, job.temp, job.target);
      var r := Answer(files, done, f);
      (r.files, Ended(r.error))
  }

  /** Places where a commit can be: a posix server never clears its target, and only overwriting commits do. */
  predicate CommitPcOk(job: Job, pc: CommitPc) {
    && (pc.ClearTarget? ==> job.overwrite && !job.posix)
    && (pc.CheckTarget? ==> !job.overwrite || !job.posix)
  }

  function NextFault(faults: seq<Fault>): Fault {
    if faults == [] then Healthy else faults[0]
  }

  function LaterFaults(faults: seq<Fault>): seq<Fault> {
    if faults == [] then [] else faults[1..]
  }

  function CommitRank(pc: CommitPc): nat {
    match pc
    case CheckLink => 4
    case CheckTarget => 3
    case ClearTarget => 2
    case Publish => 1
    case Ended(_) => 0
  }

  datatype Outcome = Outcome(files: Files, error: Option<Error>, faults: seq<Fault>)

  /** A commit that nobody interrupts; primitives after the listed faults are healthy. */
  function RunCommit(job: Job, pc: CommitPc, files: Files, faults: seq<Fault>): Outcome
    decreases CommitRank(pc)
  {
    if pc.Ended? then Outcome(files, pc.error, faults)
    else
      var (files', pc') := CommitStep(job, pc, files, NextFault(faults));
      RunCommit(job, pc', files', LaterFaults(faults))
  }

  // ---------------------------------------------------------------- the client object

  class Client {
    var files: Files
    var faults: seq<Fault>  // what the coming primitives will meet
    const posix: bool       // HasPosixRename

    constructor (files: Files, faults: seq<Fault>, posix: bool)
      ensures this.files == files && this.faults == faults && this.posix == posix
    {
      this.files, this.faults, this.posix := files, faults, posix;
    }

    method NextReply() returns (f: Fault)
      modifies this`faults
      ensures f == NextFault(old(faults)) && faults == LaterFaults(old(faults))
      ensures if old(faults) == [] then f == Healthy && faults == [] else [f] + faults == old(faults)
    {
      if faults == [] {
        return Healthy;
      }
      f := faults[0];
      faults := faults[1..];
    }

    /** Every error of the Lstat request but "no such file" is the error of the check. */
    method CheckNoEscapingSymlink() returns (error: Option<Error>)
      modifies this`faults
      ensures error == LinkCheck(NextFault(old(faults))) && faults == LaterFaults(old(faults))
      ensures old(faults) != [] && old(faults)[0].Failing? && old(faults)[0].error != NotFound ==>
        error == Some(old(faults)[0].error) && faults == old(faults)[1..]
      ensures old(faults) == [] || old(faults)[0].Healthy? || old(faults)[0].error == NotFound ==> error.None?
    {
      var f := NextReply();
      if f.Failing? && f.error != NotFound {
        return Some(f.error);
      }
      return None;
    }

    /** The Stat request itself, without the symlink check around it. */
    method RawStat(p: Path) returns (error: Option<Error>)
      modifies this`faults
      ensures error == StatReply(files, p, NextFault(old(faults))) && faults == LaterFaults(old(faults))
      ensures old(faults) != [] && old(faults)[0].Failing? ==> error == Some(old(faults)[0].error)
      ensures old(faults) == [] || old(faults)[0].Healthy? ==> error == if p in files then None else Some(NotFound)
    {
      var f := NextReply();
      error := StatReply(files, p, f);
    }

    method Stat(p: Path) returns (error: Option<Error>)
      modifies this`faults
      ensures old(faults) != [] && old(faults)[0].Failing? && old(faults)[0].error != NotFound ==>
        error == Some(old(faults)[0].error) && faults == old(faults)[1..]
      ensures old(faults) == [] || old(faults)[0].Healthy? || old(faults)[0].error == NotFound ==>
        var later := LaterFaults(old(faults));
        error == StatReply(files, p, NextFault(later)) && faults == LaterFaults(later)
      ensures old(faults) == [] ==> error == if p in files then None else Some(NotFound)
    {
      error := CheckNoEscapingSymlink();
      if error.Some? {
        return;
      }
      error := RawStat(p);
    }

    method Send(ghost before: Files, done: Reply) returns (error: Option<Error>)
      requires before == files
      modifies this
      ensures Reply(files, error) == Answer(before, done, NextFault(old(faults)))
      ensures faults == LaterFaults(old(faults))
      ensures old(faults) == [] || old(faults)[0].Healthy? ==> files == done.files && error == done.error
      ensures old(faults) != [] && old(faults)[0].Failing? ==>
        error == Some(old(faults)[0].error) && files == if old(faults)[0].landed then done.files else before
    {
      var f := NextReply();
      match f {
        case Healthy =>
          files, error := done.files, done.error;
        case Failing(e, landed) =>
          if landed {
            files := done.files;
          }
          error := Some(e);
      }
    }

    /** CreateTemp: create or truncate. */
    method CreateTemp(p: Path) returns (error: Option<Error>)
      modifies this
      ensures Reply(files, error) == Answer(old(files), CreateDone(old(files), p), NextFault(old(faults)))
      ensures faults == LaterFaults(old(faults))
      ensures old(faults) == [] ==> files == old(files)[p := []] && error.None?
      ensures old(faults) != [] && old(faults)[0].Failing? ==> error == Some(old(faults)[0].error)
    {
      error := Send(files, CreateDone(files, p));
    }

    /** The symlink check of the target, then the rename and what must come before it. */
    method Commit(temp: Path, target: Path, overwrite: bool) returns (error: Option<Error>)
      modifies this
      ensures Outcome(files, error, faults)
        == RunCommit(Job(temp, target, overwrite, posix), CheckLink, old(files), old(faults))
      ensures old(faults) != [] && old(faults)[0].Failing? && old(faults)[0].error != NotFound ==>
        error == Some(old(faults)[0].error) && files == old(files) && faults == old(faults)[1..]
      ensures old(faults) == [] || old(faults)[0].Healthy? || old(faults)[0].error == NotFound ==>
        Outcome(files, error, faults)
        == RunCommit(Job(temp, target, overwrite, posix),
                     if posix && overwrite then Publish else CheckTarget, old(files), LaterFaults(old(faults)))
    {
      error := CheckNoEscapingSymlink();
      if error.Some? {
        return;
      }
      error := RenameInto(temp, target, overwrite);
    }

    /** The body that Commit and Rename share. */
    method RenameInto(from: Path, target: Path, overwrite: bool) returns (error: Option<Error>)
      modifies this
      ensures Outcome(files, error, faults)
        == RunCommit(Job(from, target, overwrite, posix),
                     if posix && overwrite then Publish else CheckTarget, old(files), old(faults))
    {
      if posix {
        if !overwrite {
          error := RawStat(target);
          if error.None? {
            return Some(Conflict);
          }
        }
        error := Send(files, PosixRenameDone(files, from, target));
        return;
      }
      error := RawStat(target);
      var taken := error.None?;
      if taken && !overwrite {
        return Some(Conflict);
      }
      if taken {
        error := Send(files, RemoveDone(files, target));
        if error.Some? {
          return;
        }
      }
      error := Send(files, RenameDone(files, from, target));
    }

    /** RNFR/RNTO: the checks of both names, then the same steps as a commit. */
    method Rename(oldPath: Path, newPath: Path, overwrite: bool) returns (error: Option<Error>)
      modifies this
      ensures old(faults) != [] && old(faults)[0].Failing? && old(faults)[0].error != NotFound ==>
        error == Some(old(faults)[0].error) && files == old(files) && faults == old(faults)[1..]
      ensures old(faults) == [] || old(faults)[0].Healthy? || old(faults)[0].error == NotFound ==>
        Outcome(files, error, faults)
        == RunCommit(Job(oldPath, newPath, overwrite, posix), CheckLink, old(files), LaterFaults(old(faults)))
      ensures |old(faults)| > 1 && (old(faults)[0].Healthy? || old(faults)[0].error == NotFound) ==>
        old(faults)[1].Failing? && old(faults)[1].error != NotFound ==>
          error == Some(old(faults)[1].error) && files == old(files) && faults == old(faults)[2..]
    {
      error := CheckNoEscapingSymlink();
      if error.Some? {
        return;
      }
      error := CheckNoEscapingSymlink();
      if error.Some? {
        return;
      }
      error := RenameInto(oldPath, newPath, overwrite);
    }

    /** DELE, and the clean-up of a temporary file. */
    method Remove(p: Path) returns (error: Option<Error>)
      modifies this
      ensures old(faults) != [] && old(faults)[0].Failing? && old(faults)[0].error != NotFound ==>
        error == Some(old(faults)[0].error) && files == old(files) && faults == old(faults)[1..]
      ensures old(faults) == [] || old(faults)[0].Healthy? || old(faults)[0].error == NotFound ==>
        var later := LaterFaults(old(faults));
        && Reply(files, error) == Answer(old(files), RemoveDone(old(files), p), NextFault(later))
        && faults == LaterFaults(later)
      ensures old(faults) == [] ==>
        files == old(files) - {p} && error == if p in old(files) then None else Some(NotFound)
    {
      error := CheckNoEscapingSymlink();
      if error.Some? {
        return;
      }
      error := Send(files, RemoveDone(files, p));
    }
  }

  // ---------------------------------------------------------------- what a commit does

  /** Two trees that agree outside the given names. */
  ghost predicate SameExcept(a: Files, b: Files, names: set<Path>) {
    forall p :: p !in names ==> (p in a <==> p in b) && (p in a ==> a[p] == b[p])
  }

  /** Whatever fails, a commit touches two names; a refused one on a posix server, with
      failures that have no effect, touches none, and elsewhere it can only have cleared an
      overwritable target. */
  lemma {:induction false} CommitFrame(job: Job, pc: CommitPc, files: Files, faults: seq<Fault>)
    requires CommitPcOk(job, pc)
    ensures var out := RunCommit(job, pc, files, faults);
      && SameExcept(files, out.files, {job.temp, job.target})
      && (out.error.Some? && (forall f :: f in faults ==> f.Honest()) ==>
            out.files == files || (!job.posix && job.overwrite && out.files == files - {job.target}))
    decreases CommitRank(pc)
  {
    if !pc.Ended? {
      var (files', pc') := CommitStep(job, pc, files, NextFault(faults));
      assert faults != [] ==> faults[0] in faults;
      CommitFrame(job, pc', files', LaterFaults(faults));
      if pc.ClearTarget? && pc'.Publish? {
        assert files - {job.target} - {job.target} == files - {job.target};
      }
    }
  }

  /** A commit that reports success has moved the temporary file onto the target, under every fault. */
  lemma {:induction false} CommitSuccess(job: Job, pc: CommitPc, files: Files, faults: seq<Fault>)
    requires job.temp != job.target && !pc.Ended?
    requires RunCommit(job, pc, files, faults).error.None?
    ensures job.temp in files
    ensures RunCommit(job, pc, files, faults).files == Moved(files, job.temp, job.target)
    decreases CommitRank(pc)
  {
    var (files', pc') := CommitStep(job, pc, files, NextFault(faults));
    if !pc'.Ended? {
      CommitSuccess(job, pc', files', LaterFaults(faults));
      if pc.ClearTarget? {
        assert Moved(files - {job.target}, job.temp, job.target) == Moved(files, job.temp, job.target);
      }
    }
  }

  /** A commit without failures on a posix server. */
  lemma PosixHealthy(job: Job, files: Files)
    requires job.posix
    ensures RunCommit(job, CheckLink, files, []) ==
      if !job.overwrite && job.target in files then Outcome(files, Some(Conflict), [])
      else if job.temp in files then Outcome(Moved(files, job.temp, job.target), None, [])
      else Outcome(files, Some(NotFound), [])
  {
  }

  /** And on one without the extension: an overwritable target is removed first, come what may. */
  lemma FallbackHealthy(job: Job, files: Files)
    requires !job.posix && job.temp != job.target
    ensures RunCommit(job, CheckLink, files, []) ==
      if !job.overwrite && job.target in files then Outcome(files, Some(Conflict), [])
      else if job.temp in files then Outcome(Moved(files, job.temp, job.target), None, [])
      else Outcome(files - {job.target}, Some(NotFound), [])
  {
    if job.target !in files {
      assert files - {job.target} == files;
    } else if job.temp in files {
      assert Moved(files - {job.target}, job.temp, job.target) == Moved(files, job.temp, job.target);
    }
  }

  /** The two branches of Commit, with no failures: they reach the same tree and the same result
      exactly when there is something to publish or nothing to lose.  (With the temporary file
      gone, the fallback has already removed the target it cannot replace.) */
  lemma CommitBranchesAgree(temp: Path, target: Path, overwrite: bool, files: Files)
    requires temp != target
    ensures RunCommit(Job(temp, target, overwrite, true), CheckLink, files, [])
         == RunCommit(Job(temp, target, overwrite, false), CheckLink, files, [])
        <==> temp in files || !(overwrite && target in files)
  {
    PosixHealthy(Job(temp, target, overwrite, true), files);
    FallbackHealthy(Job(temp, target, overwrite, false), files);
    assert target in files ==> target !in files - {target};
    assert target !in files ==> files - {target} == files;
  }

  /** Without overwrite, no step of the fallback changes an existing target, under every fault
      (over whole runs: `ProtocolLaws.FallbackKeepsExistingTarget`). */
  lemma FallbackNeverReplaces(job: Job, pc: CommitPc, files: Files, f: Fault)
    requires !job.posix && !job.overwrite && job.temp != job.target
    requires CommitPcOk(job, pc) && !pc.Ended? && job.target in files
    ensures var (files', pc') := CommitStep(job, pc, files, f);
      CommitPcOk(job, pc') && job.target in files' && files'[job.target] == files[job.target]
  {
  }

  /** Without overwrite, an uninterrupted commit on a posix server replaces an existing target
      exactly when the existence test itself failed and the rename went through; and this is the error. */
  lemma PosixReplacesOnlyUntested(job: Job, files: Files, link: Fault, test: Fault, rename: Fault)
    requires job.posix && !job.overwrite && job.temp != job.target
    requires job.temp in files && job.target in files
    ensures var denied := link.Failing? && link.error != NotFound;
      var out := RunCommit(job, CheckLink, files, [link, test, rename]);
      && out.files == (if !denied && test.Failing? && !(rename.Failing? && !rename.landed)
                       then Moved(files, job.temp, job.target) else files)
      && out.error == (if denied then Some(link.error) else if test.Healthy? then Some(Conflict)
                       else if rename.Failing? then Some(rename.error) else None)
  {
  }

  /** With overwrite, it replaces the target exactly when the rename went through. */
  lemma PosixOverwrites(job: Job, files: Files, link: Fault, rename: Fault)
    requires job.posix && job.overwrite && job.temp in files
    ensures var denied := link.Failing? && link.error != NotFound;
      var out := RunCommit(job, CheckLink, files, [link, rename]);
      && out.files == (if !denied && !(rename.Failing? && !rename.landed)
                       then Moved(files, job.temp, job.target) else files)
      && out.error == (if denied then Some(link.error) else if rename.Failing? then Some(rename.error) else None)
  {
  }

  /** The overwriting fallback on an existing target: removal, then rename, each with its own reply.  If the existence
      test failed, the rename is tried on the existing target and refused. */
  lemma FallbackOverwrites(job: Job, files: Files, link: Fault, test: Fault, third: Fault, fourth: Fault)
    requires !job.posix && job.overwrite && job.temp != job.target && job.temp in files && job.target in files
    ensures var denied := link.Failing? && link.error != NotFound;
      var out := RunCommit(job, CheckLink, files, [link, test, third, fourth]);
      && out.error == (if denied then Some(link.error)
                       else if third.Failing? then Some(third.error)
                       else if test.Failing? then Some(REFUSED)
                       else if fourth.Failing? then Some(fourth.error) else None)
      && out.files == (if denied || test.Failing? || (third.Failing? && !third.landed) then files
                       else if third.Failing? || (fourth.Failing? && !fourth.landed) then files - {job.target}
                       else Moved(files, job.temp, job.target))
  {
    var faults := [link, test, third, fourth];
    assert faults[1..] == [test, third, fourth] && faults[1..][1..] == [third, fourth];
    assert faults[1..][1..][1..] == [fourth];
    assert Moved(files - {job.target}, job.temp, job.target) == Moved(files, job.temp, job.target);
  }

  /** Two interleaved commits without overwrite on a posix server: both test, both rename, and the
      second replaces what the first published. */
  lemma PosixRaceReplaces(a: Path, b: Path, target: Path, x: Bytes, y: Bytes)
    requires a != b && a != target && b != target
    ensures var jobA, jobB := Job(a, target, false, true), Job(b, target, false, true);
      var files := map[a := x, b := y];
      && CommitStep(jobA, CheckTarget, files, Healthy) == (files, Publish)
      && CommitStep(jobB, CheckTarget, files, Healthy) == (files, Publish)
      && var (files1, pcA) := CommitStep(jobA, Publish, files, Healthy);
         var (files2, pcB) := CommitStep(jobB, Publish, files1, Healthy);
         pcA == pcB == Ended(None) && files1 == map[b := y, target := x] && files2 == map[target := y]
  {
  }
}
