/**
  internal/transfer/download.go: the RETR handle over an open remote file, and what any sequence
  of reads delivers.
 */
module Downloads {
  import opened Wrappers
  import opened Remote
  import opened Gates
  import opened Uploads

  /** How the remote file answers a read: bytes, bytes and then end of file, or bytes and an error. */
  datatype ReadOutcome = Data(n: nat) | Eof(n: nat) | Torn(n: nat, error: Error)

  /** What is left of a file at a position, which may lie beyond its end. */
  function Rest(content: Bytes, pos: nat): Bytes {
    if pos <= |content| then content[pos..] else []
  }

  /** io.Reader: at most what fits and what is there, and end of file only when nothing is left. */
  predicate ReaderContract(rest: Bytes, room: nat, o: ReadOutcome) {
    o.n <= room && o.n <= |rest| && (o.Eof? ==> o.n == |rest|)
  }

  /** The error of a Read: none, io.EOF, or a failure. */
  datatype ReadEnd = More | EndOfFile | Broken(error: Error)

  datatype Whence = SeekStart | SeekCurrent | SeekEnd

  class DownloadHandle {
    const content: Bytes  // the remote file as it was opened
    const hashing: bool
    const reservation: Reservation  // Release
    var pos: nat
    var read: nat
    var hashed: Bytes
    var failed: bool
    var failErr: Option<Error>
    var closed: bool
    var reports: seq<Report>
    ghost var mishaps: seq<Mishap>  // what went wrong so far, as the callers saw it

    ghost predicate Valid()
      reads this, reservation
    {
      && read == |hashed|
      && (failed <==> mishaps != []) && failErr == Kept(mishaps)
      && (!closed ==> reports == [] && !reservation.released)
      && (closed ==> |reports| == 1 && reservation.released)
    }

    /** Nothing has been done with the handle. */
    ghost predicate Untouched()
      reads this
    {
      pos == 0 && hashed == [] && mishaps == [] && !failed && failErr.None? && !closed
    }

    constructor (content: Bytes, hashing: bool, reservation: Reservation)
      requires !reservation.released
      ensures Valid() && Untouched()
      ensures this.content == content && this.hashing == hashing && this.reservation == reservation
    {
      this.content, this.hashing, this.reservation, pos, read, hashed := content, hashing, reservation, 0, 0, [];
      failed, failErr, closed, reports, mishaps := false, None, false, [], [];
    }

    /** Delivers the next bytes of the file, and counts and hashes exactly those; end of file is no failure.
        After Close the remote file is closed, so it delivers nothing. */
    method Read(room: nat, o: ReadOutcome) returns (data: Bytes, end: ReadEnd)
      requires Valid() && (!closed ==> ReaderContract(Rest(content, pos), room, o))
      modifies this
      ensures Valid() && closed == old(closed) && reports == old(reports)
      ensures hashed == old(hashed) + data
      ensures failed == (old(failed) || end.Broken?)
      ensures failErr == (if end.Broken? then Some(end.error) else old(failErr))
      ensures mishaps == old(mishaps) + (if end.Broken? then [Request(end.error)] else [])
      ensures closed ==> data == [] && pos == old(pos) && end == Broken(FILE_CLOSED)
      ensures !closed ==> data == Rest(content, old(pos))[..o.n] && Rest(content, pos) == Rest(content, old(pos))[o.n..]
      ensures !closed ==> end == match o case Data(_) => More case Eof(_) => EndOfFile case Torn(_, e) => Broken(e)
      ensures !closed ==> |data| == o.n && pos == old(pos) + o.n
    {
      data, end := ReadFile(o);
      if |data| > 0 {
        read, hashed := read + |data|, hashed + data;
      }
      if end.Broken? {
        failed, failErr := true, Some(end.error);
        KeptAppend(mishaps, Request(end.error));
        mishaps := mishaps + [Request(end.error)];
      }
    }

    /** The read on the remote file. */
    method ReadFile(o: ReadOutcome) returns (data: Bytes, end: ReadEnd)
      requires !closed ==> o.n <= |Rest(content, pos)|
      modifies this`pos
      ensures closed ==> data == [] && pos == old(pos) && end == Broken(FILE_CLOSED)
      ensures !closed ==> data == Rest(content, old(pos))[..o.n] && pos == old(pos) + o.n
      ensures !closed ==> end == match o case Data(_) => More case Eof(_) => EndOfFile case Torn(_, e) => Broken(e)
    {
      if closed {
        return [], Broken(FILE_CLOSED);
      }
      data := Rest(content, pos)[..o.n];
      pos := pos + o.n;
      match o {
        case Data(_) => end := More;
        case Eof(_) => end := EndOfFile;
        case Torn(_, e) => end := Broken(e);
      }
    }

    /** REST before RETR. */
    method Seek(offset: int, whence: Whence) returns (at: Option<nat>)
      requires Valid()
      modifies this`pos
      ensures Valid()
      ensures var base := match whence case SeekStart => 0 case SeekCurrent => old(pos) case SeekEnd => |content|;
        var target := base + offset;
        if target < 0 then at.None? && pos == old(pos) else at == Some(target) && pos == target
    {
      var base := match whence case SeekStart => 0 case SeekCurrent => pos case SeekEnd => |content|;
      if base + offset < 0 {
        return None;
      }
      pos := base + offset;
      return Some(pos);
    }

    method TransferError(error: Option<Error>)
      requires Valid()
      modifies this
      ensures Valid() && closed == old(closed) && failed && pos == old(pos)
      ensures hashed == old(hashed) && reports == old(reports)
      ensures failErr == (if old(failErr).None? then error else old(failErr))
      ensures mishaps == old(mishaps) + [Signal(error)]
    {
      failed := true;
      if failErr.None? {
        failErr := error;
      }
      KeptAppend(mishaps, Signal(error));
      mishaps := mishaps + [Signal(error)];
    }

    /** Reports and releases once, however often it is called.  The error is that of the last read that broke, or else
        the first cause signalled, and that of the file close only if nothing had gone wrong before; so it is nil
        exactly for a completed download, or for a failure signalled with nil. */
    method Close(f: Fault) returns (error: Option<Error>)
      requires Valid()
      modifies this, reservation, reservation.gate, reservation.active
      ensures Valid() && closed && pos == old(pos) && hashed == old(hashed)
      ensures failed == old(failed) && failErr == old(failErr) && mishaps == old(mishaps)
      ensures old(closed) ==> error.None? && reports == old(reports)
      ensures old(closed) ==> reservation.gate.slots == old(reservation.gate.slots)
      ensures !old(closed) ==>
        && var r := reports[0];
        && r.bytes == |hashed| && r.hashed == (if hashing then Some(hashed) else None)
        && (r.phase.Committed? <==> !failed && f.Healthy?)
        && error == r.error
        && error == (if mishaps != [] then Kept(mishaps) else if f.Failing? then Some(f.error) else None)
        && (failed ==> error == failErr)
        && (error.None? <==> r.phase.Committed? || (failed && failErr.None?))
      ensures !old(closed) ==> reservation.gate.slots == Less(old(reservation.gate.slots))
      ensures reservation.active.value == old(reservation.active.value) - (if old(closed) then 0 else 1)
    {
      if closed {
        return None;
      }
      closed := true;
      var closeErr := if f.Failing? then Some(f.error) else None;
      error := if failed then failErr else closeErr;
      var phase := if failed || closeErr.Some? then Failed else Committed;
      reports := [Report(read, phase, error, if hashing then Some(hashed) else None)];
      reservation.Release();
    }
  }

  /** Why OpenRead fails: its symlink check, or the open request, which fails where Stat would. */
  function OpenError(files: Files, path: Path, faults: seq<Fault>): Option<Error> {
    var link := LinkCheck(NextFault(faults));
    if link.Some? then link else StatReply(files, path, NextFault(LaterFaults(faults)))
  }

  /** NewDownload: the error of OpenRead, or a handle at the start of the file. */
  method NewDownload(fs: Client, path: Path, hashing: bool, reservation: Reservation)
    returns (r: Result<DownloadHandle, Error>)
    requires !reservation.released
    modifies fs`faults
    ensures r.Ok? <==> OpenError(fs.files, path, old(fs.faults)).None?
    ensures r.Err? ==> OpenError(fs.files, path, old(fs.faults)) == Some(r.error)
    ensures old(fs.faults) != [] && old(fs.faults)[0].Failing? && old(fs.faults)[0].error != NotFound ==>
      r == Err(old(fs.faults)[0].error) && fs.faults == old(fs.faults)[1..]
    ensures |old(fs.faults)| > 1 && old(fs.faults)[0].Healthy? && old(fs.faults)[1].Failing? ==>
      r == Err(old(fs.faults)[1].error)
    ensures old(fs.faults) == [] ==> if path in fs.files then r.Ok? else r == Err(NotFound)
    ensures r.Ok? ==> fresh(r.value) && r.value.Valid() && r.value.Untouched() && r.value.reservation == reservation
    ensures r.Ok? ==> path in fs.files && r.value.content == fs.files[path] && r.value.hashing == hashing
  {
    var link := fs.CheckNoEscapingSymlink();
    if link.Some? {
      return Err(link.value);
    }
    var open := fs.RawStat(path);
    if open.Some? {
      return Err(open.value);
    }
    var h := new DownloadHandle(fs.files[path], hashing, reservation);
    return Ok(h);
  }

  // ---------------------------------------------------------------- any chunking

  /** A read request of some size and its answer. */
  datatype ReadCall = ReadCall(room: nat, outcome: ReadOutcome)

  predicate ReadsOk(rest: Bytes, requests: seq<ReadCall>)
    decreases |requests|
  {
    requests == [] ||
    (ReaderContract(rest, requests[0].room, requests[0].outcome)
     && ReadsOk(rest[requests[0].outcome.n..], requests[1..]))
  }

  function Delivered(rest: Bytes, requests: seq<ReadCall>): Bytes
    requires ReadsOk(rest, requests)
    decreases |requests|
  {
    if requests == [] then []
    else rest[..requests[0].outcome.n] + Delivered(rest[requests[0].outcome.n..], requests[1..])
  }

  /** What is left of a file is its suffix. */
  lemma RestIsSuffix(content: Bytes, pos: nat)
    ensures |Rest(content, pos)| == (if pos <= |content| then |content| - pos else 0)
    ensures forall k :: 0 <= k < |Rest(content, pos)| ==> Rest(content, pos)[k] == content[pos + k]
  {
  }

  /** However the requests are cut, they deliver a prefix of the rest of the file, and all of it once end of
      file has been reported. */
  lemma {:induction false} ReadsDeliverInOrder(rest: Bytes, requests: seq<ReadCall>)
    requires ReadsOk(rest, requests)
    ensures Delivered(rest, requests) <= rest
    ensures (exists r :: r in requests && r.outcome.Eof?) ==> Delivered(rest, requests) == rest
    decreases |requests|
  {
    if requests != [] {
      var n := requests[0].outcome.n;
      ReadsDeliverInOrder(rest[n..], requests[1..]);
      assert rest == rest[..n] + rest[n..];
      if requests[0].outcome.Eof? {
        assert rest[n..] == [];
      }
    }
  }

  /** The reads of a RETR. */
  method ReadAll(h: DownloadHandle, requests: seq<ReadCall>) returns (data: Bytes)
    requires h.Valid() && !h.closed && ReadsOk(Rest(h.content, h.pos), requests)
    modifies h
    ensures h.Valid() && !h.closed
    ensures data == Delivered(Rest(h.content, old(h.pos)), requests)
  {
    ghost var all := Delivered(Rest(h.content, h.pos), requests);
    data := [];
    for k := 0 to |requests|
      invariant h.Valid() && !h.closed
      invariant ReadsOk(Rest(h.content, h.pos), requests[k..])
      invariant all == data + Delivered(Rest(h.content, h.pos), requests[k..])
    {
      assert requests[k..][1..] == requests[k + 1..];
      var more, end := h.Read(requests[k].room, requests[k].outcome);
      data := data + more;
    }
  }

  /** RETR, after REST when `offset` is positive: the requests made on a handle deliver what `Delivered` says, and the
      reservation is released in any case. */
  method Retrieve(fs: Client, path: Path, hashing: bool, reservation: Reservation, offset: nat, requests: seq<ReadCall>)
    returns (r: Result<Bytes, Error>)
    requires path in fs.files ==> ReadsOk(Rest(fs.files[path], offset), requests)
    requires !reservation.released
    modifies fs`faults, reservation, reservation.gate, reservation.active
    ensures reservation.released
    ensures r.Ok? <==> OpenError(fs.files, path, old(fs.faults)).None?
    ensures r.Err? ==> OpenError(fs.files, path, old(fs.faults)) == Some(r.error)
    ensures r.Ok? ==> path in fs.files && r.value == Delivered(Rest(fs.files[path], offset), requests)
  {
    var source := NewDownload(fs, path, hashing, reservation);
    if source.Err? {
      reservation.Release();
      return Err(source.error);
    }
    var at := source.value.Seek(offset, SeekStart);
    var data := ReadAll(source.value, requests);
    var f := fs.NextReply();
    var error := source.value.Close(f);
    return Ok(data);
  }
}
