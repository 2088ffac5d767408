# ftp2sftp: a verified model of the gateway

The gateway turns FTP commands into SFTP operations. This project models its four cores in Dafny
and proves what each is for:

- **Uploads.** A STOR writes to a temporary remote name and is committed by a rename or cleaned up.
  Uploads of any number of sessions, and the DELE and RNFR/RNTO requests of clients, interleave one
  remote primitive at a time; every primitive may fail, with or without its effect. A published
  name never shows partial or mixed content (`Protocol`, on top of `Remote`, `Uploads` and `UploadLaws`;
  consequences in `ProtocolLaws`; RETR and the STOR/RETR round trip in `Downloads` and `RoundTrip`).
- **Paths.** Virtual and remote paths are strings tested with `HasPrefix`; their meaning is about
  component lists. The two are connected, which gives confinement, inverse translations and
  disjoint users (`GoPath`, `Mapper`, over whole runs `Isolation`), and temporary names that never collide
  (`TempNames`).
- **Brute-force limiter.** Failure windows with progressive lockout and an occasional sweep: the sweep
  is invisible, and lockout bounds the failures of a window, for attempts that interleave one critical section
  at a time (`Limiter`, `Authenticator`).
- **Resources.** Connection slots, transfer slots, gauges, the session wait group, SFTP connections and
  shutdown, as step systems whose counters are tied to what they count (`Gateway`, `Sessions`,
  `Transfers`, with `Gates`, `ClientDriver` and `Counting`).

Code that changes objects step by step is a class; each method is proved against a function on values
(`UploadHandle.Close` against `ClosedRun`, `Client.Commit` against `RunCommit`, `Limiter.RecordFailure` against
`Failed`, `Gateway.ClientDisconnected` against a run of the step system), and the lemmas are about those
functions. Interleavings are runs of step systems in which a disabled event does nothing, so each theorem
about runs quantifies over all event sequences.

Verify with `dafny verify dfyconfig.toml`.

## What the environment is assumed to do

- Time is a non-decreasing integer passed to each limiter operation; bcrypt, and the result of each remote
  primitive, are parameters. Integers are unbounded, except that the limiter's call counter wraps at 2^64.
- Remote files are regular files, so the symlink check can only fail or pass. A write that reports fewer
  bytes than it was given also reports an error (the contract of `io.Writer`). Plain rename refuses an existing
  target (section 6.5 of draft-ietf-secsh-filexfer-02).
- Session ids have no dash and no slash, a session has one open upload at a time, and names chosen by clients
  do not contain the marker `suffix + "-"`. The last is not enforced by the code;
  `ProtocolLaws.MarkedNamesShowPartialContent` and `ProtocolLaws.MovedTemporaryShowsPartialContent` show what
  happens without it. The suffix contains no slash.
- The callbacks of one FTP connection run one after the other, and `ClientDisconnected` is called once.

## Where a plausible claim fails, and the exact condition

- The two branches of `Commit` differ when the temporary file is gone and an overwritable target exists: the
  fallback has already removed it. `Remote.CommitBranchesAgree` is an equivalence.
- With overwrite off on a posix-rename server, a failing existence test counts as "absent" and the target is
  replaced (`Remote.PosixReplacesOnlyUntested`, exact for an uninterrupted commit); two interleaved commits replace
  each other (`Remote.PosixRaceReplaces`). Over runs: an existing target is safe as long as every test is answered
  and nobody is already past it (`ProtocolLaws.PosixKeepsExistingTarget`); it changes exactly when a commit that is
  past its test has its rename land (`ProtocolLaws.OnlyPublishReplaces`, `ProtocolLaws.LastPublicationDecides`),
  which finds nothing to replace if nobody else touched the name since the test
  (`ProtocolLaws.UndisturbedCommitReplacesNothing`).
- `Close` returns nil for a failed upload when the only trouble was `TransferError(nil)` (`UploadLaws.CloseVerdict`, an
  equivalence; likewise `Downloads.DownloadHandle.Close`).
- An upload onto the remote root itself puts its temporary file beside the root
  (`TempNames.TempPathStaysBelow`, an equivalence), which can be another user's root
  (`Isolation.UploadOntoRootReachesAnother`).
- A second successful login on one connection loses the first session for good: the wait group and the SFTP
  gauge are too high by exactly the number of such logins (`Gateway.SessionAccounting`,
  `Gateway.SecondLoginLeaks`). Inside `ClientDisconnected` the wait group can exceed the register
  (`Gateway.WaitGroupExceedsRegister`); `Gateway.WaitGroupIsBounded` says exactly when it does not.
- The bound of eight failures per window needs attempts on that key that do not overlap; with k of them in flight it
  is k + 10 (`Authenticator.AtMostEightFailures`), and n in flight do record n
  (`Authenticator.OverlappingAttemptsAreUnbounded`). A lockout is only inert once no attempt on the key is in
  flight (`Authenticator.InFlightAttemptDisturbs`).
- A temporary file left by a failed clean-up is reclaimed when the same session uploads to the same path again,
  so "left over" in `ProtocolLaws.TemporaryFilesAreAccountedFor` means left and not reused.

## Model

| member | source | states |
|---|---|---|
| `Protocol.NoPartialContentIsEverVisible` | internal/transfer/upload.go:29-222 | in every state reachable by any interleaving and any failures, a published name that exists holds an initial content or the whole of one upload whose final rename took effect and in which no write, no file close and no transfer failed |
| `Protocol.PublishedUnderItsOwnName` | internal/transfer/upload.go:152-222 | without client renames it is that name's own initial content or such an upload to that name |
| `Protocol.ApplyKeepsInv` | internal/sftpclient/client.go:161-217 | every single primitive, write, transfer error and client request keeps the inductive invariant behind it |
| `Protocol.TempsDiffer` | internal/transfer/transfer.go:53-61 | no two open uploads share a temporary name |
| `ProtocolLaws.DeleteRemoves` | internal/sftpclient/client.go:227-240 | a remove request that takes effect removes exactly the name |
| `ProtocolLaws.RenameMoves` | internal/sftpclient/client.go:292-308 | a rename request that takes effect moves the content, onto an existing name only with posix-rename |
| `ProtocolLaws.TemporaryFilesAreAccountedFor` | internal/transfer/upload.go:37-68 | if failing primitives have no effect, the temporary names present are exactly those of open uploads and of failed clean-ups not reused, and TemporaryFilesPending counts the open uploads |
| `ProtocolLaws.StepKeepsTemps` | internal/transfer/upload.go:187-213 | each step of creation, commit and clean-up keeps that account |
| `ProtocolLaws.ApplyKeepsGauge` | internal/ftpserver/clientdriver.go:382-405 | each event keeps TemporaryFilesPending equal to the number of open uploads |
| `ProtocolLaws.ListedFilesAreComplete` | internal/ftpserver/clientdriver.go:306-319 | whatever a listing shows in any reachable state is complete, and no temporary name is shown |
| `ProtocolLaws.FallbackKeepsExistingTarget` | internal/sftpclient/client.go:199-216 | without posix-rename, in every run and under every fault, an existing name is never changed or removed by uploads without overwrite, however many aim at it, nor by renames onto it |
| `ProtocolLaws.PosixKeepsExistingTarget` | internal/sftpclient/client.go:185-225 | with posix-rename, in every run, an existing name survives all uploads without overwrite if every existence test is answered and no upload had passed its test before |
| `ProtocolLaws.OnlyPublishReplaces` | internal/sftpclient/client.go:185-196 | with posix-rename, exactly the commit renames to a name that land change it, among all events that do not delete or rename it, and they leave a whole upload there |
| `ProtocolLaws.LastPublicationDecides` | internal/sftpclient/client.go:185-196 | with posix-rename, in every run that does not delete or rename a name, it holds the whole of the last upload whose rename to it landed, or what it held before |
| `ProtocolLaws.UndisturbedCommitReplacesNothing` | internal/sftpclient/client.go:185-197 | after a test that found nothing, whatever else interleaves, the target is still absent when the rename is sent, if nobody else aims at it or mentions it |
| `ProtocolLaws.PublishReplacesExactly` | internal/sftpclient/client.go:192-196 | the posix rename moves the whole upload onto the target, whatever that held, exactly if the request lands; otherwise nothing changes |
| `ProtocolLaws.QuietNameIsKept` | internal/transfer/upload.go:152-222 | over any run, events that do not mention a name and uploads that do not aim at it leave its content alone, and nobody new aims at it |
| `ProtocolLaws.CommittedContentStays` | internal/transfer/upload.go:200-221 | a committed upload's target holds all its chunks until something mentions that name |
| `ProtocolLaws.MarkedNamesShowPartialContent` | internal/ftpserver/clientdriver.go:306-319 | a name that carries the marker can show the partial content of another session's upload |
| `ProtocolLaws.MovedTemporaryShowsPartialContent` | internal/sftpclient/client.go:268-311 | a client rename of such a name onto a published one puts the partial content there |
| `Remote.Client.Commit` | internal/sftpclient/client.go:172-217 | one uninterrupted commit is the run of its atomic steps, under every script of faults; an error of the symlink check other than "no such file" is returned after that one request and nothing is renamed |
| `Remote.Client.Rename` | internal/sftpclient/client.go:268-311 | a denied check of either name is returned at once and changes nothing; otherwise a rename is the same run as a commit |
| `Remote.Client.Remove` | internal/sftpclient/client.go:227-240 | a denied symlink check is returned at once; otherwise new tree, error and remaining faults of the remove request |
| `Remote.Client.CreateTemp` | internal/sftpclient/client.go:158-170 | creates or truncates, or fails with or without that effect |
| `Remote.Client.Stat` | internal/sftpclient/client.go:79-94 | a denied symlink check is returned at once; otherwise existence, or the error of the request |
| `Remote.CommitSuccess` | internal/sftpclient/client.go:178-217 | under every fault, a commit that reports success has moved the temporary file onto the target and changed nothing else |
| `Remote.CommitFrame` | internal/sftpclient/client.go:178-217 | a commit touches two names at most; one that fails without hidden effects changes nothing, or in the fallback removed an overwritable target |
| `Remote.CommitBranchesAgree` | internal/sftpclient/client.go:185-216 | without failures the posix and the fallback branch reach the same tree and result if and only if the temporary file exists or there is no overwritable target to lose |
| `Remote.FallbackNeverReplaces` | internal/sftpclient/client.go:199-216 | each fallback step without overwrite keeps an existing target, under every fault |
| `Remote.PosixReplacesOnlyUntested` | internal/sftpclient/client.go:185-225 | without overwrite an uninterrupted posix commit replaces an existing target exactly when the existence test failed and the rename landed; its error in every case |
| `Remote.PosixOverwrites` | internal/sftpclient/client.go:181-197 | tree and error of an overwriting posix commit, for every pair of replies |
| `Remote.FallbackOverwrites` | internal/sftpclient/client.go:199-216 | tree and error of an overwriting fallback commit on an existing target, for all four replies |
| `Remote.PosixRaceReplaces` | internal/sftpclient/client.go:185-197 | two interleaved posix commits without overwrite: the second replaces what the first published |
| `Uploads.NewUpload` | internal/transfer/upload.go:29-68 | a handle or the error of its requests, as the machine's opening run; a denied check or a failed test refuses with that error, an existing target with a conflict |
| `Uploads.UploadHandle.Write` | internal/transfer/upload.go:89-116 | count and error returned, the error kept, and new handle and new file as those of the machine's write; an oversize chunk is not sent; after Close nothing is written |
| `Uploads.UploadHandle.TransferError` | internal/transfer/upload.go:134-146 | marks the failure and keeps the first error |
| `Uploads.UploadHandle.Close` | internal/transfer/upload.go:148-222 | the first call is the machine's closing run and returns the reported error; later calls do nothing; one report and one release in all |
| `UploadLaws.CloseVerdict` | internal/transfer/upload.go:152-222 | for every open handle and all faults: bytes and hash reported are those counted; the error is that of the last failed write, else the first cause signalled, else that of the file close, else that of the commit; nil is returned iff a commit is reported or the only trouble was signalled with nil; a commit implies no trouble and the whole content at the target; earlier trouble leaves the target alone |
| `UploadLaws.KeptIs` | internal/transfer/upload.go:92-146 | which error a handle keeps, over any sequence of failing requests and signals |
| `UploadLaws.OversizeIsReported` | internal/transfer/upload.go:96-101 | an upload that exceeds the limit is reported failed with that error, whatever is answered at Close |
| `UploadLaws.TornIsReported` | internal/transfer/upload.go:103-113 | one whose last write failed is reported with the error of that write |
| `UploadLaws.DeniedCheckFailsClose` | internal/sftpclient/client.go:181-183 | a symlink check that is denied inside Close makes the report failed with that error, and leaves every name but the temporary one alone |
| `UploadLaws.StepKeepsGood` | internal/transfer/upload.go:152-222 | every remote step keeps the handle's invariant, touches two names, and changes the target only by removal or by publishing the whole content |
| `UploadLaws.WriteKeepsGood` | internal/transfer/upload.go:92-116 | every write keeps count, hash, size limit and failure flag in agreement with the calls, and touches the temporary file only |
| `UploadLaws.ErrorKeepsGood` | internal/transfer/upload.go:137-146 | so does every transfer error |
| `UploadLaws.DriveKeepsGood` | internal/transfer/upload.go:92-146 | over any sequence of calls the invariant holds, failure is sticky, and the hash mirrors the file if failed writes store what they admit |
| `UploadLaws.OpensExactly` | internal/transfer/upload.go:40-53 | under all faults a handle is given out iff creation succeeded and, without overwrite, the existence test succeeded and found nothing; and the error given otherwise |
| `UploadLaws.HashedIsStored` | internal/transfer/upload.go:103-108 | the reported hash input is the content of the temporary file when Close began, its length is the reported size, within the limit |
| `UploadLaws.FailedUploadFrame` | internal/transfer/upload.go:187-213 | from NewUpload to Close, an upload that is not committed changes only its temporary name, or in the fallback leaves an overwritable target absent |
| `Downloads.NewDownload` | internal/transfer/download.go:24-41 | a handle at the start of the file's content with the configured hashing and nothing read or failed, or exactly the error of the denied check or of the open request |
| `Downloads.DownloadHandle.Read` | internal/transfer/download.go:58-81 | delivers the next bytes and counts and hashes exactly those; an error other than end of file marks the failure; nothing is delivered after Close |
| `Downloads.DownloadHandle.Seek` | internal/transfer/download.go:88-91 | moves the position, refusing a negative one |
| `Downloads.DownloadHandle.TransferError` | internal/transfer/download.go:93-103 | marks the failure and keeps the first error |
| `Downloads.DownloadHandle.Close` | internal/transfer/download.go:105-154 | one report and one release; the error is that of the last broken read, else the first cause signalled, else, if nothing went wrong before, that of the file close; nil iff completed or failed with a nil cause only |
| `Downloads.ReadsDeliverInOrder` | internal/transfer/download.go:59-81 | however reads are cut they deliver a prefix of the rest, and all of it once end of file was reported |
| `Downloads.Retrieve` | internal/transfer/download.go:29-154 | opening, seeking, reading and closing on a handle, under any faults, delivers exactly those bytes of the file and releases the reservation |
| `RoundTrip.HealthyUploadStores` | internal/transfer/upload.go:37-222 | for any chunking, a healthy upload commits the concatenation of its chunks and changes nothing else |
| `RoundTrip.OpensHealthy` | internal/transfer/upload.go:40-53 | NewUpload opens an empty temporary file, except for an existing target that may not be replaced |
| `RoundTrip.StoreThenRetrieve` | internal/ftpserver/clientdriver.go:43-58 | STOR then RETR through the same mapper returns the stored bytes, and after a restart at an offset exactly the rest from there |
| `RoundTrip.Store` | internal/transfer/upload.go:37-222 | NewUpload, any calls and Close on the handle object are the machine's whole run, under any faults, and release the reservation |
| `RoundTrip.StoreAndRetrieve` | internal/ftpserver/clientdriver.go:350-459 | on the handle objects of a healthy server: STOR reports success and RETR from any offset returns exactly the rest of the chunks sent |
| `RoundTrip.SharedStoreThenRetrieve` | internal/transfer/upload.go:92-222 | the same while other sessions upload, delete and rename: once the upload reported its commit and nothing mentions the path, RETR returns the concatenation of the chunks that its client sent |
| `TempNames.TempPathForm` | internal/transfer/transfer.go:53-61 | the temporary path has the directory of the final one and its name extended by suffix and session id |
| `TempNames.TempPathInjective` | internal/transfer/transfer.go:56-61 | final path and session id are determined by the temporary path |
| `TempNames.TempPathStaysBelow` | internal/transfer/transfer.go:56-61 | the temporary path stays below the remote root iff the final path is not that root, or the root is "/" |
| `TempNames.TempPathIsMarked` | internal/transfer/transfer.go:56-61 | its name contains the marker, so it is no marker-free name |
| `TempNames.TempPathDiffers` | internal/transfer/transfer.go:56-61 | it is never the final path |
| `TempNames.VisibleEntries` | internal/ftpserver/clientdriver.go:306-319 | the filter loop returns exactly the entries without suffix and dash in them |
| `TempNames.ShownInOrder` | internal/ftpserver/clientdriver.go:306-319 | each as often as it is listed, in the order of the listing |
| `TempNames.TempsAreNeverListed` | internal/ftpserver/clientdriver.go:306-319 | no listing of any directory shows a temporary name |
| `GoPath.CompsOfClean` | internal/filesystem/mapper.go:63-70 | cleaning a joined path, rooted or not, does not change the components it denotes from the root |
| `GoPath.CleanRules` | internal/filesystem/mapper.go:70-70 | the rules of `path.Clean` on which the mapper relies, for one more element |
| `Mapper.NewMapper` | internal/filesystem/mapper.go:25-44 | both roots are clean, absolute and denote the configured components, for any configuration strings |
| `Mapper.NamesReach` | internal/ftpserver/clientdriver.go:43-58 | under any two configured roots a name reaches its part below the virtual root put below the remote root, and nothing if it has a NUL byte or lies outside the virtual root |
| `Mapper.NamesStayBelow` | internal/filesystem/mapper.go:79-97 | no name reaches anything outside the configured remote root |
| `Mapper.ToRemoteExactly` | internal/filesystem/mapper.go:81-97 | ToRemote answers exactly for the clean paths below the virtual root |
| `Mapper.ToVirtualExactly` | internal/filesystem/mapper.go:103-115 | ToVirtual answers exactly for the strings that denote a path below the remote root |
| `Mapper.WithinRootIsPrefix` | internal/filesystem/mapper.go:131-145 | on clean absolute paths the string test is the component-prefix test |
| `Mapper.ResolveDenotes` | internal/filesystem/mapper.go:46-77 | resolution walks the argument's elements from the current directory and accepts iff the result is below the virtual root |
| `Mapper.ResolvedIsConfined` | internal/filesystem/mapper.go:52-97 | for arbitrary strings an accepted path is clean, below the virtual root, and maps without error |
| `Mapper.RemoteIsConfined` | internal/filesystem/mapper.go:79-97 | whatever string ToRemote is given, a result is clean and below the remote root |
| `Mapper.ToRemoteSwapsRoots` | internal/filesystem/mapper.go:81-97 | ToRemote replaces the virtual root by the remote root and keeps the components below |
| `Mapper.ToVirtualSwapsRoots` | internal/filesystem/mapper.go:103-115 | ToVirtual does the converse |
| `Mapper.VirtualRoundTrip` | internal/filesystem/mapper.go:81-115 | ToVirtual undoes ToRemote on every clean path below the virtual root |
| `Mapper.RemoteRoundTrip` | internal/filesystem/mapper.go:81-115 | ToRemote undoes ToVirtual on every clean path below the remote root |
| `Mapper.UsersAreDisjoint` | internal/ftpserver/clientdriver.go:43-58 | users whose remote roots are not nested never reach the same remote path, whatever names they send |
| `Isolation.UsersAreIsolated` | internal/ftpserver/clientdriver.go:43-58 | in every run, uploads, deletions and renames of users whose roots are not nested with a root create, change and remove nothing below it, temporary names included, unless one uploads onto its own root and the temporary name is the other root |
| `Isolation.TempStaysOutside` | internal/transfer/transfer.go:53-61 | the temporary name of an upload below one root is not below another, with that one exception |
| `Isolation.UploadOntoRootReachesAnother` | internal/transfer/transfer.go:53-61 | the exception happens |
| `Mapper.NestedUsersMeet` | internal/ftpserver/clientdriver.go:43-58 | users with nested remote roots do |
| `Mapper.ResolveInTwoSteps` | internal/filesystem/mapper.go:52-77 | resolving a/b is resolving a and then b from there, whenever the first step is accepted |
| `Mapper.ResolveIsIdempotent` | internal/filesystem/mapper.go:52-77 | an accepted path resolves to itself from everywhere |
| `Limiter.Limiter.SweepOccasionally` | internal/auth/limiter.go:102-120 | every 256th call forgets exactly the entries idle for longer than the window and 32 lockouts; the second test never decides, whatever the later clock readings are |
| `Limiter.Limiter.Allow` | internal/auth/limiter.go:45-63 | sweeps when due, then answers whether the key is unlocked |
| `Limiter.Limiter.RecordFailure` | internal/auth/limiter.go:65-92 | count, window and lockout of the key's new entry, in numbers; all other entries unchanged and all entries sound |
| `Limiter.Limiter.RecordSuccess` | internal/auth/limiter.go:94-100 | forgets the key |
| `Limiter.SweepIsInvisible` | internal/auth/limiter.go:46-120 | in every run under a non-decreasing clock, sweeping at whatever moments changes no answer |
| `Limiter.SweptBehavesTheSame` | internal/auth/limiter.go:105-120 | a swept limiter answers every continuation like the unswept one |
| `Limiter.EffectKeepsAgreement` | internal/auth/limiter.go:46-120 | each operation keeps the simulation between the swept and the full limiter |
| `Limiter.KeysAreIndependent` | internal/auth/limiter.go:46-120 | two runs that do the same to one key get the same answers about it, whatever each does to other keys and whenever each sweeps |
| `Limiter.SuccessStartsOver` | internal/auth/limiter.go:94-100 | after a success the key is treated for ever like one never seen |
| `Authenticator.Authenticator.Authenticate` | internal/auth/authenticator.go:51-79 | refused iff either key is locked; otherwise accepted iff the store has the user and the verifier accepts the password against the stored hash; a rejected call leaves one more failure under both keys, an accepted one forgets both, a refused one changes nothing but by sweeping |
| `Authenticator.AttemptAlone` | internal/auth/authenticator.go:54-78 | an attempt whose four critical sections are not interrupted has that outcome and effect |
| `Authenticator.RunKeepsSound` | internal/auth/limiter.go:67-92 | in every run of interleaved attempts each lockout is bounded by the key's last activity |
| `Authenticator.LockedAttemptsAreInert` | internal/auth/authenticator.go:54-57 | while an address or user is locked and none of its attempts is in flight, in every run, however attempts on all keys interleave and the limiters sweep, no attempt on it passes, its record does not change, and whoever asks is refused at once |
| `Authenticator.InFlightAttemptDisturbs` | internal/auth/authenticator.go:69-76 | an attempt let through before the lockout changes the record when its turn comes, and ends the lockout if it succeeds |
| `Authenticator.SweepsDecideNothing` | internal/auth/limiter.go:102-120 | in every run of interleaved attempts the sweeps of both limiters change no verdict |
| `Authenticator.RefusalCannotBeObserved` | internal/auth/authenticator.go:54-57 | a call that ends in RateLimited, with the sweeps it may have triggered, changes no verdict of any later run |
| `Authenticator.LockoutBoundsFailures` | internal/auth/limiter.go:67-92 | for every address and user of which at most k attempts are in flight at once, however all others interleave, lockout times the sum of every k-th multiplier below the one reached fits in one window; for k = 1 that is every multiplier served |
| `Authenticator.AtMostEightFailures` | internal/ftpserver/gateway.go:35-39 | with the gateway's constants a window records at most eight failures for a key whose attempts do not overlap, and at most k + 10 with k in flight at once |
| `Authenticator.GatewayLockouts` | internal/ftpserver/gateway.go:35-39 | the lockout that the n-th failure of a window sets: none up to four, then 10, 20, 30 seconds and so on, 320 from the 36th on |
| `Authenticator.SerialCallsDoNotOverlap` | internal/auth/authenticator.go:54-78 | calls one after the other are a run with at most one attempt in flight on every key, and leave the limiters as those calls do |
| `Authenticator.EightFailuresHappen` | internal/ftpserver/gateway.go:35-39 | eight are reached, by calls one after the other |
| `Authenticator.OverlappingAttemptsAreUnbounded` | internal/auth/authenticator.go:54-72 | a run in which n attempts on one key all ask before any records its failure, and all n are counted in one window |
| `Gates.ConcurrencyGate.TryAcquire` | internal/authorization/concurrency.go:17-25 | takes a slot iff one is free |
| `Gates.ConcurrencyGate.Release` | internal/authorization/concurrency.go:27-34 | returns a slot, a no-op on an empty gate |
| `Gates.Reservation.Release` | internal/ftpserver/clientdriver.go:370-380 | gives back one slot and one count, the first time only |
| `ClientDriver.BeginUpload` | internal/ftpserver/clientdriver.go:350-408 | an upload that is not permitted or over the limit sends no request, one that NewUpload refuses leaves gate and gauges as they were, one that opens adds one to each and holds the reservation; either way it is a run of the step system |
| `ClientDriver.BeginDownload` | internal/ftpserver/clientdriver.go:410-459 | the same for downloads |
| `ClientDriver.FinishUpload` | internal/transfer/upload.go:148-222 | the first Close of an upload handle is the machine's, reports once and gives back the slot and both counts, later ones do nothing; each is a run of the step system |
| `ClientDriver.FinishDownload` | internal/transfer/download.go:105-154 | the same for download handles |
| `Transfers.SlotsAreConserved` | internal/ftpserver/clientdriver.go:362-458 | in every run each gate counts exactly its user's transfers, within the limit; no release finds it empty; each transfer releases and reports exactly once however often Close is called |
| `Transfers.ApplyKeepsInv` | internal/ftpserver/clientdriver.go:362-458 | each single operation keeps that |
| `Transfers.ActiveIsSumOverUsers` | internal/ftpserver/clientdriver.go:370-383 | TransferActive is the sum of the gates in use, up to transfers caught between the two updates |
| `Sessions.Session.SFTP` | internal/session/session.go:95-117 | reuses the open client, dials at most one, and none once closed |
| `Sessions.Session.InvalidateSFTP` | internal/session/session.go:119-133 | closes and discards the client |
| `Sessions.Session.Close` | internal/session/session.go:144-164 | afterwards every client ever dialled has been closed exactly once, in order; the error is that of closing the client, if there was one |
| `Gateway.Gateway.ClientConnected` | internal/ftpserver/gateway.go:143-172 | without interference it is its five steps and admits iff not shutting down and below the limit |
| `Gateway.Gateway.AuthUser` | internal/ftpserver/gateway.go:208-246 | refused credentials or a user without configuration change nothing; otherwise a session is attached and counted, and an earlier one of the connection is lost |
| `Gateway.Gateway.Connect` | internal/ftpserver/gateway.go:248-280 | the session object's dial, with its gauge, is the step system's dial |
| `Gateway.Gateway.MaybeInvalidate` | internal/ftpserver/clientdriver.go:66-82 | the session object's invalidation, with its gauge, is the step system's, and happens only to a connected session |
| `Gateway.Gateway.ClientDisconnected` | internal/ftpserver/gateway.go:174-206 | without interference it is its five steps and undoes what was counted |
| `Gateway.Gateway.CloseAllConnections` | internal/ftpserver/gateway.go:341-362 | closes every registered connection once |
| `Gateway.ApplyKeepsInv` | internal/ftpserver/gateway.go:143-280 | every atomic operation of every callback keeps all counters, the register and the clients consistent |
| `Gateway.AdmissionIsBounded` | internal/ftpserver/gateway.go:146-190 | under any interleaving of add, compare and undo the admitted connections never exceed the limit, and the counter equals them when no verdict is pending |
| `Gateway.SessionAccounting` | internal/ftpserver/gateway.go:192-280 | in every run the wait group is the number of live sessions plus one for every login on a connection that had a session already, and the SFTP gauge that of connected sessions plus one for every such login that lost a connected one |
| `Gateway.SecondLoginLeaks` | internal/ftpserver/gateway.go:236-240 | one connection that logs in twice and leaves: the wait group stays at one for ever |
| `Gateway.ClientsAreClosedOnce` | internal/session/session.go:95-164 | every dialled client is closed at most once, is open exactly while a session holds it, and is closed once its connection is gone |
| `Gateway.WaitGroupIsBounded` | internal/ftpserver/gateway.go:174-246 | in every run the wait group is at most the size of the register iff the sessions leaving or lost are no more than the registered connections without one; so it is between callbacks without second logins |
| `Gateway.WaitGroupExceedsRegister` | internal/ftpserver/gateway.go:177-206 | inside ClientDisconnected it does |
| `Gateway.Gateway.PrepareShutdown` | internal/ftpserver/gateway.go:282-287 | sets the flag that ClientConnected tests and changes nothing else |
| `Gateway.ShutdownDrains` | internal/ftpserver/gateway.go:282-287 | in every run after PrepareShutdown, from any state, only connections already past the flag are ever in flight, later ones are never admitted, and once none is pending the register only shrinks |
| `Gateway.LaterArrivalsAreRefused` | internal/ftpserver/gateway.go:146-153 | at any point after PrepareShutdown a new connection is gone after its first step, uncounted |
| `Gateway.RegisterCoversLiveConnections` | internal/ftpserver/gateway.go:341-362 | every admitted connection that is neither pending nor leaving is in the register that CloseAllConnections closes |

## Left out

- SSH dialling, host keys and signers; `ftpserverlib`, `pkg/sftp`, bcrypt and SHA-256 appear as parameters or as the sequence of hashed bytes.
- Remote symlinks, directories and permissions, and with them `sftpclient.ReadDir`'s symlink filter: the tree holds regular files.
- MKD, RMD, STAT and the policy checks: each is settled by one branch.
- Configuration loading and validation, logging, audit attributes, metrics text, the health server and the command line.
- Wall-clock timers, `WaitForSessions` and the ordering in `main.go`; shutdown is the step system of `Gateway`.
- 64-bit overflow of byte counts and durations, except for the limiter's call counter.
- The race of a dial with `ClientDisconnected` inside one connection: the commands of a session are serial here.
