# Verification of the upload service

This project models the storage core of the service in Dafny and proves what it promises. To check the proofs:
`dafny verify dfyconfig.toml`.

The main part is one state machine. `Tables` holds the rows and, for each SQL statement or transaction, the function
from tables to tables. `Machine` adds stored objects, the clock and the actors: clients, part writers, completers,
heartbeats, sweepers, deletion workers. One step is one statement or transaction, one storage operation or one clock
tick, and where the service reads first and writes later the two halves are separate steps with the reader's state kept
in between. A run is any interleaving of any number of actors, for any number of accounts. `Database` is the same set of
writes as the code performs them, in place and with rollback, each proved to do to the tables what the machine's
function says.

| module | what it covers |
|---|---|
| `UploadParts` | part geometry, completeness, assembly, the download script's segments |
| `Tables`, `Database`, `Machine` | rows, statements, the in-place operations, the step machine |
| `MapSums`, `Ledger` | conservation of bytes, statement by statement |
| `Invariants` | what holds in every reachable world |
| `OneShotSteps`, `SessionSteps`, `CompletionSteps`, `OutboxSteps`, `Preservation` | every step keeps it |
| `Safety`, `Integrity` | the promises: accounting, fencing, upload leases, contents, deletion |
| `Leases`, `LeaseRace` | leases on deletion jobs, and the race a requeue allows |
| `Effects`, `OutcomeEffects` | what each write leaves behind, both when it applies and when it is refused |
| `Provenance` | where stored bytes come from |
| `LockOrder` | row locks: what they exclude, and the absence of deadlock |
| `Gate`, `Idempotency` | the in-memory gate and the claim, execute, record protocol |
| `PasswordPool`, `BoundedTtlMap`, `Throttle` | the hashing pool, the bounded map, fixed windows |
| `Pagination`, `ByteRanges` | cursor walks over changing tables, range headers on strings |

Assumed of the environment: transactions are atomic and their outcome is known to the caller, unique constraints hold,
storage names and tokens are fresh, the clock does not run backwards, plan limits are constant, and accounts start with
nothing stored.

## What the code does that its text does not say

- The comment above `insertPartIfOpen` (src/lib/upload-session.js:172-184) and docs/UPLOADS.md:146 speak of the session
  row only; the code locks the User row shared first, and that is what `LockOrder` and `Tables` follow.
- The attempt number of a deletion job is a fence only between requeues, because a requeue resets it.
  `LeaseIsLostOnlyTo` says exactly which steps end an unexpired lease, `ExclusionFailsAcrossRequeue` builds a run with
  one configuration throughout, and `RequeueAfterSettlementIsSafe` says when a requeue is harmless.
- A cursor can be longer than the 1024 characters its reader accepts: sorting by name fails after a page that ends in a
  long non-Latin name. `OwnCursorIsReadBack` gives the exact bound.
- The process-local limiter always allows the first call of a window, also with a limit of zero; the shared one does not
  (`DecisionsAgree`).
- A range whose end precedes its start is answered RANGE_NOT_SATISFIABLE, a suffix of length zero INVALID_RANGE.
- The comparison of the assembled size with the declared size can never fail once every part was read
  (`AssemblySizeMatches`), nor can a token holder of an ACTIVE account get UPLOAD_RESERVATION_INVALID.

## Model

| member | source | states |
|---|---|---|
| UploadParts.PlanLayout | src/routes/upload.routes.js:156-157 | The layout is for the requested size, in chunks of the configured size, or in one part if the upload is smaller; the part count is the ceiling quotient. |
| UploadParts.PartsTile | src/lib/upload-session.js:64-75 | Part n is exactly the interval from the end of part n-1 to the start of part n+1, of 1 to chunkSize bytes; the first starts at 0 and the last ends at the upload size. |
| UploadParts.EveryByteHasOnePart | src/lib/upload-session.js:64-75 | Every byte of the upload lies in one part and in no other. |
| UploadParts.MakeSegments | scripts/parallel-download.js:20-27 | The download script's loop yields exactly `partCount` segments, each equal to the part geometry of its index; nothing for an empty file. |
| UploadParts.MissingPartNumbers | src/lib/upload-session.js:120-127 | The result lists exactly the absent part numbers, ascending. |
| UploadParts.AssertCompleteParts | src/lib/upload-session.js:129-152 | Accepts if and only if the list is every part once, in order, with its geometry and a well-formed digest; otherwise reports exactly the missing numbers, or the first bad row. |
| UploadParts.FittingListIsComplete | src/lib/upload-session.js:129-152 | Without gaps and with row i being part i there are exactly `partCount` rows, which the loop itself never checks. |
| UploadParts.AssembleUploadParts | src/lib/storage.js:135-168 | Ordered concatenation with an exact byte count; fails exactly when some object is absent, naming the first one. |
| UploadParts.FittingIsExact | src/lib/upload-session.js:129-152 | A row fits exactly if it has the number, the place and the size of part i and a checksum of 64 hex digits. |
| UploadParts.SplitThenConcat | src/lib/storage.js:135-168 | Cutting any bytes by the layout and assembling the pieces returns the original bytes. |
| UploadParts.AssembledSize | src/routes/upload.routes.js:485-490 | Complete parts of their recorded sizes always assemble to the declared size. |
| Database.Database.ReserveUploadQuota | src/lib/quota.js:10-29 | Admits exactly an ACTIVE account whose plan has room, and adds to storageUsed only. |
| Database.Database.ReservePendingUploadQuota | src/lib/quota.js:31-50 | The same admission, adding to reservedUploadBytes only. |
| Database.Database.ReleaseUploadReservation | src/lib/quota.js:52-63 | Gives bytes back whatever the account's status, clamped at zero. |
| Database.Database.CommitUploadReservation | src/lib/quota.js:65-86 | Moves bytes from reserved to used, under all four guards, or changes nothing. |
| Database.Database.SwitchPlanIfFits | src/lib/quota.js:88-108 | Switches exactly when ACTIVE and usage fits the new plan. |
| Database.Database.SwitchPlanIfEntitled | src/lib/entitlements.js:49-75 | As above, and the plan is free or the user entitled. |
| Database.Database.DowngradeIfUnentitled | src/lib/entitlements.js:96-113 | Falls back only from that plan, to a free plan that fits, without a remaining entitlement; also for suspended accounts. |
| Database.Database.SetAccountStatus | src/lib/account.js:15-23 | Changes the status of a known account and nothing else. |
| Database.Database.CreateReservation | src/lib/upload-reservation.js:23-34 | Row and counter together, or neither. |
| Database.Database.RenewReservation | src/lib/upload-reservation.js:37-43 | Extends the lease of a PENDING row only. |
| Database.Database.ReleaseReservation | src/lib/upload-reservation.js:88-105 | PENDING to RELEASED with the refund, by compare-and-set; with a cutoff only if the lease is still lapsed. |
| Database.Database.ReconcileExpiredReservations | src/lib/upload-reservation.js:111-124 | The loop is the fold of conditional releases, and its counter the number of transitions that applied. |
| Database.SweepReleasesTheLapsed | src/lib/upload-reservation.js:111-124 | Whatever is on its list, a pass releases exactly the reservations that are pending and lapsed. |
| Database.SweepKeepsLedger | src/lib/upload-reservation.js:111-124 | A pass keeps every account's counters exact. |
| Database.Database.CommitOneShot | src/routes/file.routes.js:181-227 | Reservation, counters, file and link move together; a refused conversion undoes the claim. |
| Database.Database.CommitUndeclared | src/routes/file.routes.js:181-227 | Admission of the measured size and the file, or nothing. |
| Database.Database.CreateSession | src/routes/upload.routes.js:171-204 | Session row and reservation together, or neither. |
| Database.Database.ReleaseSession | src/lib/upload-session.js:154-170 | Compare-and-set on the observed status; the bytes return in the same transaction. |
| Database.Database.InsertPartIfOpen | src/lib/upload-session.js:185-203 | A part is inserted only for an ACTIVE owner into an open, unexpired session without that number; every refusal is told apart. |
| Database.Database.ClaimCompletion | src/lib/upload-session.js:209-226 | Claims exactly an unexpired UPLOADING session, with a new token, lease and generation. |
| Database.Database.RenewCompletionLease | src/lib/upload-session.js:229-235 | Succeeds exactly for the current token. |
| Database.Database.RelinquishCompletion | src/lib/upload-session.js:238-244 | Succeeds exactly for the current token. |
| Database.Database.RecoverStaleCompletion | src/lib/upload-session.js:299-319 | Compare-and-set on the token and staleness that were read; back to UPLOADING, or EXPIRED with the refund. |
| Database.Database.CommitCompletion | src/routes/upload.routes.js:500-551 | The fenced commit: counters, file and session move together, and each failure undoes what was done. |
| Database.Database.CleanupUploadSessions | src/lib/upload-session.js:329-353 | The loop over the candidates is the fold of recoveries and expiries. |
| Database.CleanupLeavesNoneBehind | src/lib/upload-session.js:329-353 | A pass brings every session it had read into its cleaned state and touches no other. |
| Database.CleanedIsClean | src/lib/upload-session.js:329-342 | The cleaned state is neither lapsed nor stale. |
| Database.CleanupKeepsLedger | src/lib/upload-session.js:329-353 | A pass keeps every account's counters exact. |
| Database.Database.SoftDeleteFile | src/lib/file-delete.js:8-53 | Status, refund and job in one statement, for an ACTIVE file of that user only. |
| Database.Database.ClaimFileDeletions | src/lib/file-deletion.js:37-54 | Each row of the batch becomes what the single claim makes of it and is not due again before the lease ends; no other row changes. |
| Database.ClaimLeases | src/lib/file-deletion.js:37-54 | A claimed row is due to nobody for the whole lease, and due again then. |
| Database.Database.FinishOne | src/lib/file-deletion.js:61-86 | Settlement fenced on the attempt number; what is reported does not depend on the fence. |
| Database.Database.ProcessFileDeletions | src/lib/file-deletion.js:107-125 | Every claimed row ends as its own run prescribes, one whose update fails is not due again before its lease ends, a failing reaper stops nothing, and done + retry + dead = claimed with each counted exactly. |
| Database.Database.DeadLetterExhausted | src/lib/file-deletion.js:93-104 | Parks exactly the rows out of attempts whose lease has lapsed. |
| Database.Database.RequeueDead | src/lib/file-deletion.js:149-155 | DEAD rows start again at zero attempts. |
| Database.Database.PruneFinished | src/lib/file-deletion.js:158-168 | Removes a batch of finished, old enough rows and nothing else; no unfinished row is lost. |
| Effects.AdmissionIsExact | src/lib/quota.js:10-50 | Both reservations admit exactly an ACTIVE account whose plan still has room, possibly to the last byte, and raise exactly their own counter by the bytes. |
| Effects.CreationIsExact | src/routes/upload.routes.js:156-204 | An admitted session reserves exactly the requested size and records owner, layout and deadline; a refused one changes nothing. |
| Effects.ReservationIsExact | src/lib/upload-reservation.js:23-34 | An admitted reservation takes exactly the declared bytes under a lease from now. |
| Effects.StatusIsSet | src/lib/account.js:15-23 | The status is the one that was set, for that account only, and one that is not ACTIVE is admitted nothing. |
| Effects.PlansMoveOnlyAsAllowed | src/lib/entitlements.js:49-113 | A plan that is not free is reached only with an entitlement and by an ACTIVE account, a downgrade only from the unpaid plan to a free one without an entitlement, and only where usage fits. |
| Effects.AllowedPlansMove | src/lib/entitlements.js:49-113 | And every such move is made. |
| Effects.ReservationLeaseIsExact | src/lib/upload-reservation.js:37-43 | After a renewal the sweeper can release the reservation exactly past the new lease. |
| Effects.NewReservationLeaseIsExact | src/lib/upload-reservation.js:23-34 | The same after its creation. |
| Effects.ClaimIsExact | src/lib/upload-session.js:209-226 | A claim is granted exactly on an open session before its deadline, counts as one more, and is stale exactly past its lease. |
| Effects.RenewalIsExact | src/lib/upload-session.js:229-235 | A renewal keeps recovery away exactly for a lease from now, and changes nothing else. |
| Effects.JobLeaseIsExact | src/lib/file-deletion.js:37-54 | A claimed deletion job is due to nobody until the lease ends, and due again then. |
| Effects.InsertionIsExact | src/lib/upload-session.js:185-203 | Each answer of a part insertion is given exactly in its case: account, session, status, deadline, number. |
| Effects.PartAppearsOnlyIfOpen | src/lib/upload-session.js:172-203 | Of all steps only a part's own upload adds its row, to a session open for it, with the measured bytes at their place. |
| Effects.OpenPartsAreAccepted | src/lib/upload-session.js:185-203 | And into an open session with that number free it always does. |
| Effects.EndsForAReason | src/routes/upload.routes.js:586-617 | A session is aborted only by an abort and expires only once its deadline has passed. |
| Effects.ReleaseGoesThrough | src/lib/upload-session.js:154-170 | An uninterrupted abort or expiry reaches its target and returns exactly the session's bytes. |
| Effects.RecoveryGoesThrough | src/lib/upload-session.js:290-320 | An uninterrupted recovery reopens a stale session before its deadline and expires it after. |
| Effects.SupersededWritesAreVoid | src/lib/upload-session.js:299-302 | A recovery, abort or expiry is void once the row no longer is what was read. |
| Effects.SweepGoesThrough | src/lib/upload-reservation.js:88-124 | An uninterrupted sweep releases a lapsed reservation. |
| OutcomeEffects.FreezeIsExact | src/routes/upload.routes.js:437-449 | Exactly a complete list is assembled; any other is handed back. |
| OutcomeEffects.ReadPartIsExact | src/lib/storage.js:141-158 | A readable part is appended; an unreadable one ends the attempt, naming exactly that part. |
| OutcomeEffects.PublicationIsExact | src/routes/upload.routes.js:500-551 | A publishing commit creates exactly that file, completes the session and moves exactly its bytes. |
| OutcomeEffects.FailedCommitIsUndone | src/routes/upload.routes.js:552-561 | A failed one changes no table and removes its object; the session is handed back unless the lease was lost. |
| OutcomeEffects.GiveBackIsExact | src/lib/upload-session.js:238-244 | Only the holder's hand-back reopens the session, deadline and all. |
| OutcomeEffects.MissingRowIsDeleted | src/routes/upload.routes.js:467-481 | The reported row is deleted if it still names the missing object, and no other. |
| OutcomeEffects.RepairIsExact | src/routes/upload.routes.js:284-298 | The upload path does the same only while the session is open. |
| OutcomeEffects.DeclaredCommitIsExact | src/routes/file.routes.js:181-227 | A declared upload is committed as the object it staged, its reservation names the file, and exactly its bytes move; otherwise nothing changes. |
| OutcomeEffects.MeasuredCommitIsExact | src/routes/file.routes.js:181-227 | An undeclared one is committed exactly where the measured bytes have room. |
| OutcomeEffects.DeletionIsExact | src/lib/file-delete.js:8-53 | Exactly an ACTIVE file of that user is deleted, refunded, and its removal due at once. |
| OutcomeEffects.RemovalIsExact | src/lib/file-deletion.js:61-65 | A successful removal takes exactly the worker's object. |
| OutcomeEffects.DoneIsKept | src/lib/file-deletion.js:158-168 | A finished row can be pruned exactly past its retention. |
| OutcomeEffects.FailureIsExact | src/lib/file-deletion.js:65-78 | A failed row is parked exactly on its last attempt and otherwise due exactly after the delay. |
| OutcomeEffects.FencedSettlementIsVoid | src/lib/file-deletion.js:56-86 | A settlement the fence refuses changes no table. |
| OutcomeEffects.ReaperIsExact | src/lib/file-deletion.js:93-104 | Exactly the rows out of attempts whose last lease has lapsed are parked. |
| OutcomeEffects.RequeueIsExact | src/lib/file-deletion.js:148-155 | Exactly the parked rows become due at once, as if never tried. |
| Safety.CountersAreExact | src/lib/quota.js:10-86 | In every world of every run: reservedUploadBytes is the sum over open sessions and PENDING reservations, storageUsed the sum over ACTIVE files, and both together fit the current plan. |
| Safety.ClampsNeverFire | src/lib/quota.js:52-63 | No release or refund ever subtracts more than is there, so GREATEST(x, 0) never changes a result. |
| Safety.TokenHolderCommits | src/routes/upload.routes.js:500-514 | The holder of the current token is refused if and only if the account is not ACTIVE; UPLOAD_RESERVATION_INVALID cannot happen to it. |
| Safety.PendingOwnerCommits | src/lib/upload-reservation.js:63-76 | The same for the owner of a PENDING reservation that commits its declared size. |
| Ledger.CommitNeedsDeclaredSize | src/routes/file.routes.js:171-179 | A one-shot commit keeps the ledger exact if and only if the measured size equals the reserved one, which is why the handler compares them. |
| Ledger.ReleaseReservationKeeps | src/lib/upload-reservation.js:88-105 | Releasing keeps counters, plan limits and owners consistent. |
| Ledger.CommitCompletionKeeps | src/routes/upload.routes.js:500-551 | So does the fenced commit of the declared size. |
| Ledger.SoftDeleteKeeps | src/lib/file-delete.js:8-53 | So does logical deletion. |
| Safety.UsageGrowsOnlyByAdmission | src/lib/quota.js:3-8 | Usage of an account grows only by its own create, reserve or undeclared commit, and only while it is ACTIVE. |
| Safety.ReservationEndIsFinal | src/lib/upload-reservation.js:12-16 | A COMMITTED or RELEASED reservation row never changes again. |
| Safety.ReservationEndsOnce | src/lib/upload-reservation.js:12-16 | Two steps of a run that take the same reservation out of PENDING are the same step. |
| Safety.SessionEndsOnce | src/lib/upload-session.js:154-170 | Two steps that take the same session out of UPLOADING and COMPLETING are the same step, so its bytes leave `reserved` once. |
| Safety.RowsNeverVanish | src/lib/upload-reservation.js:12-16 | No step removes a session or reservation row, so leaving the open state is ending. |
| Integrity.UsedFallsOnlyByRefund | src/lib/file-delete.js:29-40 | storageUsed falls only by the refund of a file that was ACTIVE, and by exactly its size. |
| Preservation.ReachableOk | src/lib/upload-session.js:7-15 | The whole invariant holds after every step of every actor, in any interleaving. |
| SessionSteps.SessionKeeps | src/lib/upload-session.js:154-203 | Create, part, abort, expiry and recovery steps keep it, also when a renewal lands between a read and its write. |
| CompletionSteps.CompletionKeeps | src/routes/upload.routes.js:427-561 | Claim, renewal, freeze, assembly, commit, hand-back and repair keep it. |
| OneShotSteps.OneShotKeeps | src/routes/file.routes.js:115-240 | Every step of one-shot uploads and their sweeper keeps it. |
| OutboxSteps.OutboxKeeps | src/lib/file-deletion.js:37-168 | Deletions, claims, settlements, requeues and prunes keep it. |
| Safety.AtMostOneFile | src/routes/upload.routes.js:500-551 | Two completions that both published the same session are the same completion, and the COMPLETED session names its file. |
| Safety.PublishedByOneStep | src/routes/upload.routes.js:500-551 | Two commits of a run that both publish the same session are the same step. |
| Safety.SessionShape | src/lib/upload-session.js:209-244 | fileId is set exactly in COMPLETED, token and lease exactly in COMPLETING, and the file has the declared size. |
| Safety.TerminalIsAbsorbing | src/lib/upload-session.js:154-170 | A COMPLETED, ABORTED or EXPIRED row never changes again. |
| Safety.LostTokenStaysLost | src/lib/upload-session.js:284-289 | A superseded token never becomes current again, so it neither commits nor hands back. |
| Safety.HeldWithoutInterruption | src/lib/upload-session.js:205-226 | Whoever holds the session now has held it at every moment since its claim. |
| Safety.LiveCompletionIsItsHolders | src/lib/upload-session.js:290-320 | A COMPLETING session with an unexpired lease is left only by its holder's own commit or hand-back. |
| Safety.LiveReservationIsItsHandlers | src/lib/upload-reservation.js:82-105 | An unexpired reservation leaves PENDING only by its own handler, never by the sweeper. |
| Integrity.PartsWhileCompleting | src/routes/upload.routes.js:437-481 | While COMPLETING no part row appears or changes, and one disappears only as the exact pair reported missing. |
| Integrity.HeldPartsOnlyShrink | src/lib/upload-session.js:172-184 | The same over a whole run. |
| Integrity.ListWasRead | src/routes/upload.routes.js:437-449 | Whatever list is being assembled was read from the tables by that completer, after its claim. |
| Integrity.PublicationStory | src/routes/upload.routes.js:427-551 | A commit's bytes are the concatenation of a complete list read after its own claim, assembled and found to match the final checksum in between; the token was held at every moment and the list still accounts for every part row. |
| Integrity.AssemblySizeMatches | src/routes/upload.routes.js:485-490 | An assembly that read every part never differs from the declared size. |
| Integrity.AssemblyWasChecked | src/routes/upload.routes.js:491-496 | Whoever is ready to commit finished its assembly in an earlier step whose checksum matched, with the same list, name and bytes. |
| Integrity.MismatchIsHandedBack | src/routes/upload.routes.js:491-496 | A differing checksum stores nothing, changes no table and hands the session back. |
| Integrity.ReadyExactlyIfChecked | src/routes/upload.routes.js:485-496 | Of complete assemblies exactly those whose checksum matches become ready, with their object stored. |
| Provenance.ChunkIsWhatWasWritten | src/routes/upload.routes.js:317-322 | A stored chunk holds exactly the bytes of the step that wrote it. |
| Provenance.PublishedPartWasSent | src/lib/storage.js:135-168 | Piece n of a published upload is what the client sent for that part. |
| Provenance.ObjectIsWhatWasStored | src/routes/file.routes.js:152-161 | A stored object, and so the content of an ACTIVE file, is what one upload or one checked assembly stored. |
| Integrity.PublishedContent | src/routes/upload.routes.js:500-551 | Ever after, the published file has the declared size and owner, and while ACTIVE its object is that concatenation. |
| Integrity.NoObjectIsLost | src/lib/file-deletion.js:61-86 | No worker ever removes an ACTIVE file's object; a DELETED file whose object exists has a PENDING or DEAD job. |
| Integrity.DeletionIsFinal | src/lib/file-delete.js:8-27 | DELETED is final, and an object once gone never comes back. |
| Integrity.RefundedOnce | src/lib/file-delete.js:8-53 | Two refunds of one file in one run are the same step. |
| Integrity.DeletedWasRefunded | src/lib/file-delete.js:8-53 | Every DELETED file was refunded by some step: exactly once, with the row above. |
| Integrity.DoneMeansGone | src/lib/file-deletion.js:79-85 | DONE implies the object is gone, then and ever after. |
| Leases.OnlyTheNewestSettles | src/lib/file-deletion.js:56-86 | Since the last requeue a settlement changes its row if and only if it comes from the newest claim. |
| Leases.FenceFailsAcrossRequeue | src/lib/file-deletion.js:148-155 | Against a leased row another worker's settlement applies if and only if it is from before a requeue and its attempt number is the same. |
| Leases.LeaseIsLostOnlyTo | src/lib/file-deletion.js:37-104 | Over all steps of all actors, the holder of an unexpired lease loses it if and only if the step is its own settlement or such a late one. |
| Leases.LostLeaseStaysLost | src/lib/file-deletion.js:56-60 | A worker that does not hold its job's lease never comes to hold it. |
| Leases.HeldUnlessRobbed | src/lib/file-deletion.js:37-86 | Over a run, an unexpired and unsettled lease is the one in the row if and only if no late settlement took it away. |
| Leases.LiveLeasesAreExclusive | src/lib/file-deletion.js:37-54 | Two unexpired leases on one file are the same, unless a late settlement robbed one of them earlier in the run. |
| Leases.ExclusiveUntilRequeued | src/lib/file-deletion.js:37-54 | On a job that was never requeued two unexpired leases are the same. |
| Leases.LateClaimIsNotRobbed | src/lib/file-deletion.js:148-155 | A claim made after everything before it had settled is never robbed until its job is requeued again. |
| Leases.RequeueAfterSettlementIsSafe | src/lib/file-deletion.js:148-155 | So a requeue after every claim of the job has settled keeps leases exclusive, which an operator can check. |
| LeaseRace.ExclusionFailsAcrossRequeue | src/lib/file-deletion.js:93-155 | For any one configuration with at least two attempts and a first delay shorter than the lease, a run from the start, reaper included, ends in two unexpired leases on one file. |
| LeaseRace.DefaultsAllowTwoLeases | src/lib/file-deletion.js:15-26 | In particular with the default settings, whatever the jitter. |
| LockOrder.OperationsAreOrdered | src/lib/upload-session.js:7-46 | Every transaction takes the User row before the session or reservation row, and no row twice. |
| LockOrder.NoCycle | src/lib/upload-session.js:7-46 | In no reachable state do transactions wait for one another in a cycle. |
| LockOrder.SomebodyCanMove | src/lib/upload-session.js:7-46 | While transactions are under way, one is not waiting or can be granted its lock. |
| LockOrder.LocksExclude | src/lib/upload-session.js:172-184 | In no reachable state do two transactions hold one row in conflicting modes. |
| LockOrder.InsertionsExclude | src/lib/upload-session.js:172-203 | Parts of one account are inserted side by side, and exclude every claim, commit, abort, expiry, recovery and account change. |
| LockOrder.CounterMovesExclude | src/lib/upload-session.js:7-37 | Whatever moves an account's counters excludes every other such move and every change of the account. |
| LockOrder.SessionStatementsExclude | src/lib/upload-session.js:209-244 | Claims, renewals and hand-backs exclude one another and whatever ends the session. |
| LockOrder.ReservationStatementsExclude | src/lib/upload-reservation.js:37-105 | A heartbeat excludes the commit and the release of its reservation. |
| LockOrder.UpgradesDeadlock | src/lib/upload-session.js:38-46 | Two transactions that read the User row shared and then upgrade are, after four steps, both blocked for good. |
| Gate.Gate.constructor | src/lib/idempotency.js:51-56 | A new gate is empty and consistent. |
| Gate.Gate.Acquire | src/lib/idempotency.js:105-123 | Admits exactly when the true holders are below both caps, recording owner and tag; otherwise refuses only at a queue bound and else queues last. Nobody else's place changes and every counter stays the number of true holders and waiters. |
| Gate.AnswerMeans | src/lib/idempotency.js:105-123 | What each answer means for the grants and the queue. |
| Gate.Gate.Release | src/lib/idempotency.js:72-85 | The first call frees the slot and dispatches; every later call changes nothing. |
| Gate.Gate.Next | src/lib/idempotency.js:86-98 | The scan terminates, does what the dispatch function says, and leaves no admissible waiter. |
| Gate.Gate.Timeout | src/lib/idempotency.js:112-119 | IN_PROGRESS exactly when some holder of the same owner carries the waiter's tag. |
| Gate.DispatchKeeps | src/lib/idempotency.js:86-98 | A dispatch keeps every cap and every owner's arrival order, and when it ends nobody queued could be admitted. |
| Gate.DispatchKeepsWaiters | src/lib/idempotency.js:86-98 | A waiter still waits or now holds a slot under its own owner and tag; no grant is taken away. |
| Gate.DispatchConserves | src/lib/idempotency.js:86-98 | No request appears or disappears in a dispatch. |
| Gate.NobodyWaits | src/lib/idempotency.js:105-106 | An owner that can run has nobody queued, so a new request never overtakes one of its own. |
| Gate.Bump | src/lib/idempotency.js:59-63 | A counter moves by the delta, no other key does, and zero entries are dropped. |
| Gate.BumpTag | src/lib/idempotency.js:65-71 | The same per owner and tag; an owner without tags has no entry. |
| Idempotency.ReachableOk | src/lib/idempotency.js:186-264 | The table holds the last execution's record until it has expired, whatever requests, rollbacks and prunes interleave. |
| Idempotency.ExecutionsAreApart | src/lib/idempotency.js:219-232 | An execution commits only after every earlier record expired, and at most once per request. |
| Idempotency.NobodyExecutesInWindow | src/lib/idempotency.js:210-232 | Until the record expires no request even begins to execute. |
| Idempotency.OneExecutionPerWindow | src/lib/idempotency.js:186-264 | From a commit until expiry nothing else commits, and every request answered meanwhile got that status and body if its fingerprint matches, a mismatch exactly if it does not, or no result at all. |
| Idempotency.RecordsExpireByTtl | src/lib/idempotency.js:197-198 | A record carries its request's fingerprint and expires exactly its ttl after the request arrived. |
| Idempotency.NothingCommitsWithinTtl | src/lib/idempotency.js:186-264 | So within the ttl since the request arrived nothing commits after it. |
| Idempotency.EntryArrived | src/lib/idempotency.js:186-200 | Every request that is known arrived in an earlier step. |
| Idempotency.FastPathReplays | src/lib/idempotency.js:201-208 | A request that finds an unexpired record is answered from it at once. |
| Idempotency.FastPathPasses | src/lib/idempotency.js:201-210 | One that finds nothing unexpired goes on to its transaction. |
| Idempotency.SlowPathExecutes | src/lib/idempotency.js:212-232 | One whose transaction begins after the last record expired, and gets the lock, executes. |
| Idempotency.SlowPathReplays | src/lib/idempotency.js:234-246 | One whose transaction begins before is answered from it. |
| Idempotency.CommitRecordsExactly | src/lib/idempotency.js:248-254 | What an execution returned is what is recorded, what its caller is told and what every reply repeats. |
| Idempotency.TimeoutMeansRunning | src/lib/idempotency.js:213-217 | A lock timeout means another identical request holds the lock. |
| Idempotency.FastAnswerIsLast | src/lib/idempotency.js:201-208 | An unexpired record read on the fast path is still the last execution's when it is answered. |
| Idempotency.OnlyExecutedRequestsAreLogged | src/lib/idempotency.js:234-254 | A mismatch, conflict or failure executed nothing, and every result told belongs to an execution with the same fingerprint. |
| Idempotency.UncheckedPruneReopensTheWindow | src/lib/idempotency.js:267-275 | Were a record deleted without a second look at its expiry, the lock holder would execute again inside the window. |
| PasswordPool.PasswordHasher.constructor | src/lib/password-hasher.js:37-43 | Concurrency is raised to one and a negative queue to zero. |
| PasswordPool.PasswordHasher.IdleSlot | src/lib/password-hasher.js:75-77 | Finds or creates an idle worker, or all `size` workers are busy. |
| PasswordPool.PasswordHasher.Pump | src/lib/password-hasher.js:79-90 | Dispatches min(waiting, size - busy) tasks from the head. |
| PasswordPool.PasswordHasher.Submit | src/lib/password-hasher.js:92-114 | Starts at once, queues, or refuses, exactly by workers and queue length; closed pools refuse. |
| PasswordPool.PasswordHasher.Answer | src/lib/password-hasher.js:48-57 | A message settles what its worker still works on, once, and the longest waiting task takes its place; any other message changes nothing. |
| PasswordPool.PasswordHasher.Lost | src/lib/password-hasher.js:58-68 | A lost worker's task is refused once and counted as a failure; its place goes to the longest waiting task. |
| PasswordPool.PasswordHasher.TimeOut | src/lib/password-hasher.js:105-110 | A timed-out task leaves the queue and is refused. |
| PasswordPool.PasswordHasher.Close | src/lib/password-hasher.js:128-139 | Everything submitted is settled, and nothing that was settled is settled again. |
| PasswordPool.DispatchKeeps | src/lib/password-hasher.js:79-90 | Moving the head to an idle worker keeps every task in exactly one place. |
| PasswordPool.SettleKeeps | src/lib/password-hasher.js:48-68 | Settling a worker's task keeps every task in exactly one place, and it was not settled before. |
| PasswordPool.SubmitKeeps | src/lib/password-hasher.js:92-114 | A submission keeps order and both counter equations. |
| BoundedTtlMap.BoundedTtlMap.Get | src/lib/bounded-ttl-map.js:21-31 | Never another value than the unbounded map's, and the same answer when fewer than maxEntries other keys were set since. |
| BoundedTtlMap.BoundedTtlMap.Set | src/lib/bounded-ttl-map.js:33-55 | Refuses a non-positive lifetime; otherwise keeps the other keys in order, sweeping and then evicting only as far as the bound needs, and holds the new value last. |
| BoundedTtlMap.BoundedTtlMap.Delete | src/lib/bounded-ttl-map.js:57-59 | Reports whether there was an entry; there is none afterwards. |
| BoundedTtlMap.BoundedTtlMap.SweepExpired | src/lib/bounded-ttl-map.js:61-65 | Deleting while iterating keeps exactly the unexpired entries, in order. |
| BoundedTtlMap.LiveEntriesStay | src/lib/bounded-ttl-map.js:38-47 | An unexpired entry is given up only from a map full of unexpired ones, and then only the oldest. |
| BoundedTtlMap.WrittenUntilExpired | src/lib/bounded-ttl-map.js:21-31 | A value is read from its writing until it expires, and no longer. |
| BoundedTtlMap.EvictedWasOld | src/lib/bounded-ttl-map.js:44-47 | What the bound evicts was set before maxEntries other keys. |
| BoundedTtlMap.AnswerAgrees | src/lib/bounded-ttl-map.js:21-31 | A missing live entry implies maxEntries distinct other keys set since. |
| Throttle.Counters.LocalCheck | src/lib/throttle.js:52-68 | The process-local window counts and decides as the window functions say. |
| Throttle.Counters.SharedCheck | src/lib/throttle.js:88-107 | So does the shared row. |
| Throttle.DecisionsAgree | src/lib/throttle.js:52-107 | Both give the same allowed, remaining and retry time if and only if the limit is at least one or a window is running. |
| Throttle.StoresAgree | src/lib/throttle.js:110-115 | Pruning is unobservable: after any history both stores show the same running window. |
| Throttle.SameAnswers | src/lib/throttle.js:52-115 | After any history of checks and prunings the next caller gets the same answer from either store. |
| Throttle.CeilSecondsIsLeast | src/lib/throttle.js:66 | The least whole number of seconds that is not too short. |
| Throttle.RetryAfterOutlastsTheWindow | src/lib/throttle.js:62-67 | Waiting the told time outlasts the running window, and a second less would not, in either store. |
| Throttle.RemainingIsWhatIsLeft | src/lib/throttle.js:101-106 | `remaining` is the number of further calls this window admits. |
| Throttle.BelowTwiceTheLimit | src/lib/throttle.js:88-107 | No half-open interval of one window length admits more than 2 * limit - 1 calls. |
| Throttle.BoundIsReached | src/lib/throttle.js:88-107 | And that many can be admitted. |
| Pagination.RowsAreOrdered | src/lib/pagination.js:59-61 | (value, id) is a strict total order in either direction. |
| Pagination.ValuesAscendNaturally | src/lib/pagination.js:59-61 | Dates and numbers are ordered as such, texts by their first difference. |
| Pagination.DirectionsAreNamed | src/lib/pagination.js:48-61 | asc lists smaller values first, desc larger ones, and ids run the same way. |
| Pagination.WhereContinues | src/lib/pagination.js:48-57 | The WHERE clause selects exactly the rows after the cursor in the ORDER BY. |
| Pagination.PageHolds | src/lib/pagination.js:63-75 | A page misses a row of its table only if it has a full page before it and says there is more. |
| Pagination.WalkAscends | src/lib/pagination.js:48-75 | The items of a walk strictly ascend whatever is inserted or deleted between pages, so none is repeated. |
| Pagination.StableRowsExactlyOnce | src/lib/pagination.js:48-75 | Every row that stays with an unchanged key is returned exactly once, in order. |
| Pagination.UnchangedTableIsReturnedWhole | src/lib/pagination.js:48-75 | On an unchanging table the pages together are the sorted table. |
| Pagination.OwnCursorIsReadBack | src/lib/pagination.js:17-46 | A cursor is read back as its own row if and only if its JSON text has at most 768 bytes (1024 characters encoded). |
| Pagination.DateAndNumberCursorsFit | src/lib/pagination.js:17-46 | Date and 64-bit number cursors always fit. |
| Pagination.LongNamesBreakTheWalk | src/lib/pagination.js:17-46 | The cursor of a file name of 255 Chinese characters is refused by the service that issued it. |
| Pagination.WalkReadsItsCursors | src/lib/pagination.js:28-46 | A walk has passed only rows whose cursors can be read back. |
| Pagination.LongNamesEndTheWalk | src/lib/pagination.js:17-75 | No walk sorted by name goes on after a page that ends in such a name. |
| Pagination.WalkExists | src/lib/pagination.js:48-75 | For dates and 64-bit numbers a walk over an unchanging table exists and has max(1, ceil(rows / limit)) pages. |
| Pagination.ForeignCursorIsRefused | src/lib/pagination.js:38-40 | A cursor for another sort or direction is refused. |
| ByteRanges.MatchesExactly | src/lib/range.js:6-11 | The pattern matches a string exactly when it is the text of two runs of digits. |
| ByteRanges.SelectsTheNamedBytes | src/lib/range.js:1-46 | A well-formed single range selects exactly the bytes section 14.1.2 of RFC 9110 names, within the representation, and is refused exactly when it names none; the error codes are told apart. |
| ByteRanges.RefusesTheRest | src/lib/range.js:6-18 | Every other non-empty header is INVALID_RANGE. |
| ByteRanges.NoHeaderNoRange | src/lib/range.js:2-4 | Without a header, or with nothing to serve, there is no range and no error. |
| ByteRanges.ReadsContentRange | src/lib/upload-session.js:77-93 | Any text of three numbers is read as those numbers unless the end precedes the start. |
| ByteRanges.ReadsOnlyContentRanges | src/lib/upload-session.js:77-93 | And only such texts are accepted. |
| ByteRanges.PrintedRangeIsReadBack | src/lib/range.js:48-50 | The Content-Range printed for a satisfied range is read back as the same start, end and total. |
| ByteRanges.PartRangeIsExact | src/lib/upload-session.js:95-108 | A part's range is accepted exactly when start, end and total are all three those of the part. |
| ByteRanges.OnlyItsOwnRange | src/lib/upload-session.js:95-108 | A part's canonical Content-Range is accepted for that part and refused for every other part of the session. |
| ByteRanges.PrintThenParse | src/lib/range.js:48-50 | Decimal printing and reading are inverse. |

## Left out

- HTTP routing, headers, schemas, status codes, logging, metrics and audit rows: plumbing around the steps.
- PostgreSQL's snapshots and SQL text: each statement is one atomic step on the tables.
- Streams, aborts and file descriptors of storage.js; an object is the bytes written under its name.
- SHA-256, HMAC, bcrypt and random identifiers: digests are strings, the final checksum comparison is an arbitrary
  boolean, identifiers are fresh.
- Key validation and payload canonicalisation of idempotency.js: keys are fixed and fingerprints are strings.
- backoffMs: the delay after a failed removal is a parameter.
- Redis, the hold-down and the fallback chain of throttle.js; the degraded stores are modelled, one bucket at a time and
  without eviction of the bucket.
- Entitlement and billing event rows: whether a user is entitled is a parameter of the plan steps.
- Registration, authVersion and roles: nothing in the ledger reads them.
- COMPLETING sessions without a lease, which only older releases wrote.
- Bytes left behind by crashed uploads, and the removal of chunk directories; any chunk may become unreadable at any time.
- Where recovery and part insertion hold the User row across two statements the machine lets other steps in between, so
  it has more interleavings than the service.
- A bound of `attempts` by `maxAttempts`: the reaper may fail and reads its own clock, so there is none.
- Database.Database.ReconcileExpiredReservations: states one pass without other writers; a renewal between its read and a
  release is in the machine (`LiveReservationIsItsHandlers`).
- Database.Database.CleanupUploadSessions: states one pass without other writers, and leaves out the pruning and chunk
  removal it also triggers.
- Gate.Gate.Timeout: a timer that fires is a call with the position of its waiter; timers themselves are not modelled.
- UploadParts.PlanLayout: the refusal of an upload of too many parts, which comes before anything is written.
- Integrity.AssemblyWasChecked: an upload that was created without a checksum counts as one whose checksum matches.
- Database.Database.SwitchPlanIfEntitled: the entitlement subquery is the parameter `entitled`.
- Database.Database.DowngradeIfUnentitled: so is the remaining entitlement, and the fallback plan is named by its id.
- Database.Database.SetAccountStatus: does not model the authVersion it also raises, which no other statement here reads.
- Database.CleanupLeavesNoneBehind: states one pass in which no recovery fails.
- Database.Database.ClaimFileDeletions: which due rows are taken, and in what order, is the parameter `batch`.
- Database.Database.ProcessFileDeletions: settles the rows one after another at one clock reading; every interleaving of
  workers, each with its own clock, is in the machine.
- Throttle.Counters.LocalCheck: does not model the eviction of a bucket from the bounded map, which BoundedTtlMap covers.
- PasswordPool.PasswordHasher.Submit: the payload and the hash are not modelled, only its number.
- BoundedTtlMap.BoundedTtlMap.Set: the cleanup timer is not modelled; a sweep may happen at any time. The constructor's
  refusal of a bound below one is a precondition.
- Idempotency.ReachableOk: a deletion of expired records that had to wait for its row is taken to look at the expiry
  again before it deletes; `UncheckedPruneReopensTheWindow` says what would follow if it did not.
- Pagination.OwnCursorIsReadBack: JSON and base64url are taken as invertible, with their lengths computed; forged cursors
  are not modelled, and text is ordered by code point where the database has its own collation.
