/**
 The database tables of the upload service, and what each SQL statement or transaction does to them.
 A conditional statement returns None when its WHERE clause matched no row; the tables are then unchanged,
 which is also the effect of a transaction that rolled back.
 */
module Tables {
  import opened Wrappers
  import opened UploadParts

  type Id = nat
  type Time = nat

  datatype UserStatus = ActiveUser | SuspendedUser | DeletedUser
  datatype User = User(status: UserStatus, planId: Option<Id>, storageUsed: int, reservedUploadBytes: int)
  datatype Plan = Plan(storageLimit: nat, free: bool)

  datatype SessionStatus = Uploading | Completing | Completed | Aborted | Expired
  datatype Session = Session(
    owner: Id, layout: Layout, status: SessionStatus, expiresAt: Time, fileId: Option<Id>,
    completionToken: Option<Id>, leaseUntil: Option<Time>, generation: nat)

  /** Parts are unique per (session, part number). */
  datatype PartKey = PartKey(session: Id, number: nat)

  datatype ReservationState = Pending | Committed | Released
  datatype Reservation = Reservation(owner: Id, bytes: nat, state: ReservationState, leaseUntil: Time,
      fileId: Option<Id>)

  datatype FileStatus = ActiveFile | DeletedFile
  datatype File = File(owner: Id, storedName: Name, size: nat, status: FileStatus)

  /** One outbox row per deleted file; the file id is the unique key. */
  datatype JobStatus = Queued | Done | Dead
  datatype Job = Job(
    storedName: Name, status: JobStatus, attempts: nat, nextAttemptAt: Time,
    lockedUntil: Option<Time>, completedAt: Option<Time>)

  datatype Db = Db(
    plans: map<Id, Plan>, users: map<Id, User>, sessions: map<Id, Session>, parts: map<PartKey, Part>,
    reservations: map<Id, Reservation>, files: map<Id, File>, jobs: map<Id, Job>)
  {
    function WithUser(id: Id, u: User): Db { this.(users := users[id := u]) }
    function WithSession(id: Id, s: Session): Db { this.(sessions := sessions[id := s]) }
    function WithReservation(id: Id, r: Reservation): Db { this.(reservations := reservations[id := r]) }
    function WithFile(id: Id, f: File): Db { this.(files := files[id := f]) }
    function WithJob(id: Id, j: Job): Db { this.(jobs := jobs[id := j]) }

    predicate Active(id: Id) { id in users && users[id].status == ActiveUser }
  }

  // ----- Which tables a statement leaves alone

  predicate KeepsRows(a: Db, b: Db) {
    a.plans == b.plans && a.parts == b.parts && a.jobs == b.jobs
  }

  predicate OnlyUsers(a: Db, b: Db) {
    KeepsRows(a, b) && a.sessions == b.sessions && a.reservations == b.reservations && a.files == b.files
  }

  predicate OnlySessions(a: Db, b: Db) {
    KeepsRows(a, b) && a.reservations == b.reservations && a.files == b.files
  }

  predicate OnlyReservations(a: Db, b: Db) {
    KeepsRows(a, b) && a.sessions == b.sessions
  }

  predicate OnlyParts(a: Db, b: Db) {
    a.plans == b.plans && a.users == b.users && a.sessions == b.sessions && a.reservations == b.reservations
    && a.files == b.files && a.jobs == b.jobs
  }

  predicate OnlyJobs(a: Db, b: Db) {
    a.plans == b.plans && a.users == b.users && a.sessions == b.sessions && a.parts == b.parts
    && a.reservations == b.reservations && a.files == b.files
  }

  // ----- Quota statements

  predicate FitsPlan(db: Db, planId: Id, bytes: int) {
    planId in db.plans && bytes <= db.plans[planId].storageLimit
  }

  /** An ACTIVE account on a plan that still admits `bytes` more. */
  predicate Admits(db: Db, user: Id, bytes: nat) {
    && db.Active(user)
    && db.users[user].planId.Some?
    && FitsPlan(db, db.users[user].planId.value,
      db.users[user].storageUsed + db.users[user].reservedUploadBytes + bytes)
  }

  function ReserveUploadQuota(db: Db, user: Id, bytes: nat): (r: Option<Db>)
    ensures r.Some? ==> OnlyUsers(db, r.value)
  {
    if !Admits(db, user, bytes) then None else
      var u := db.users[user];
      Some(db.WithUser(user, u.(storageUsed := u.storageUsed + bytes)))
  }

  function ReservePendingUploadQuota(db: Db, user: Id, bytes: nat): (r: Option<Db>)
    ensures r.Some? ==> OnlyUsers(db, r.value)
  {
    if !Admits(db, user, bytes) then None else
      var u := db.users[user];
      Some(db.WithUser(user, u.(reservedUploadBytes := u.reservedUploadBytes + bytes)))
  }

  /** GREATEST(x, 0) of the release and refund statements. */
  function Clamp(x: int): int {
    if x < 0 then 0 else x
  }

  function ReleaseUploadReservation(db: Db, user: Id, bytes: nat): (r: Db)
    ensures OnlyUsers(db, r)
  {
    if user !in db.users then db else
      var u := db.users[user];
      db.WithUser(user, u.(reservedUploadBytes := Clamp(u.reservedUploadBytes - bytes)))
  }

  function CommitUploadReservation(db: Db, user: Id, bytes: nat): (r: Option<Db>)
    ensures r.Some? ==> OnlyUsers(db, r.value)
  {
    if !(Admits(db, user, 0) && db.users[user].reservedUploadBytes >= bytes) then None else
      var u := db.users[user];
      Some(db.WithUser(user,
        u.(storageUsed := u.storageUsed + bytes, reservedUploadBytes := u.reservedUploadBytes - bytes)))
  }

  // ----- Account and plan statements

  function SetAccountStatus(db: Db, user: Id, status: UserStatus): (r: Option<Db>)
    ensures r.Some? ==> OnlyUsers(db, r.value)
  {
    if user !in db.users then None else Some(db.WithUser(user, db.users[user].(status := status)))
  }

  function SwitchPlanIfFits(db: Db, user: Id, plan: Id): (r: Option<Db>)
    ensures r.Some? ==> OnlyUsers(db, r.value)
  {
    if !(db.Active(user) && FitsPlan(db, plan, db.users[user].storageUsed + db.users[user].reservedUploadBytes))
      then None
    else Some(db.WithUser(user, db.users[user].(planId := Some(plan))))
  }

  /** `entitled` is the outcome of the entitlement subquery for this user and plan. */
  function SwitchPlanIfEntitled(db: Db, user: Id, plan: Id, entitled: bool): (r: Option<Db>)
    ensures r.Some? ==> OnlyUsers(db, r.value)
  {
    if plan in db.plans && !(db.plans[plan].free || entitled) then None else SwitchPlanIfFits(db, user, plan)
  }

  function DowngradeIfUnentitled(db: Db, user: Id, plan: Id, fallback: Id, entitled: bool): (r: Option<Db>)
    ensures r.Some? ==> OnlyUsers(db, r.value)
  {
    if !(user in db.users && db.users[user].planId == Some(plan) && fallback in db.plans && db.plans[fallback].free
         && FitsPlan(db, fallback, db.users[user].storageUsed + db.users[user].reservedUploadBytes) && !entitled)
           then None
    else Some(db.WithUser(user, db.users[user].(planId := Some(fallback))))
  }

  // ----- Upload sessions

  function CreateSession(db: Db, id: Id, user: Id, layout: Layout, expiresAt: Time): (r: Option<Db>)
    ensures r.Some? ==> OnlySessions(db, r.value)
  {
    if id in db.sessions then None else
      match ReservePendingUploadQuota(db, user, layout.size)
      case None => None
      case Some(reserved) =>
        Some(reserved.WithSession(id, Session(user, layout, Uploading, expiresAt, None, None, None, 0)))
  }

  datatype Insertion = Inserted | Closed(status: Option<SessionStatus>) | AccountNotActive | DuplicatePart

  function InsertionOutcome(db: Db, id: Id, user: Id, part: Part, now: Time): Insertion {
    if user in db.users && !db.Active(user) then AccountNotActive
    else if id !in db.sessions || db.sessions[id].owner != user then Closed(None)
    else if db.sessions[id].status != Uploading then Closed(Some(db.sessions[id].status))
    else if db.sessions[id].expiresAt <= now then Closed(Some(Expired))
    else if PartKey(id, part.partNumber) in db.parts then DuplicatePart
    else Inserted
  }

  function InsertPartIfOpen(db: Db, id: Id, user: Id, part: Part, now: Time): (r: Db)
    ensures OnlyParts(db, r)
  {
    if InsertionOutcome(db, id, user, part, now) != Inserted then db
    else db.(parts := db.parts[PartKey(id, part.partNumber) := part])
  }

  /** Deletes exactly the row that still names `storedName`; the repair path also requires an open session. */
  function DeletePartRow(db: Db, id: Id, number: nat, storedName: Name, onlyWhileUploading: bool): (r: Option<Db>)
    ensures r.Some? ==> OnlyParts(db, r.value)
  {
    var key := PartKey(id, number);
    if !(key in db.parts && db.parts[key].storedName == storedName && id in db.sessions
         && (onlyWhileUploading ==> db.sessions[id].status == Uploading)) then None
    else Some(db.(parts := db.parts - {key}))
  }

  function ReleaseSession(db: Db, id: Id, observed: SessionStatus, target: SessionStatus): (r: Option<Db>)
    ensures r.Some? ==> OnlySessions(db, r.value)
  {
    if !(id in db.sessions && db.sessions[id].status == observed) then None else
      var s := db.sessions[id];
      var closed := db.WithSession(id, s.(status := target, completionToken := None, leaseUntil := None));
      Some(ReleaseUploadReservation(closed, s.owner, s.layout.size))
  }

  function ClaimCompletion(db: Db, id: Id, token: Id, now: Time, leaseMs: nat): (r: Option<Db>)
    ensures r.Some? ==> OnlySessions(db, r.value)
  {
    if !(id in db.sessions && db.sessions[id].status == Uploading && db.sessions[id].expiresAt > now) then None else
      var s := db.sessions[id];
      Some(db.WithSession(id, s.(status := Completing, completionToken := Some(token),
                                 leaseUntil := Some(now + leaseMs), generation := s.generation + 1)))
  }

  /** The fence: the session is COMPLETING under exactly this token. */
  predicate HoldsToken(sessions: map<Id, Session>, id: Id, token: Id) {
    id in sessions && sessions[id].status == Completing && sessions[id].completionToken == Some(token)
  }

  function RenewCompletionLease(db: Db, id: Id, token: Id, now: Time, leaseMs: nat): (r: Option<Db>)
    ensures r.Some? ==> OnlySessions(db, r.value)
  {
    if !HoldsToken(db.sessions, id, token) then None
    else Some(db.WithSession(id, db.sessions[id].(leaseUntil := Some(now + leaseMs))))
  }

  function RelinquishCompletion(db: Db, id: Id, token: Id): (r: Option<Db>)
    ensures r.Some? ==> OnlySessions(db, r.value)
  {
    if !HoldsToken(db.sessions, id, token) then None
    else Some(db.WithSession(id, db.sessions[id].(status := Uploading, completionToken := None, leaseUntil := None)))
  }

  predicate IsStale(s: Session, now: Time) {
    s.status == Completing && s.leaseUntil.Some? && s.leaseUntil.value < now
  }

  /** Second half of recovery: compare-and-set on the token and staleness observed at `now`. */
  function RecoverStaleCompletion(db: Db, id: Id, observed: Session, now: Time): (r: Option<Db>)
    ensures r.Some? ==> OnlySessions(db, r.value)
  {
    if !(id in db.sessions && db.sessions[id].completionToken == observed.completionToken
      && IsStale(db.sessions[id], now)) then None
    else
      var s := db.sessions[id];
      var cleared := s.(completionToken := None, leaseUntil := None);
      if observed.expiresAt > now then Some(db.WithSession(id, cleared.(status := Uploading)))
      else Some(ReleaseUploadReservation(db.WithSession(id, cleared.(status := Expired)), observed.owner,
        observed.layout.size))
  }

  datatype CommitOutcome = Published | LeaseLost | OwnerNotActive | ReservationInvalid | QuotaExceeded

  function CompletionOutcome(db: Db, user: Id, id: Id, token: Id): CommitOutcome {
    if user in db.users && !db.Active(user) then OwnerNotActive
    else if !(HoldsToken(db.sessions, id, token) && db.sessions[id].owner == user) then LeaseLost
    else if CommitUploadReservation(db, user, db.sessions[id].layout.size).None? then ReservationInvalid
    else if db.sessions[id].fileId.Some? then LeaseLost
    else Published
  }

  function CommitCompletion(db: Db, user: Id, id: Id, token: Id, fileId: Id, storedName: Name, size: nat): Db {
    if CompletionOutcome(db, user, id, token) != Published then db else
      var s := db.sessions[id];
      CommitUploadReservation(db, user, s.layout.size).value
        .WithFile(fileId, File(user, storedName, size, ActiveFile))
        .WithSession(id, s.(status := Completed, fileId := Some(fileId), completionToken := None, leaseUntil := None))
  }

  // ----- One-shot uploads

  function CreateReservation(db: Db, id: Id, user: Id, bytes: nat, leaseUntil: Time): (r: Option<Db>)
    ensures r.Some? ==> OnlyReservations(db, r.value)
  {
    if id in db.reservations then None else
      match ReservePendingUploadQuota(db, user, bytes)
      case None => None
      case Some(reserved) => Some(reserved.WithReservation(id, Reservation(user, bytes, Pending, leaseUntil, None)))
  }

  predicate IsPending(db: Db, id: Id) {
    id in db.reservations && db.reservations[id].state == Pending
  }

  function RenewReservation(db: Db, id: Id, leaseUntil: Time): (r: Option<Db>)
    ensures r.Some? ==> OnlyReservations(db, r.value)
  {
    if !IsPending(db, id) then None
    else Some(db.WithReservation(id, db.reservations[id].(leaseUntil := leaseUntil)))
  }

  /** The commit of an upload whose size was declared; `size` is the measured byte count. */
  function OneShotOutcome(db: Db, id: Id, user: Id, size: nat): CommitOutcome {
    if user in db.users && !db.Active(user) then OwnerNotActive
    else if !(IsPending(db, id) && db.reservations[id].owner == user) then ReservationInvalid
    else if CommitUploadReservation(db, user, size).None? then ReservationInvalid
    else Published
  }

  function CommitOneShot(db: Db, id: Id, user: Id, fileId: Id, storedName: Name, size: nat): (r: Db)
    ensures OnlyReservations(db, r)
  {
    if OneShotOutcome(db, id, user, size) != Published then db else
      CommitUploadReservation(db, user, size).value
        .WithReservation(id, db.reservations[id].(state := Committed, fileId := Some(fileId)))
        .WithFile(fileId, File(user, storedName, size, ActiveFile))
  }

  /** The commit of an upload without a declared size. */
  function UndeclaredOutcome(db: Db, user: Id, size: nat): CommitOutcome {
    if user in db.users && !db.Active(user) then OwnerNotActive
    else if ReserveUploadQuota(db, user, size).None? then QuotaExceeded
    else Published
  }

  function CommitUndeclared(db: Db, user: Id, fileId: Id, storedName: Name, size: nat): (r: Db)
    ensures OnlyReservations(db, r)
  {
    if UndeclaredOutcome(db, user, size) != Published then db
    else ReserveUploadQuota(db, user, size).value.WithFile(fileId, File(user, storedName, size, ActiveFile))
  }

  /** Route cleanup passes no cutoff; the sweeper releases only leases lapsed before its cutoff. */
  function ReleaseReservation(db: Db, id: Id, lapsedBefore: Option<Time>): (r: Option<Db>)
    ensures r.Some? ==> OnlyReservations(db, r.value)
  {
    if !(IsPending(db, id) && (lapsedBefore.Some? ==> db.reservations[id].leaseUntil < lapsedBefore.value))
      then None else
      var r := db.reservations[id];
      Some(ReleaseUploadReservation(db.WithReservation(id, r.(state := Released)), r.owner, r.bytes))
  }

  // ----- Deletion and its outbox

  function SoftDeleteFile(db: Db, user: Id, id: Id, now: Time): Option<Db> {
    if !(id in db.files && db.files[id].owner == user && db.files[id].status == ActiveFile && user in db.users)
      then None else
      var f, u := db.files[id], db.users[user];
      var deleted := db.WithFile(id, f.(status := DeletedFile))
                       .WithUser(user, u.(storageUsed := Clamp(u.storageUsed - f.size)));
      Some(if id in db.jobs then deleted else deleted.WithJob(id, Job(f.storedName, Queued, 0, now, None, None)))
  }

  predicate IsDue(j: Job, now: Time) {
    j.status == Queued && j.nextAttemptAt <= now && (j.lockedUntil.Some? ==> j.lockedUntil.value <= now)
  }

  function ClaimFileDeletion(db: Db, id: Id, now: Time, leaseMs: nat): (r: Option<Db>)
    ensures r.Some? ==> OnlyJobs(db, r.value)
  {
    if !(id in db.jobs && IsDue(db.jobs[id], now)) then None
    else Some(db.WithJob(id, db.jobs[id].(attempts := db.jobs[id].attempts + 1, lockedUntil := Some(now + leaseMs))))
  }

  /** Settlement is fenced on the attempt number the worker claimed. */
  predicate SettlementApplies(db: Db, id: Id, attempts: nat) {
    id in db.jobs && db.jobs[id].status == Queued && db.jobs[id].attempts == attempts
  }

  function SettleFailed(db: Db, id: Id, attempts: nat, maxAttempts: nat, retryAt: Time): (r: Option<Db>)
    ensures r.Some? ==> OnlyJobs(db, r.value)
  {
    if !SettlementApplies(db, id, attempts) then None
    else Some(db.WithJob(id, db.jobs[id].(status := if attempts >= maxAttempts then Dead else Queued,
                                          nextAttemptAt := retryAt, lockedUntil := None)))
  }

  function SettleDone(db: Db, id: Id, attempts: nat, now: Time): (r: Option<Db>)
    ensures r.Some? ==> OnlyJobs(db, r.value)
  {
    if !SettlementApplies(db, id, attempts) then None
    else Some(db.WithJob(id, db.jobs[id].(status := Done, completedAt := Some(now), lockedUntil := None)))
  }

  predicate IsExhausted(j: Job, maxAttempts: nat, now: Time) {
    j.status == Queued && j.attempts >= maxAttempts && j.lockedUntil.Some? && j.lockedUntil.value <= now
  }

  function DeadLetterExhausted(db: Db, maxAttempts: nat, now: Time): (r: Db)
    ensures OnlyJobs(db, r)
  {
    db.(jobs := map id | id in db.jobs ::
      if IsExhausted(db.jobs[id], maxAttempts, now)
        then db.jobs[id].(status := Dead, lockedUntil := None) else db.jobs[id])
  }

  function RequeueDead(db: Db, now: Time): (r: Db)
    ensures OnlyJobs(db, r)
  {
    db.(jobs := map id | id in db.jobs ::
      if db.jobs[id].status == Dead
      then db.jobs[id].(status := Queued, attempts := 0, nextAttemptAt := now, lockedUntil := None) else db.jobs[id])
  }

  /** Removes a batch of finished rows that are old enough. */
  predicate Prunable(db: Db, batch: set<Id>, olderThan: nat, now: Time) {
    forall id :: id in batch ==>
      id in db.jobs && db.jobs[id].status == Done && db.jobs[id].completedAt.Some?
      && db.jobs[id].completedAt.value + olderThan < now
  }

  function PruneFinished(db: Db, batch: set<Id>): (r: Db)
    ensures OnlyJobs(db, r)
  {
    db.(jobs := db.jobs - batch)
  }
}
