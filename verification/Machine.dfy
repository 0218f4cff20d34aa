/**
 The whole upload service as one step machine. Every step is one SQL statement or transaction, one storage
 operation, or one clock tick; where the service reads first and writes later the two halves are separate
 steps with the reader's local state kept in `Actors`, so a run is any interleaving of any number of actors.
 */
module Machine {
  import opened Wrappers
  import opened UploadParts
  import opened Tables

  /** Who may still use or remove a final object. Every key ever written keeps an entry: keys are fresh. */
  datatype NameOwner = OfHandler | OfCompleter(token: Id) | OfFile(file: Id)

  /** `chunks` remembers what each part key was written with; `lostChunks` are the keys no longer readable. */
  datatype Disk = Disk(
    chunks: map<Name, Bytes>, lostChunks: set<Name>, objects: map<Name, Bytes>, owner: map<Name, NameOwner>)

  /** A completion request, from its claim on. */
  datatype Phase =
    | Claimed
    | Assembling(parts: seq<Part>, name: Name, bytes: Bytes, next: nat)
    | ReadyToCommit(parts: seq<Part>, name: Name, bytes: Bytes)
    | GivingBack(missing: Option<PartRef>)
    | Repairing(part: PartRef)
    | PublishedAs(file: Id, parts: seq<Part>, bytes: Bytes)
    | Stopped
  datatype PartRef = PartRef(number: nat, storedName: Name)
  datatype Completer = Completer(session: Id, phase: Phase)

  /** Local state between a read and the write that depends on it. */
  datatype PendingRelease = PendingRelease(session: Id, observed: SessionStatus, target: SessionStatus)
  datatype StaleRead = StaleRead(session: Id, row: Session, at: Time)
  datatype Sweep = Sweep(cutoff: Time, lapsed: set<Id>)

  /** A worker holding one claimed deletion; `epoch` counts the requeues its job had seen. */
  datatype WorkerState = Running | Removed | Failed | Settled
  datatype Worker = Worker(file: Id, storedName: Name, attempts: nat, leaseUntil: Time, epoch: nat, state: WorkerState)

  datatype Actors = Actors(
    completers: map<Id, Completer>, releases: map<Id, PendingRelease>, recoveries: map<Id, StaleRead>,
    sweeps: map<Id, Sweep>, workers: map<Id, Worker>, requeues: map<Id, nat>)

  datatype World = World(clock: Time, db: Db, disk: Disk, actors: Actors) {
    function Epoch(file: Id): nat { if file in actors.requeues then actors.requeues[file] else 0 }
    function WithPhase(token: Id, phase: Phase): World
      requires token in actors.completers
    {
      this.(actors := actors.(completers := actors.completers[token := actors.completers[token].(phase := phase)]))
    }
    function WithWorker(worker: Id, row: Worker): World {
      this.(actors := actors.(workers := actors.workers[worker := row]))
    }
  }

  function Applied(before: Db, after: Option<Db>): Db {
    if after.Some? then after.value else before
  }

  // ----- Accounts and plans

  datatype AccountStep =
    | Tick(to: Time)
    | SetStatus(user: Id, status: UserStatus)
    | SwitchPlan(user: Id, plan: Id, entitled: bool)
    | Downgrade(user: Id, plan: Id, fallback: Id, entitled: bool)

  predicate AccountEnabled(w: World, step: AccountStep) {
    step.Tick? ==> step.to >= w.clock
  }

  function AccountNext(w: World, step: AccountStep): World {
    match step
    case Tick(to) => w.(clock := to)
    case SetStatus(user, status) => w.(db := Applied(w.db, SetAccountStatus(w.db, user, status)))
    case SwitchPlan(user, plan, entitled) => w.(db := Applied(w.db, SwitchPlanIfEntitled(w.db, user, plan, entitled)))
    case Downgrade(user, plan, fallback, entitled) =>
      w.(db := Applied(w.db, DowngradeIfUnentitled(w.db, user, plan, fallback, entitled)))
  }

  // ----- One-shot uploads and their sweeper

  datatype OneShotStep =
    | WriteObject(name: Name, bytes: Bytes)
    | DropObject(name: Name)
    | Reserve(id: Id, user: Id, declared: nat, leaseMs: nat)
    | Heartbeat(id: Id, leaseMs: nat)
    | CommitDeclared(id: Id, user: Id, file: Id, name: Name)
    | CommitMeasured(user: Id, file: Id, name: Name)
    | Release(id: Id)
    | SweepRead(actor: Id, lapsed: set<Id>)
    | SweepRelease(actor: Id, id: Id)

  predicate Staged(w: World, name: Name) {
    name in w.disk.owner && w.disk.owner[name] == OfHandler && name in w.disk.objects
  }

  predicate OneShotEnabled(w: World, step: OneShotStep) {
    match step
    case WriteObject(name, _) => name !in w.disk.owner
    case DropObject(name) => Staged(w, name)
    case Reserve(_, _, declared, _) => declared > 0
    case CommitDeclared(id, user, file, name) =>
      // The handler commits only when the measured size equals the size it reserved.
      && Staged(w, name) && file !in w.db.files
      && id in w.db.reservations && |w.disk.objects[name]| == w.db.reservations[id].bytes
    case CommitMeasured(user, file, name) => Staged(w, name) && file !in w.db.files
    case SweepRead(actor, lapsed) =>
      && actor !in w.actors.sweeps
      && forall id :: id in lapsed ==> IsPending(w.db, id) && w.db.reservations[id].leaseUntil < w.clock
    case SweepRelease(actor, id) => actor in w.actors.sweeps && id in w.actors.sweeps[actor].lapsed
    case _ => true
  }

  function OneShotNext(w: World, step: OneShotStep): World
    requires OneShotEnabled(w, step)
  {
    match step
    case WriteObject(name, bytes) =>
      w.(disk := w.disk.(objects := w.disk.objects[name := bytes], owner := w.disk.owner[name := OfHandler]))
    case DropObject(name) => w.(disk := w.disk.(objects := w.disk.objects - {name}))
    case Reserve(id, user, declared, leaseMs) =>
      w.(db := Applied(w.db, CreateReservation(w.db, id, user, declared, w.clock + leaseMs)))
    case Heartbeat(id, leaseMs) => w.(db := Applied(w.db, RenewReservation(w.db, id, w.clock + leaseMs)))
    case CommitDeclared(id, user, file, name) =>
      if OneShotOutcome(w.db, id, user, |w.disk.objects[name]|) != Published then w else
        w.(db := CommitOneShot(w.db, id, user, file, name, |w.disk.objects[name]|),
           disk := w.disk.(owner := w.disk.owner[name := OfFile(file)]))
    case CommitMeasured(user, file, name) =>
      if UndeclaredOutcome(w.db, user, |w.disk.objects[name]|) != Published then w else
        w.(db := CommitUndeclared(w.db, user, file, name, |w.disk.objects[name]|),
           disk := w.disk.(owner := w.disk.owner[name := OfFile(file)]))
    case Release(id) => w.(db := Applied(w.db, ReleaseReservation(w.db, id, None)))
    case SweepRead(actor, lapsed) =>
      w.(actors := w.actors.(sweeps := w.actors.sweeps[actor := Sweep(w.clock, lapsed)]))
    case SweepRelease(actor, id) =>
      w.(db := Applied(w.db, ReleaseReservation(w.db, id, Some(w.actors.sweeps[actor].cutoff))))
  }

  // ----- Sessions and parts

  datatype SessionStep =
    | Create(id: Id, user: Id, expectedSize: nat, configuredChunk: nat, ttl: nat)
    | WriteChunk(name: Name, bytes: Bytes)
    | LoseChunks(names: set<Name>)
    | PutPart(id: Id, user: Id, number: nat, name: Name, checksum: string)
    | RepairPart(id: Id, number: nat, name: Name)
    | ReleaseRead(actor: Id, id: Id, target: SessionStatus)
    | ReleaseWrite(actor: Id)
    | RecoverRead(actor: Id, id: Id)
    | RecoverWrite(actor: Id)

  /** The measured part matches the range the layout gives this number, and its digest is well formed. */
  predicate PartAccepted(w: World, id: Id, number: nat, name: Name, checksum: string) {
    && id in w.db.sessions && name in w.disk.chunks
    && var geometry := PartGeometry(w.db.sessions[id].layout, number);
       geometry.Range? && geometry.span.start >= 0 && geometry.span.size == |w.disk.chunks[name]|
         && IsChecksum(checksum)
  }

  function MeasuredPart(w: World, id: Id, number: nat, name: Name, checksum: string): Part
    requires PartAccepted(w, id, number, name, checksum)
  {
    var span := PartGeometry(w.db.sessions[id].layout, number).span;
    Part(number, span.start, span.size, checksum, name)
  }

  predicate SessionEnabled(w: World, step: SessionStep) {
    match step
    case Create(_, _, expectedSize, configuredChunk, _) => expectedSize > 0 && configuredChunk > 0
    case WriteChunk(name, _) => name !in w.disk.chunks
    case PutPart(id, _, number, name, checksum) => PartAccepted(w, id, number, name, checksum)
    case RepairPart(_, _, name) => name in w.disk.lostChunks
    case ReleaseRead(actor, id, target) =>
      // An abort needs an open session; an expiry also needs it to be past its deadline.
      && actor !in w.actors.releases && id in w.db.sessions && w.db.sessions[id].status == Uploading
      && (target == Aborted || (target == Expired && w.db.sessions[id].expiresAt <= w.clock))
    case ReleaseWrite(actor) => actor in w.actors.releases
    case RecoverRead(actor, id) =>
      actor !in w.actors.recoveries && id in w.db.sessions && IsStale(w.db.sessions[id], w.clock)
    case RecoverWrite(actor) => actor in w.actors.recoveries
    case _ => true
  }

  function SessionNext(w: World, step: SessionStep): World
    requires SessionEnabled(w, step)
  {
    match step
    case Create(id, user, expectedSize, configuredChunk, ttl) =>
      w.(db := Applied(w.db, CreateSession(w.db, id, user, PlanLayout(expectedSize, configuredChunk), w.clock + ttl)))
    case WriteChunk(name, bytes) => w.(disk := w.disk.(chunks := w.disk.chunks[name := bytes]))
    case LoseChunks(names) => w.(disk := w.disk.(lostChunks := w.disk.lostChunks + names))
    case PutPart(id, user, number, name, checksum) =>
      w.(db := InsertPartIfOpen(w.db, id, user, MeasuredPart(w, id, number, name, checksum), w.clock))
    case RepairPart(id, number, name) => w.(db := Applied(w.db, DeletePartRow(w.db, id, number, name, true)))
    case ReleaseRead(actor, id, target) =>
      w.(actors :=
        w.actors.(releases := w.actors.releases[actor := PendingRelease(id, w.db.sessions[id].status, target)]))
    case ReleaseWrite(actor) =>
      var r := w.actors.releases[actor];
      w.(db := Applied(w.db, ReleaseSession(w.db, r.session, r.observed, r.target)))
    case RecoverRead(actor, id) =>
      w.(actors := w.actors.(recoveries := w.actors.recoveries[actor := StaleRead(id, w.db.sessions[id], w.clock)]))
    case RecoverWrite(actor) =>
      var r := w.actors.recoveries[actor];
      w.(db := Applied(w.db, RecoverStaleCompletion(w.db, r.session, r.row, r.at)))
  }

  // ----- Completion

  datatype CompletionStep =
    | Claim(token: Id, id: Id, leaseMs: nat)
    | Renew(token: Id, leaseMs: nat)
    | Freeze(token: Id, rows: seq<Part>, name: Name)
    | ReadPart(token: Id)
    | AbortAssembly(token: Id)
    | FinishAssembly(token: Id, checksumMatches: bool)
    | Commit(token: Id, file: Id)
    | GiveBack(token: Id, databaseAnswers: bool)
    | DeleteMissing(token: Id)

  /** `rows` is what a SELECT of this session's parts, ordered by part number, returns. */
  ghost predicate IsPartRead(db: Db, id: Id, rows: seq<Part>) {
    && (forall i :: 0 <= i < |rows| ==>
         PartKey(id, rows[i].partNumber) in db.parts && db.parts[PartKey(id, rows[i].partNumber)] == rows[i])
    && (forall i, j :: 0 <= i < j < |rows| ==> rows[i].partNumber < rows[j].partNumber)
    && (forall key :: key in db.parts && key.session == id ==> db.parts[key] in rows)
  }

  predicate InPhase(w: World, token: Id, step: CompletionStep) {
    token in w.actors.completers &&
    var phase := w.actors.completers[token].phase;
    match step
    case Freeze(_, _, _) => phase.Claimed?
    case ReadPart(_) => phase.Assembling? && phase.next < |phase.parts|
    case AbortAssembly(_) => phase.Assembling?
    case FinishAssembly(_, _) => phase.Assembling? && phase.next == |phase.parts|
    case Commit(_, _) => phase.ReadyToCommit?
    case GiveBack(_, _) => phase.GivingBack?
    case DeleteMissing(_) => phase.Repairing?
    case _ => true
  }

  ghost predicate CompletionEnabled(w: World, step: CompletionStep) {
    match step
    case Claim(token, _, _) => token !in w.actors.completers
    case Freeze(token, rows, name) =>
      InPhase(w, token, step) && name !in w.disk.owner && IsPartRead(w.db, w.actors.completers[token].session, rows)
    case FinishAssembly(token, _) => InPhase(w, token, step) && w.actors.completers[token].session in w.db.sessions
    case Commit(token, file) =>
      InPhase(w, token, step) && file !in w.db.files && w.actors.completers[token].session in w.db.sessions
    case _ => InPhase(w, step.token, step)
  }

  function ClaimNext(w: World, token: Id, id: Id, leaseMs: nat): World {
    match ClaimCompletion(w.db, id, token, w.clock, leaseMs)
    case None => w
    case Some(claimed) =>
      w.(db := claimed, actors := w.actors.(completers := w.actors.completers[token := Completer(id, Claimed)]))
  }

  /** Re-reads the parts after the claim; an incomplete set is handed back instead of assembled. */
  function FreezeNext(w: World, token: Id, rows: seq<Part>, name: Name): World
    requires token in w.actors.completers
  {
    var id := w.actors.completers[token].session;
    if id in w.db.sessions && CompleteParts(w.db.sessions[id].layout, rows) then
      w.WithPhase(token, Assembling(rows, name, [], 0))
       .(disk := w.disk.(owner := w.disk.owner[name := OfCompleter(token)]))
    else w.WithPhase(token, GivingBack(None))
  }

  predicate Readable(disk: Disk, name: Name) {
    name in disk.chunks && name !in disk.lostChunks
  }

  function ReadPartNext(w: World, token: Id): World
    requires InPhase(w, token, ReadPart(token))
  {
    var phase := w.actors.completers[token].phase;
    var part := phase.parts[phase.next];
    if Readable(w.disk, part.storedName) then
      w.WithPhase(token, phase.(bytes := phase.bytes + w.disk.chunks[part.storedName], next := phase.next + 1))
    else w.WithPhase(token, GivingBack(Some(PartRef(part.partNumber, part.storedName))))
  }

  function FinishNext(w: World, token: Id, checksumMatches: bool): World
    requires InPhase(w, token, FinishAssembly(token, checksumMatches))
      && w.actors.completers[token].session in w.db.sessions
  {
    var c := w.actors.completers[token];
    if |c.phase.bytes| != w.db.sessions[c.session].layout.size || !checksumMatches
      then w.WithPhase(token, GivingBack(None))
    else
      w.WithPhase(token, ReadyToCommit(c.phase.parts, c.phase.name, c.phase.bytes))
        .(disk := w.disk.(objects := w.disk.objects[c.phase.name := c.phase.bytes]))
  }

  /** The fenced commit. A failed one removes the object it assembled; a lost lease touches nothing else. */
  function CommitNext(w: World, token: Id, file: Id): World
    requires InPhase(w, token, Commit(token, file)) && w.actors.completers[token].session in w.db.sessions
  {
    var c := w.actors.completers[token];
    var user := w.db.sessions[c.session].owner;
    var outcome := CompletionOutcome(w.db, user, c.session, token);
    if outcome == Published then
      w.WithPhase(token, PublishedAs(file, c.phase.parts, c.phase.bytes))
       .(db := CommitCompletion(w.db, user, c.session, token, file, c.phase.name, |c.phase.bytes|),
         disk := w.disk.(owner := w.disk.owner[c.phase.name := OfFile(file)]))
    else
      w.WithPhase(token, if outcome == LeaseLost then Stopped else GivingBack(None))
       .(disk := w.disk.(objects := w.disk.objects - {c.phase.name}))
  }

  function GiveBackNext(w: World, token: Id, databaseAnswers: bool): World
    requires InPhase(w, token, GiveBack(token, databaseAnswers))
  {
    var c := w.actors.completers[token];
    w.WithPhase(token, if c.phase.missing.Some? then Repairing(c.phase.missing.value) else Stopped)
     .(db := if databaseAnswers then Applied(w.db, RelinquishCompletion(w.db, c.session, token)) else w.db)
  }

  function DeleteMissingNext(w: World, token: Id): World
    requires InPhase(w, token, DeleteMissing(token))
  {
    var c := w.actors.completers[token];
    w.WithPhase(token, Stopped)
     .(db := Applied(w.db, DeletePartRow(w.db, c.session, c.phase.part.number, c.phase.part.storedName, false)))
  }

  ghost function CompletionNext(w: World, step: CompletionStep): World
    requires CompletionEnabled(w, step)
  {
    match step
    case Claim(token, id, leaseMs) => ClaimNext(w, token, id, leaseMs)
    case Renew(token, leaseMs) =>
      w.(db := Applied(w.db, RenewCompletionLease(w.db, w.actors.completers[token].session, token, w.clock, leaseMs)))
    case Freeze(token, rows, name) => FreezeNext(w, token, rows, name)
    case ReadPart(token) => ReadPartNext(w, token)
    case AbortAssembly(token) => w.WithPhase(token, GivingBack(None))
    case FinishAssembly(token, checksumMatches) => FinishNext(w, token, checksumMatches)
    case Commit(token, file) => CommitNext(w, token, file)
    case GiveBack(token, databaseAnswers) => GiveBackNext(w, token, databaseAnswers)
    case DeleteMissing(token) => DeleteMissingNext(w, token)
  }

  // ----- Deletion and the outbox

  datatype OutboxStep =
    | SoftDelete(user: Id, file: Id)
    | ClaimJob(worker: Id, file: Id, leaseMs: nat)
    | RemoveBytes(worker: Id, succeeds: bool)
    | Settle(worker: Id, maxAttempts: nat, backoff: nat)
    | DeadLetter(maxAttempts: nat)
    | Requeue
    | Prune(batch: set<Id>, olderThan: nat)

  predicate OutboxEnabled(w: World, step: OutboxStep) {
    match step
    case ClaimJob(worker, _, _) => worker !in w.actors.workers
    case RemoveBytes(worker, _) => worker in w.actors.workers && w.actors.workers[worker].state == Running
    case Settle(worker, _, _) => worker in w.actors.workers && w.actors.workers[worker].state in {Removed, Failed}
    case Prune(batch, olderThan) => Prunable(w.db, batch, olderThan, w.clock)
    case _ => true
  }

  function ClaimJobNext(w: World, worker: Id, file: Id, leaseMs: nat): World {
    match ClaimFileDeletion(w.db, file, w.clock, leaseMs)
    case None => w
    case Some(db) =>
      w.(db := db).WithWorker(worker,
        Worker(file, db.jobs[file].storedName, db.jobs[file].attempts, w.clock + leaseMs, w.Epoch(file), Running))
  }

  function RemoveNext(w: World, worker: Id, succeeds: bool): World
    requires worker in w.actors.workers
  {
    var row := w.actors.workers[worker];
    if succeeds then
      w.(disk := w.disk.(objects := w.disk.objects - {row.storedName})).WithWorker(worker, row.(state := Removed))
    else w.WithWorker(worker, row.(state := Failed))
  }

  function SettleNext(w: World, worker: Id, maxAttempts: nat, backoff: nat): World
    requires worker in w.actors.workers
  {
    var row := w.actors.workers[worker];
    var settled := if row.state == Removed then SettleDone(w.db, row.file, row.attempts, w.clock)
                   else SettleFailed(w.db, row.file, row.attempts, maxAttempts, w.clock + backoff);
    w.WithWorker(worker, row.(state := Settled)).(db := Applied(w.db, settled))
  }

  function RequeueNext(w: World): World {
    w.(db := RequeueDead(w.db, w.clock),
       actors := w.actors.(requeues := w.actors.requeues
         + map f | f in w.db.jobs && w.db.jobs[f].status == Dead :: w.Epoch(f) + 1))
  }

  function OutboxNext(w: World, step: OutboxStep): World
    requires OutboxEnabled(w, step)
  {
    match step
    case SoftDelete(user, file) => w.(db := Applied(w.db, SoftDeleteFile(w.db, user, file, w.clock)))
    case ClaimJob(worker, file, leaseMs) => ClaimJobNext(w, worker, file, leaseMs)
    case RemoveBytes(worker, succeeds) => RemoveNext(w, worker, succeeds)
    case Settle(worker, maxAttempts, backoff) => SettleNext(w, worker, maxAttempts, backoff)
    case DeadLetter(maxAttempts) => w.(db := DeadLetterExhausted(w.db, maxAttempts, w.clock))
    case Requeue => RequeueNext(w)
    case Prune(batch, _) => w.(db := PruneFinished(w.db, batch))
  }

  // ----- Runs

  datatype Step =
    | OnAccount(a: AccountStep)
    | OnOneShot(o: OneShotStep)
    | OnSession(s: SessionStep)
    | OnCompletion(c: CompletionStep)
    | OnOutbox(x: OutboxStep)

  ghost predicate Enabled(w: World, step: Step) {
    match step
    case OnAccount(a) => AccountEnabled(w, a)
    case OnOneShot(o) => OneShotEnabled(w, o)
    case OnSession(s) => SessionEnabled(w, s)
    case OnCompletion(c) => CompletionEnabled(w, c)
    case OnOutbox(x) => OutboxEnabled(w, x)
  }

  ghost function Next(w: World, step: Step): World
    requires Enabled(w, step)
  {
    match step
    case OnAccount(a) => AccountNext(w, a)
    case OnOneShot(o) => OneShotNext(w, o)
    case OnSession(s) => SessionNext(w, s)
    case OnCompletion(c) => CompletionNext(w, c)
    case OnOutbox(x) => OutboxNext(w, x)
  }

  /** Any accounts on any plans, nothing uploaded yet. */
  ghost predicate Init(w: World) {
    && w.db.sessions == map[] && w.db.parts == map[] && w.db.reservations == map[] && w.db.files == map[]
      && w.db.jobs == map[]
    && w.disk == Disk(map[], {}, map[], map[])
    && w.actors == Actors(map[], map[], map[], map[], map[], map[])
    && forall u :: u in w.db.users ==>
         && w.db.users[u].storageUsed == 0 && w.db.users[u].reservedUploadBytes == 0
         && (w.db.users[u].planId.Some? ==> w.db.users[u].planId.value in w.db.plans)
  }

  /** `worlds` are the successive states of a run that takes `steps`. */
  ghost predicate IsRun(worlds: seq<World>, steps: seq<Step>) {
    && |worlds| == |steps| + 1
    && Init(worlds[0])
    && forall i :: 0 <= i < |steps| ==> Enabled(worlds[i], steps[i]) && worlds[i + 1] == Next(worlds[i], steps[i])
  }
}
