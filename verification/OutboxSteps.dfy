/** Deletion steps and the outbox statements keep the invariant. */
module OutboxSteps {
  import opened Wrappers
  import opened Tables
  import opened Machine
  import opened MapSums
  import opened Ledger
  import opened Invariants
  import opened OneShotSteps

  // ----- Deletion and the outbox

  lemma SoftDeleteSessions(sessions: Sessions, files: Files, completers: Completers, f: Id)
    requires SessionsOk(sessions, files, completers) && f in files
    ensures SessionsOk(sessions, files[f := files[f].(status := DeletedFile)], completers)
  {
    SessionsKeepTheirFiles(sessions, files, files[f := files[f].(status := DeletedFile)], completers);
  }

  lemma SoftDeleteStorage(files: Files, jobs: Jobs, disk: Disk, completers: Completers, workers: Workers, f: Id,
      job: Job)
    requires StorageOk(files, jobs, disk, completers, workers) && f in files && files[f].status == ActiveFile
    requires job.status == Queued && job.storedName == files[f].storedName
    ensures StorageOk(files[f := files[f].(status := DeletedFile)], jobs[f := job], disk, completers, workers)
  {
  }

  /** No deletion job and no worker exists for a file that is still active. */
  lemma ActiveHasNoJob(files: Files, jobs: Jobs, disk: Disk, completers: Completers, workers: Workers, f: Id)
    requires StorageOk(files, jobs, disk, completers, workers) && f in files && files[f].status == ActiveFile
    ensures f !in jobs && forall k :: k in workers ==> workers[k].file != f
  {
  }

  lemma SoftDeleteShape(w: World, user: Id, file: Id)
    requires StorageOk(w.db.files, w.db.jobs, w.disk, w.actors.completers, w.actors.workers)
    requires SoftDeleteFile(w.db, user, file, w.clock).Some?
    ensures var after := SoftDeleteFile(w.db, user, file, w.clock).value;
      && file in w.db.files && w.db.files[file].status == ActiveFile
      && after.files == w.db.files[file := w.db.files[file].(status := DeletedFile)]
      && after.jobs == w.db.jobs[file := Job(w.db.files[file].storedName, Queued, 0, w.clock, None, None)]
      && after.sessions == w.db.sessions && after.parts == w.db.parts
  {
    ActiveHasNoJob(w.db.files, w.db.jobs, w.disk, w.actors.completers, w.actors.workers, file);
    hide StorageOk;
  }

  lemma NewJobKeepsClaims(jobs: Jobs, workers: Workers, requeues: map<Id, nat>, f: Id, job: Job)
    requires AttemptsOk(jobs, workers, requeues)
    requires forall k :: k in workers ==> workers[k].file != f
    ensures job.attempts == 0 && NewestKnown(jobs, workers, requeues) ==> NewestKnown(jobs[f := job], workers, requeues)
    ensures AttemptsOk(jobs[f := job], workers, requeues)
  {
  }

  lemma SoftDeleteInvKeeps(w: World, user: Id, file: Id)
    requires Inv(w)
    ensures Inv(OutboxNext(w, SoftDelete(user, file)))
  {
    SoftDeleteKeeps(w.db, user, file, w.clock);
    if SoftDeleteFile(w.db, user, file, w.clock).Some? {
      hide SoftDeleteFile, LedgerOk, SessionsOk, PublishedOnce, PartsOk, FrozenOk, CompletersOk, StorageOk, AttemptsOk,
        NewestKnown, ReadsOk;
      SoftDeleteShape(w, user, file);
      SoftDeleteSessions(w.db.sessions, w.db.files, w.actors.completers, file);
      var job := Job(w.db.files[file].storedName, Queued, 0, w.clock, None, None);
      ActiveHasNoJob(w.db.files, w.db.jobs, w.disk, w.actors.completers, w.actors.workers, file);
      NewJobKeepsClaims(w.db.jobs, w.actors.workers, w.actors.requeues, file, job);
      SoftDeleteStorage(w.db.files, w.db.jobs, w.disk, w.actors.completers, w.actors.workers, file, job);
    }
  }

  /** Job rows change without any of them finishing while its object remains, and none appears. */
  predicate JobsMove(jobs: Jobs, disk: Disk, jobs': Jobs) {
    && (forall f :: f in jobs' ==> f in jobs && jobs'[f].storedName == jobs[f].storedName)
    && (forall f :: f in jobs' && jobs'[f].status == Done && jobs[f].status != Done ==>
      jobs[f].storedName !in disk.objects)
    && (forall f :: f in jobs && f !in jobs' ==> jobs[f].status == Done)
    && (forall f :: f in jobs' && jobs[f].status == Done ==> jobs'[f].status == Done)
  }

  lemma JobsKeepStorage(files: Files, jobs: Jobs, disk: Disk, completers: Completers, workers: Workers, jobs': Jobs)
    requires StorageOk(files, jobs, disk, completers, workers) && JobsMove(jobs, disk, jobs')
    ensures StorageOk(files, jobs', disk, completers, workers)
  {
    assert forall f :: f in jobs ==> jobs[f].storedName == files[f].storedName;
  }

  lemma WorkerKeepsStorage(files: Files, jobs: Jobs, disk: Disk, completers: Completers, workers: Workers, k: Id,
      worker: Worker)
    requires StorageOk(files, jobs, disk, completers, workers)
    requires worker.file in files && files[worker.file].status == DeletedFile
      && files[worker.file].storedName == worker.storedName
    requires worker.state == Removed ==> worker.storedName !in disk.objects
    ensures StorageOk(files, jobs, disk, completers, workers[k := worker])
  {
    hide FileOk, ObjectOk;
  }

  /** Removing a deleted file's object never touches an active file or an unpublished object. */
  lemma RemovalKeepsStorage(files: Files, jobs: Jobs, disk: Disk, completers: Completers, workers: Workers, f: Id)
    requires StorageOk(files, jobs, disk, completers, workers) && f in files && files[f].status == DeletedFile
    ensures StorageOk(files, jobs, disk.(objects := disk.objects - {files[f].storedName}), completers, workers)
  {
  }

  lemma OutboxLedger(w: World, step: OutboxStep)
    requires LedgerOk(w.db) && OutboxEnabled(w, step) && !step.SoftDelete?
    ensures LedgerOk(OutboxNext(w, step).db)
  {
    hide LedgerOk, ClaimFileDeletion, SettleDone, SettleFailed, DeadLetterExhausted, RequeueDead, PruneFinished;
    JobsKeepLedger(w.db, OutboxNext(w, step).db);
  }

  lemma JobsKeepLedger(db: Db, db': Db)
    requires LedgerOk(db) && OnlyJobs(db, db')
    ensures LedgerOk(db')
  {
    hide SumOver;
    assert Conserved(db') by {
      forall u | u in db'.users ensures Balanced(db', u) { assert Balanced(db, u); }
    }
  }

  lemma OutboxFrame(w: World, step: OutboxStep)
    requires OutboxEnabled(w, step) && !step.SoftDelete?
    ensures var after := OutboxNext(w, step);
      && after.db.sessions == w.db.sessions && after.db.parts == w.db.parts && after.db.files == w.db.files
      && after.disk == w.disk.(objects := after.disk.objects) && after.clock == w.clock
      && after.actors == w.actors.(workers := after.actors.workers, requeues := after.actors.requeues)
  {
    hide ClaimFileDeletion, SettleDone, SettleFailed, DeadLetterExhausted, RequeueDead, PruneFinished;
  }

  lemma WorkerIsOk(files: Files, jobs: Jobs, disk: Disk, completers: Completers, workers: Workers, k: Id)
    requires StorageOk(files, jobs, disk, completers, workers) && k in workers
    ensures workers[k].file in files && files[workers[k].file].status == DeletedFile
    ensures files[workers[k].file].storedName == workers[k].storedName
    ensures workers[k].state == Removed ==> workers[k].storedName !in disk.objects
    ensures workers[k].file in jobs ==> jobs[workers[k].file].storedName == workers[k].storedName
  {
  }

  lemma JobIsOk(files: Files, jobs: Jobs, disk: Disk, completers: Completers, workers: Workers, f: Id)
    requires StorageOk(files, jobs, disk, completers, workers) && f in jobs
    ensures f in files && files[f].status == DeletedFile && files[f].storedName == jobs[f].storedName
  {
  }

  /** Claims and the statements over the whole job table. */
  lemma StatementsMoveJobs(db: Db, disk: Disk, file: Id, now: Time, n: nat)
    ensures JobsMove(db.jobs, disk, Applied(db, ClaimFileDeletion(db, file, now, n)).jobs)
    ensures JobsMove(db.jobs, disk, RequeueDead(db, now).jobs)
  {
  }

  lemma ReaperMovesJobs(db: Db, disk: Disk, maxAttempts: nat, now: Time)
    ensures JobsMove(db.jobs, disk, DeadLetterExhausted(db, maxAttempts, now).jobs)
  {
  }

  lemma PruneMovesJobs(db: Db, disk: Disk, batch: set<Id>, olderThan: nat, now: Time)
    requires Prunable(db, batch, olderThan, now)
    ensures JobsMove(db.jobs, disk, PruneFinished(db, batch).jobs)
  {
  }

  lemma SettleMovesJobs(w: World, worker: Id, maxAttempts: nat, backoff: nat)
    requires OutboxEnabled(w, Settle(worker, maxAttempts, backoff))
    requires var row := w.actors.workers[worker];
      && (row.state == Removed ==> row.storedName !in w.disk.objects)
      && (row.file in w.db.jobs ==> w.db.jobs[row.file].storedName == row.storedName)
    ensures JobsMove(w.db.jobs, w.disk, SettleNext(w, worker, maxAttempts, backoff).db.jobs)
    ensures SettleNext(w, worker, maxAttempts, backoff).actors.workers
      == w.actors.workers[worker := w.actors.workers[worker].(state := Settled)]
  {
  }

  lemma OutboxStorage(w: World, step: OutboxStep)
    requires StorageOk(w.db.files, w.db.jobs, w.disk, w.actors.completers, w.actors.workers)
    requires OutboxEnabled(w, step) && !step.SoftDelete?
    ensures var after := OutboxNext(w, step);
      StorageOk(w.db.files, after.db.jobs, after.disk, w.actors.completers, after.actors.workers)
  {
    hide StorageOk, JobsMove;
    var after, files, completers := OutboxNext(w, step), w.db.files, w.actors.completers;
    match step
    case ClaimJob(worker, file, leaseMs) =>
      if ClaimFileDeletion(w.db, file, w.clock, leaseMs).Some? {
        StatementsMoveJobs(w.db, w.disk, file, w.clock, leaseMs);
        JobIsOk(files, w.db.jobs, w.disk, completers, w.actors.workers, file);
        JobsKeepStorage(files, w.db.jobs, w.disk, completers, w.actors.workers, after.db.jobs);
        WorkerKeepsStorage(files, after.db.jobs, w.disk, completers, w.actors.workers, worker,
          after.actors.workers[worker]);
      }
    case RemoveBytes(worker, succeeds) =>
      var row := w.actors.workers[worker];
      WorkerIsOk(files, w.db.jobs, w.disk, completers, w.actors.workers, worker);
      if succeeds { RemovalKeepsStorage(files, w.db.jobs, w.disk, completers, w.actors.workers, row.file); }
      WorkerKeepsStorage(files, w.db.jobs, after.disk, completers, w.actors.workers, worker,
        after.actors.workers[worker]);
    case Settle(worker, maxAttempts, backoff) =>
      hide SettleNext;
      WorkerIsOk(files, w.db.jobs, w.disk, completers, w.actors.workers, worker);
      SettleMovesJobs(w, worker, maxAttempts, backoff);
      SettleTouches(w, worker, maxAttempts, backoff);
      JobsKeepStorage(files, w.db.jobs, w.disk, completers, w.actors.workers, after.db.jobs);
      WorkerKeepsStorage(files, after.db.jobs, w.disk, completers, w.actors.workers, worker,
        w.actors.workers[worker].(state := Settled));
    case Requeue =>
      StatementsMoveJobs(w.db, w.disk, 0, w.clock, 0);
      hide RequeueDead;
      JobsKeepStorage(files, w.db.jobs, w.disk, completers, w.actors.workers, after.db.jobs);
    case DeadLetter(maxAttempts) =>
      ReaperMovesJobs(w.db, w.disk, maxAttempts, w.clock);
      hide DeadLetterExhausted;
      JobsKeepStorage(files, w.db.jobs, w.disk, completers, w.actors.workers, after.db.jobs);
    case Prune(batch, olderThan) =>
      PruneMovesJobs(w.db, w.disk, batch, olderThan, w.clock);
      JobsKeepStorage(files, w.db.jobs, w.disk, completers, w.actors.workers, after.db.jobs);
  }

  lemma SettleTouches(w: World, worker: Id, maxAttempts: nat, backoff: nat)
    requires worker in w.actors.workers
    ensures SettleNext(w, worker, maxAttempts, backoff).disk == w.disk
    ensures SettleNext(w, worker, maxAttempts, backoff).actors.requeues == w.actors.requeues
    ensures forall f :: f in SettleNext(w, worker, maxAttempts, backoff).db.jobs ==>
              f in w.db.jobs && SettleNext(w, worker, maxAttempts, backoff).db.jobs[f].attempts == w.db.jobs[f].attempts
  {
  }

  // ----- Attempts and leases

  lemma StateKeepsAttempts(jobs: Jobs, workers: Workers, requeues: map<Id, nat>, k: Id, state: WorkerState)
    requires AttemptsOk(jobs, workers, requeues) && k in workers
    ensures AttemptsOk(jobs, workers[k := workers[k].(state := state)], requeues)
  {
  }

  lemma JobsKeepAttempts(jobs: Jobs, workers: Workers, requeues: map<Id, nat>, jobs': Jobs)
    requires AttemptsOk(jobs, workers, requeues)
    requires forall f :: f in jobs' ==> f in jobs && jobs'[f].attempts == jobs[f].attempts
    ensures AttemptsOk(jobs', workers, requeues)
  {
  }

  lemma NewClaimKeepsAttempts(jobs: Jobs, workers: Workers, requeues: map<Id, nat>, k: Id, worker: Worker, job: Job)
    requires AttemptsOk(jobs, workers, requeues) && k !in workers && worker.file in jobs
    requires worker.epoch == EpochOf(requeues, worker.file)
      && worker.attempts == jobs[worker.file].attempts + 1 == job.attempts
    ensures AttemptsOk(jobs[worker.file := job], workers[k := worker], requeues)
  {
  }

  lemma ClaimAttempts(w: World, worker: Id, file: Id, leaseMs: nat)
    requires AttemptsOk(w.db.jobs, w.actors.workers, w.actors.requeues) && worker !in w.actors.workers
    ensures var after := ClaimJobNext(w, worker, file, leaseMs);
      AttemptsOk(after.db.jobs, after.actors.workers, after.actors.requeues)
  {
    hide AttemptsOk;
    if ClaimFileDeletion(w.db, file, w.clock, leaseMs).Some? {
      var after := ClaimJobNext(w, worker, file, leaseMs);
      NewClaimKeepsAttempts(w.db.jobs, w.actors.workers, w.actors.requeues, worker, after.actors.workers[worker],
        after.db.jobs[file]);
    }
  }

  lemma RequeueAttempts(w: World)
    requires AttemptsOk(w.db.jobs, w.actors.workers, w.actors.requeues)
    ensures AttemptsOk(RequeueNext(w).db.jobs, w.actors.workers, RequeueNext(w).actors.requeues)
  {
  }

  lemma OutboxAttempts(w: World, step: OutboxStep)
    requires AttemptsOk(w.db.jobs, w.actors.workers, w.actors.requeues)
    requires OutboxEnabled(w, step) && !step.SoftDelete?
    ensures var after := OutboxNext(w, step);
      AttemptsOk(after.db.jobs, after.actors.workers, after.actors.requeues)
  {
    hide AttemptsOk;
    match step
    case ClaimJob(worker, file, leaseMs) => hide ClaimJobNext; ClaimAttempts(w, worker, file, leaseMs);
    case RemoveBytes(worker, succeeds) =>
      StateKeepsAttempts(w.db.jobs, w.actors.workers, w.actors.requeues, worker, if succeeds then Removed else Failed);
    case Settle(worker, maxAttempts, backoff) => hide SettleNext; SettleAttempts(w, worker, maxAttempts, backoff);
    case Requeue => hide RequeueNext; RequeueAttempts(w);
    case DeadLetter(maxAttempts) =>
      JobsKeepAttempts(w.db.jobs, w.actors.workers, w.actors.requeues,
        DeadLetterExhausted(w.db, maxAttempts, w.clock).jobs);
    case Prune(batch, _) =>
      JobsKeepAttempts(w.db.jobs, w.actors.workers, w.actors.requeues, PruneFinished(w.db, batch).jobs);
  }

  lemma SettleAttempts(w: World, worker: Id, maxAttempts: nat, backoff: nat)
    requires AttemptsOk(w.db.jobs, w.actors.workers, w.actors.requeues)
      && OutboxEnabled(w, Settle(worker, maxAttempts, backoff))
    ensures var after := SettleNext(w, worker, maxAttempts, backoff);
      AttemptsOk(after.db.jobs, after.actors.workers, after.actors.requeues)
  {
    var after := SettleNext(w, worker, maxAttempts, backoff);
    SettleTouches(w, worker, maxAttempts, backoff);
    assert after.actors.workers == w.actors.workers[worker := w.actors.workers[worker].(state := Settled)];
    hide AttemptsOk, SettleNext;
    StateKeepsAttempts(w.db.jobs, w.actors.workers, w.actors.requeues, worker, Settled);
    JobsKeepAttempts(w.db.jobs, after.actors.workers, w.actors.requeues, after.db.jobs);
  }

  lemma JobsKeepNewest(jobs: Jobs, workers: Workers, requeues: map<Id, nat>, jobs': Jobs, requeues': map<Id, nat>)
    requires NewestKnown(jobs, workers, requeues)
    requires forall f :: f in jobs' && jobs'[f].attempts > 0 ==>
               f in jobs && jobs'[f].attempts == jobs[f].attempts && EpochOf(requeues', f) == EpochOf(requeues, f)
    ensures NewestKnown(jobs', workers, requeues')
  {
    hide EpochOf;
  }

  lemma StateKeepsNewest(jobs: Jobs, workers: Workers, requeues: map<Id, nat>, k: Id, state: WorkerState)
    requires NewestKnown(jobs, workers, requeues) && k in workers
    ensures NewestKnown(jobs, workers[k := workers[k].(state := state)], requeues)
  {
    hide EpochOf;
    var workers' := workers[k := workers[k].(state := state)];
    forall f | f in jobs && jobs[f].attempts > 0
      ensures exists l :: l in workers' && IsClaim(workers'[l], f, EpochOf(requeues, f), jobs[f].attempts)
    {
      var l :| l in workers && IsClaim(workers[l], f, EpochOf(requeues, f), jobs[f].attempts);
      assert IsClaim(workers'[l], f, EpochOf(requeues, f), jobs[f].attempts);
    }
  }

  lemma ClaimNewest(w: World, worker: Id, file: Id, leaseMs: nat)
    requires NewestKnown(w.db.jobs, w.actors.workers, w.actors.requeues) && worker !in w.actors.workers
    ensures var after := ClaimJobNext(w, worker, file, leaseMs);
      NewestKnown(after.db.jobs, after.actors.workers, after.actors.requeues)
  {
    var after := ClaimJobNext(w, worker, file, leaseMs);
    forall f | f in after.db.jobs && after.db.jobs[f].attempts > 0
      ensures exists l :: l in after.actors.workers
                && IsClaim(after.actors.workers[l], f, EpochOf(w.actors.requeues, f), after.db.jobs[f].attempts)
    {
      if after != w && f == file {
        assert IsClaim(after.actors.workers[worker], f, EpochOf(w.actors.requeues, f), after.db.jobs[f].attempts);
      } else {
        var l :| l in w.actors.workers
          && IsClaim(w.actors.workers[l], f, EpochOf(w.actors.requeues, f), w.db.jobs[f].attempts);
        assert l in after.actors.workers;
      }
    }
  }

  lemma SettleNewest(w: World, worker: Id, maxAttempts: nat, backoff: nat)
    requires NewestKnown(w.db.jobs, w.actors.workers, w.actors.requeues)
      && OutboxEnabled(w, Settle(worker, maxAttempts, backoff))
    ensures var after := SettleNext(w, worker, maxAttempts, backoff);
      NewestKnown(after.db.jobs, after.actors.workers, after.actors.requeues)
  {
    var after := SettleNext(w, worker, maxAttempts, backoff);
    SettleTouches(w, worker, maxAttempts, backoff);
    SettleShape(w, worker, maxAttempts, backoff);
    hide NewestKnown, SettleNext;
    StateKeepsNewest(w.db.jobs, w.actors.workers, w.actors.requeues, worker, Settled);
    JobsKeepNewest(w.db.jobs, after.actors.workers, w.actors.requeues, after.db.jobs, w.actors.requeues);
  }

  lemma RequeueNewest(w: World)
    requires NewestKnown(w.db.jobs, w.actors.workers, w.actors.requeues)
    ensures NewestKnown(RequeueNext(w).db.jobs, w.actors.workers, RequeueNext(w).actors.requeues)
  {
    hide NewestKnown;
    JobsKeepNewest(w.db.jobs, w.actors.workers, w.actors.requeues, RequeueNext(w).db.jobs,
      RequeueNext(w).actors.requeues);
  }

  lemma OutboxNewest(w: World, step: OutboxStep)
    requires NewestKnown(w.db.jobs, w.actors.workers, w.actors.requeues)
    requires OutboxEnabled(w, step) && !step.SoftDelete?
    ensures var after := OutboxNext(w, step);
      NewestKnown(after.db.jobs, after.actors.workers, after.actors.requeues)
  {
    hide NewestKnown;
    match step
    case ClaimJob(worker, file, leaseMs) => hide ClaimJobNext; ClaimNewest(w, worker, file, leaseMs);
    case RemoveBytes(worker, succeeds) =>
      StateKeepsNewest(w.db.jobs, w.actors.workers, w.actors.requeues, worker, if succeeds then Removed else Failed);
    case Settle(worker, maxAttempts, backoff) => hide SettleNext; SettleNewest(w, worker, maxAttempts, backoff);
    case Requeue => hide RequeueNext; RequeueNewest(w);
    case DeadLetter(maxAttempts) =>
      JobsKeepNewest(w.db.jobs, w.actors.workers, w.actors.requeues,
        DeadLetterExhausted(w.db, maxAttempts, w.clock).jobs, w.actors.requeues);
    case Prune(batch, _) =>
      JobsKeepNewest(w.db.jobs, w.actors.workers, w.actors.requeues, PruneFinished(w.db, batch).jobs,
        w.actors.requeues);
  }

  lemma SettleShape(w: World, worker: Id, maxAttempts: nat, backoff: nat)
    requires OutboxEnabled(w, Settle(worker, maxAttempts, backoff))
    ensures var after, row := SettleNext(w, worker, maxAttempts, backoff), w.actors.workers[worker];
      && after.actors.workers == w.actors.workers[worker := row.(state := Settled)]
      && (forall f :: f in w.db.jobs && f != row.file ==> f in after.db.jobs && after.db.jobs[f] == w.db.jobs[f])
      && (!SettlementApplies(w.db, row.file, row.attempts) ==> after.db.jobs == w.db.jobs)
  {
  }

  lemma OutboxKeeps(w: World, step: OutboxStep)
    requires Inv(w) && OutboxEnabled(w, step)
    ensures Inv(OutboxNext(w, step))
  {
    if step.SoftDelete? {
      SoftDeleteInvKeeps(w, step.user, step.file);
    } else {
      hide OutboxNext, LedgerOk, SessionsOk, PublishedOnce, PartsOk, FrozenOk, CompletersOk, StorageOk, AttemptsOk,
        NewestKnown;
      OutboxLedger(w, step);
      OutboxFrame(w, step);
      OutboxStorage(w, step);
      OutboxAttempts(w, step);
      OutboxNewest(w, step);
    }
  }
}
