/** Account and one-shot upload steps keep the invariant. */
module OneShotSteps {
  import opened Wrappers
  import opened UploadParts
  import opened Tables
  import opened Machine
  import opened MapSums
  import opened Ledger
  import opened Invariants

  // ----- Accounts and plans

  lemma AccountLedger(w: World, step: AccountStep)
    requires LedgerOk(w.db) && AccountEnabled(w, step)
    ensures LedgerOk(AccountNext(w, step).db)
  {
    hide SumOver;
    var after := AccountNext(w, step).db;
    assert Conserved(after) by {
      forall u | u in after.users ensures Balanced(after, u) { assert Balanced(w.db, u); }
    }
  }

  lemma AccountFrame(w: World, step: AccountStep)
    requires AccountEnabled(w, step)
    ensures var after := AccountNext(w, step);
      after.db == w.db.(users := after.db.users) && after.disk == w.disk && after.actors == w.actors
        && after.clock >= w.clock
  {
  }

  lemma AccountKeeps(w: World, step: AccountStep)
    requires Inv(w) && AccountEnabled(w, step)
    ensures Inv(AccountNext(w, step))
  {
    AccountLedger(w, step);
    AccountFrame(w, step);
    hide AccountNext, LedgerOk, SessionsOk, PublishedOnce, PartsOk, FrozenOk, CompletersOk, StorageOk, AttemptsOk,
      NewestKnown;
  }

  // ----- One-shot uploads

  lemma OneShotLedger(w: World, step: OneShotStep)
    requires LedgerOk(w.db) && OneShotEnabled(w, step)
    ensures LedgerOk(OneShotNext(w, step).db)
  {
    hide LedgerOk, CreateReservation, RenewReservation, CommitOneShot, CommitUndeclared, ReleaseReservation;
    match step
    case Reserve(id, user, declared, leaseMs) => CreateReservationKeeps(w.db, id, user, declared, w.clock + leaseMs);
    case Heartbeat(id, leaseMs) => RenewReservationKeeps(w.db, id, w.clock + leaseMs);
    case CommitDeclared(id, user, file, name) => CommitOneShotKeeps(w.db, id, user, file, name, |w.disk.objects[name]|);
    case CommitMeasured(user, file, name) => CommitUndeclaredKeeps(w.db, user, file, name, |w.disk.objects[name]|);
    case Release(id) => ReleaseReservationKeeps(w.db, id, None);
    case SweepRelease(actor, id) => ReleaseReservationKeeps(w.db, id, Some(w.actors.sweeps[actor].cutoff));
    case _ =>
  }

  /** A handler or completer turns the object it owns into a file. */
  predicate Publishes(files: Files, disk: Disk, files': Files, disk': Disk, f: Id, name: Name) {
    && f !in files && name in disk.objects && OwnedBy(disk', name, OfFile(f))
    && disk' == disk.(owner := disk'.owner) && disk'.owner == disk.owner[name := OfFile(f)]
    && f in files' && files' == files[f := files'[f]]
    && files'[f].storedName == name && files'[f].size == |disk.objects[name]| && files'[f].status == ActiveFile
  }

  lemma OneShotFrame(w: World, step: OneShotStep)
    requires OneShotEnabled(w, step)
    ensures var after := OneShotNext(w, step);
      && after.db.sessions == w.db.sessions && after.db.parts == w.db.parts && after.db.jobs == w.db.jobs
      && after.disk.chunks == w.disk.chunks && after.clock == w.clock
      && after.actors == w.actors.(sweeps := after.actors.sweeps)
      && (forall a ::
        a in after.actors.sweeps && !(a in w.actors.sweeps && after.actors.sweeps[a] == w.actors.sweeps[a]) ==>
            after.actors.sweeps[a].cutoff == w.clock)
  {
    hide CreateReservation, RenewReservation, CommitOneShot, CommitUndeclared, ReleaseReservation;
  }

  lemma OneShotFiles(w: World, step: OneShotStep)
    requires OneShotEnabled(w, step)
    ensures var after := OneShotNext(w, step);
      if step.CommitDeclared? || step.CommitMeasured? then
        && w.disk.owner[step.name] == OfHandler
        && ((after.disk == w.disk && after.db.files == w.db.files)
            || Publishes(w.db.files, w.disk, after.db.files, after.disk, step.file, step.name))
      else after.db.files == w.db.files
    ensures Grows(w.db.files, OneShotNext(w, step).db.files)
  {
  }

  predicate Grows(files: Files, files': Files) {
    forall f :: f in files ==> f in files' && files'[f] == files[f]
  }

  lemma SessionsKeepTheirFiles(sessions: Sessions, files: Files, files': Files, completers: Completers)
    requires SessionsOk(sessions, files, completers)
    requires forall f :: f in files ==>
      f in files' && files'[f].owner == files[f].owner && files'[f].size == files[f].size
    ensures SessionsOk(sessions, files', completers)
  {
    assert forall id :: id in sessions ==> SessionOk(id, sessions[id], files, completers);
  }

  lemma PublishKeepsStorage(files: Files, jobs: Jobs, disk: Disk, completers: Completers, workers: Workers,
                            files': Files, disk': Disk, f: Id, name: Name)
    requires StorageOk(files, jobs, disk, completers, workers)
    requires Publishes(files, disk, files', disk', f, name) && OwnedBy(disk, name, OfHandler)
    ensures StorageOk(files', jobs, disk', completers, workers)
  {
  }

  lemma WriteKeepsStorage(files: Files, jobs: Jobs, disk: Disk, completers: Completers, workers: Workers, name: Name,
      bytes: Bytes)
    requires StorageOk(files, jobs, disk, completers, workers) && name !in disk.owner
    ensures StorageOk(files, jobs,
      disk.(objects := disk.objects[name := bytes], owner := disk.owner[name := OfHandler]), completers, workers)
  {
  }

  lemma DropKeepsStorage(files: Files, jobs: Jobs, disk: Disk, completers: Completers, workers: Workers, name: Name)
    requires StorageOk(files, jobs, disk, completers, workers) && OwnedBy(disk, name, OfHandler)
    ensures StorageOk(files, jobs, disk.(objects := disk.objects - {name}), completers, workers)
  {
  }

  lemma OneShotStorage(w: World, step: OneShotStep)
    requires Inv(w) && OneShotEnabled(w, step)
    ensures var after := OneShotNext(w, step);
      StorageOk(after.db.files, after.db.jobs, after.disk, after.actors.completers, after.actors.workers)
  {
    var after, db, disk, actors := OneShotNext(w, step), w.db, w.disk, w.actors;
    OneShotFrame(w, step);
    OneShotFiles(w, step);
    hide StorageOk, LedgerOk, SessionsOk, PublishedOnce, PartsOk, FrozenOk, CompletersOk, AttemptsOk, NewestKnown,
      ReadsOk;
    match step
    case WriteObject(name, bytes) =>
      WriteKeepsStorage(db.files, db.jobs, disk, actors.completers, actors.workers, name, bytes);
    case DropObject(name) => DropKeepsStorage(db.files, db.jobs, disk, actors.completers, actors.workers, name);
    case CommitDeclared(_, _, file, name) =>
      if !(after.disk == disk && after.db.files == db.files) {
        PublishKeepsStorage(db.files, db.jobs, disk, actors.completers, actors.workers, after.db.files, after.disk,
          file, name);
      }
    case CommitMeasured(_, file, name) =>
      if !(after.disk == disk && after.db.files == db.files) {
        PublishKeepsStorage(db.files, db.jobs, disk, actors.completers, actors.workers, after.db.files, after.disk,
          file, name);
      }
    case _ =>
  }

  lemma OneShotKeeps(w: World, step: OneShotStep)
    requires Inv(w) && OneShotEnabled(w, step)
    ensures Inv(OneShotNext(w, step))
  {
    var after := OneShotNext(w, step);
    OneShotLedger(w, step);
    OneShotFrame(w, step);
    OneShotFiles(w, step);
    OneShotStorage(w, step);
    SessionsKeepTheirFiles(w.db.sessions, w.db.files, after.db.files, w.actors.completers);
    hide OneShotNext, Publishes, LedgerOk, SessionsOk, PublishedOnce, PartsOk, FrozenOk, CompletersOk, StorageOk,
      AttemptsOk, NewestKnown;
  }
}
