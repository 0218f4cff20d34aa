/** What holds between the tables, the stored objects and the actors' local state in every reachable world. */
module Invariants {
  import opened Wrappers
  import opened UploadParts
  import opened Tables
  import opened Machine
  import opened Ledger

  type Sessions = map<Id, Session>
  type Files = map<Id, File>
  type Jobs = map<Id, Job>
  type Parts = map<PartKey, Part>
  type Chunks = map<Name, Bytes>
  type Completers = map<Id, Completer>
  type Workers = map<Id, Worker>

  // ----- Sessions and their fencing tokens

  predicate SessionOk(id: Id, s: Session, files: Files, completers: Completers) {
    && s.layout.Valid()
    && (s.status == Completing <==> s.completionToken.Some?)
    && (s.status == Completing <==> s.leaseUntil.Some?)
    && (s.completionToken.Some? ==>
          s.completionToken.value in completers && completers[s.completionToken.value].session == id)
    && (s.status == Completed <==> s.fileId.Some?)
    && (s.fileId.Some? ==>
          && s.fileId.value in files
          && files[s.fileId.value].owner == s.owner && files[s.fileId.value].size == s.layout.size)
  }

  ghost predicate SessionsOk(sessions: Sessions, files: Files, completers: Completers) {
    forall id :: id in sessions ==> SessionOk(id, sessions[id], files, completers)
  }

  ghost predicate Rival(completers: Completers, t1: Id, t2: Id) {
    && t1 in completers && t2 in completers && completers[t1].session == completers[t2].session
    && completers[t1].phase.PublishedAs? && completers[t2].phase.PublishedAs?
  }

  /** Each session publishes through one completion at most, and every publication is recorded in its session. */
  ghost predicate PublishedOnce(sessions: Sessions, completers: Completers) {
    && (forall t :: t in completers ==> completers[t].session in sessions)
    && (forall t :: t in completers && completers[t].phase.PublishedAs? ==>
          sessions[completers[t].session].fileId == Some(completers[t].phase.file))
    && (forall t1, t2 :: Rival(completers, t1, t2) ==> t1 == t2)
  }

  // ----- Parts and frozen part lists

  predicate PartOk(sessions: Sessions, chunks: Chunks, key: PartKey, part: Part) {
    && key.session in sessions && FitsLayout(sessions[key.session].layout, key.number, part)
    && part.storedName in chunks && |chunks[part.storedName]| == part.size
  }

  ghost predicate PartsOk(sessions: Sessions, parts: Parts, chunks: Chunks) {
    forall key :: key in parts ==> PartOk(sessions, chunks, key, parts[key])
  }

  predicate HasParts(phase: Phase) {
    phase.Assembling? || phase.ReadyToCommit?
  }

  /** `list` still accounts for every part row of the session. */
  ghost predicate Accounts(parts: Parts, id: Id, list: seq<Part>) {
    forall key :: key in parts && key.session == id ==> key.number < |list| && list[key.number] == parts[key]
  }

  /** While a completer holds the session, no part row has been added to its frozen list. */
  ghost predicate FrozenOk(sessions: Sessions, parts: Parts, completers: Completers) {
    forall t :: t in completers && HasParts(completers[t].phase) && HoldsToken(sessions, completers[t].session, t) ==>
      Accounts(parts, completers[t].session, completers[t].phase.parts)
  }

  predicate PartsStored(chunks: Chunks, parts: seq<Part>) {
    forall p :: p in parts ==> p.storedName in chunks && |chunks[p.storedName]| == p.size
  }

  /** `bytes` are the stored contents of exactly these complete parts, in order. */
  predicate BuiltFrom(layout: Layout, chunks: Chunks, parts: seq<Part>, bytes: Bytes) {
    && CompleteParts(layout, parts) && PartsStored(chunks, parts)
    && bytes == Concat(Contents(parts, chunks)) && |bytes| == layout.size
  }

  predicate PhaseOk(layout: Layout, chunks: Chunks, phase: Phase) {
    match phase
    case Assembling(parts, _, bytes, next) =>
      && CompleteParts(layout, parts) && PartsStored(chunks, parts)
      && next <= |parts| && bytes == Concat(Contents(parts[..next], chunks))
    case ReadyToCommit(parts, _, bytes) => BuiltFrom(layout, chunks, parts, bytes)
    case PublishedAs(_, parts, bytes) => BuiltFrom(layout, chunks, parts, bytes)
    case _ => true
  }

  ghost predicate CompletersOk(sessions: Sessions, chunks: Chunks, completers: Completers) {
    forall t :: t in completers ==>
      completers[t].session in sessions && PhaseOk(sessions[completers[t].session].layout, chunks, completers[t].phase)
  }

  // ----- Files, final objects and deletion jobs

  predicate OwnedBy(disk: Disk, name: Name, owner: NameOwner) {
    name in disk.owner && disk.owner[name] == owner
  }

  /** An ACTIVE file can always be read; a DELETED one whose object remains still has an unfinished job. */
  predicate FileOk(f: Id, file: File, jobs: Jobs, disk: Disk) {
    && OwnedBy(disk, file.storedName, OfFile(f))
    && (file.status == ActiveFile ==> file.storedName in disk.objects && |disk.objects[file.storedName]| == file.size)
    && (file.status == DeletedFile && file.storedName in disk.objects ==> f in jobs && jobs[f].status != Done)
  }

  ghost predicate FilesOk(files: Files, jobs: Jobs, disk: Disk) {
    && disk.objects.Keys <= disk.owner.Keys
    && forall f :: f in files ==> FileOk(f, files[f], jobs, disk)
  }

  ghost predicate JobsOk(files: Files, jobs: Jobs, disk: Disk) {
    forall f :: f in jobs ==>
      && f in files && files[f].status == DeletedFile && files[f].storedName == jobs[f].storedName
      && (jobs[f].status == Done ==> jobs[f].storedName !in disk.objects)
  }

  ghost predicate WorkersOk(files: Files, disk: Disk, workers: Workers) {
    forall k :: k in workers ==>
      && workers[k].file in files && files[workers[k].file].status == DeletedFile
      && files[workers[k].file].storedName == workers[k].storedName
      && (workers[k].state == Removed ==> workers[k].storedName !in disk.objects)
  }

  /** Assembled objects belong to their completer until published; a published object never changes. */
  predicate ObjectOk(t: Id, phase: Phase, files: Files, disk: Disk) {
    match phase
    case Assembling(_, name, _, _) => OwnedBy(disk, name, OfCompleter(t))
    case ReadyToCommit(_, name, bytes) =>
      OwnedBy(disk, name, OfCompleter(t)) && name in disk.objects && disk.objects[name] == bytes
    case PublishedAs(f, _, bytes) =>
      f in files && (files[f].storedName in disk.objects ==> disk.objects[files[f].storedName] == bytes)
    case _ => true
  }

  ghost predicate AssembledOk(files: Files, disk: Disk, completers: Completers) {
    forall t :: t in completers ==> ObjectOk(t, completers[t].phase, files, disk)
  }

  ghost predicate StorageOk(files: Files, jobs: Jobs, disk: Disk, completers: Completers, workers: Workers) {
    && FilesOk(files, jobs, disk) && JobsOk(files, jobs, disk)
    && WorkersOk(files, disk, workers) && AssembledOk(files, disk, completers)
  }

  // ----- Claims of deletion jobs

  function EpochOf(requeues: map<Id, nat>, file: Id): nat {
    if file in requeues then requeues[file] else 0
  }

  predicate SameClaim(a: Worker, b: Worker) {
    a.file == b.file && a.epoch == b.epoch && a.attempts == b.attempts
  }

  /** Attempt numbers identify the claims made since the last requeue. */
  ghost predicate AttemptsOk(jobs: Jobs, workers: Workers, requeues: map<Id, nat>) {
    && (forall k :: k in workers ==> workers[k].epoch <= EpochOf(requeues, workers[k].file))
    && (forall k ::
      k in workers && workers[k].file in jobs && workers[k].epoch == EpochOf(requeues, workers[k].file) ==>
          workers[k].attempts <= jobs[workers[k].file].attempts)
    && (forall k, l :: k in workers && l in workers && SameClaim(workers[k], workers[l]) ==> k == l)
  }

  predicate IsClaim(worker: Worker, file: Id, epoch: nat, attempts: nat) {
    worker.file == file && worker.epoch == epoch && worker.attempts == attempts
  }

  /** The row's attempt number is that of a claim made since the last requeue, unless there was none. */
  ghost predicate NewestKnown(jobs: Jobs, workers: Workers, requeues: map<Id, nat>) {
    && (forall k :: k in workers ==> workers[k].attempts > 0)
    && (forall f :: f in jobs && jobs[f].attempts > 0 ==>
          exists k :: k in workers && IsClaim(workers[k], f, EpochOf(requeues, f), jobs[f].attempts))
  }

  predicate Live(worker: Worker, now: Time) {
    worker.state != Settled && worker.leaseUntil > now
  }

  /** The row's lease is this worker's claim, and the newest one. */
  predicate HoldsLease(worker: Worker, jobs: Jobs, requeues: map<Id, nat>) {
    && worker.file in jobs && worker.epoch == EpochOf(requeues, worker.file)
    && jobs[worker.file].status == Queued && jobs[worker.file].attempts == worker.attempts
    && jobs[worker.file].lockedUntil == Some(worker.leaseUntil)
  }

  // ----- Local state between a read and its write

  predicate SameUpload(a: Session, b: Session) {
    a.owner == b.owner && a.layout == b.layout && a.expiresAt == b.expiresAt
  }

  predicate PastDeadline(sessions: Sessions, id: Id, now: Time) {
    id in sessions && sessions[id].expiresAt <= now
  }

  ghost predicate ReadsOk(now: Time, sessions: Sessions, actors: Actors) {
    && (forall a :: a in actors.releases ==>
          && actors.releases[a].observed == Uploading
          && (actors.releases[a].target == Aborted || actors.releases[a].target == Expired)
          && (actors.releases[a].target == Expired ==> PastDeadline(sessions, actors.releases[a].session, now)))
    && (forall a :: a in actors.recoveries ==>
          && actors.recoveries[a].at <= now && actors.recoveries[a].session in sessions
          && SameUpload(actors.recoveries[a].row, sessions[actors.recoveries[a].session]))
    && (forall a :: a in actors.sweeps ==> actors.sweeps[a].cutoff <= now)
  }

  ghost predicate Inv(w: World) {
    && LedgerOk(w.db)
    && SessionsOk(w.db.sessions, w.db.files, w.actors.completers)
    && PublishedOnce(w.db.sessions, w.actors.completers)
    && PartsOk(w.db.sessions, w.db.parts, w.disk.chunks)
    && FrozenOk(w.db.sessions, w.db.parts, w.actors.completers)
    && CompletersOk(w.db.sessions, w.disk.chunks, w.actors.completers)
    && StorageOk(w.db.files, w.db.jobs, w.disk, w.actors.completers, w.actors.workers)
    && AttemptsOk(w.db.jobs, w.actors.workers, w.actors.requeues)
    && NewestKnown(w.db.jobs, w.actors.workers, w.actors.requeues)
    && ReadsOk(w.clock, w.db.sessions, w.actors)
  }
}
