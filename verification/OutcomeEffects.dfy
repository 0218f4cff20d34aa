/** What the steps of a completion, a one-shot commit and a deletion leave behind, whichever way they go. */
module OutcomeEffects {
  import opened Wrappers
  import opened UploadParts
  import opened Tables
  import opened Machine
  import opened Ledger
  import opened Invariants
  import opened Safety
  import opened Effects

  // ----- Completion

  /** A complete list is assembled, from nothing, under a fresh name; any other is handed back at once. */
  lemma FreezeIsExact(w: World, t: Id, rows: seq<Part>, name: Name)
    requires t in w.actors.completers && w.actors.completers[t].session in w.db.sessions
    ensures var complete := CompleteParts(w.db.sessions[w.actors.completers[t].session].layout, rows);
      var after := FreezeNext(w, t, rows, name);
      && after.db == w.db && after.disk.objects == w.disk.objects && t in after.actors.completers
      && after.actors.completers[t].phase == (if complete then Assembling(rows, name, [], 0) else GivingBack(None))
      && (complete ==> OwnedBy(after.disk, name, OfCompleter(t)))
  {
    hide CompleteParts;
  }

  /** A part that can be read is appended; one that cannot ends the attempt, naming exactly that part. */
  lemma ReadPartIsExact(w: World, t: Id)
    requires InPhase(w, t, ReadPart(t))
    ensures var phase, after := w.actors.completers[t].phase, ReadPartNext(w, t);
      var part := phase.parts[phase.next];
      && after.db == w.db && after.disk == w.disk && t in after.actors.completers
      && after.actors.completers[t].phase ==
           if part.storedName in w.disk.chunks && part.storedName !in w.disk.lostChunks then
             Assembling(phase.parts, phase.name, phase.bytes + w.disk.chunks[part.storedName], phase.next + 1)
           else GivingBack(Some(PartRef(part.partNumber, part.storedName)))
  {
  }

  /**
   A commit that does not publish changes no table and removes what it had assembled; only a lost lease ends it there.
   */
  lemma FailedCommitIsUndone(w: World, t: Id, file: Id)
    requires CompletionEnabled(w, Commit(t, file))
    requires var id := w.actors.completers[t].session;
      CompletionOutcome(w.db, w.db.sessions[id].owner, id, t) != Published
    ensures var c, after := w.actors.completers[t], CommitNext(w, t, file);
      var lost := w.db.Active(w.db.sessions[c.session].owner) && !HoldsToken(w.db.sessions, c.session, t);
      && after.db == w.db && after.disk.objects == w.disk.objects - {c.phase.name} && t in after.actors.completers
      && (lost ==> after.actors.completers[t].phase == Stopped)
      && (w.db.sessions[c.session].owner in w.db.users && !w.db.Active(w.db.sessions[c.session].owner) ==>
            after.actors.completers[t].phase == GivingBack(None))
  {
    hide FitsPlan;
  }

  /** One that does publishes exactly the assembled object, for the owner, and moves exactly the session's bytes. */
  lemma PublicationIsExact(w: World, t: Id, file: Id)
    requires CompletionEnabled(w, Commit(t, file))
    requires var id := w.actors.completers[t].session;
      CompletionOutcome(w.db, w.db.sessions[id].owner, id, t) == Published
    ensures var c, after := w.actors.completers[t], CommitNext(w, t, file);
      var s := w.db.sessions[c.session];
      && s.owner in w.db.users && s.owner in after.db.users
      && after.db.users[s.owner].storageUsed == w.db.users[s.owner].storageUsed + s.layout.size
      && after.db.users[s.owner].reservedUploadBytes == w.db.users[s.owner].reservedUploadBytes - s.layout.size
      && after.db.files == w.db.files[file := File(s.owner, c.phase.name, |c.phase.bytes|, ActiveFile)]
      && after.db.sessions == w.db.sessions[c.session :=
           s.(status := Completed, fileId := Some(file), completionToken := None, leaseUntil := None)]
      && after.disk.objects == w.disk.objects && OwnedBy(after.disk, c.phase.name, OfFile(file))
  {
    hide FitsPlan;
  }

  /** The holder hands its session back open, with its deadline; anyone else, or a failing database, changes nothing. */
  lemma GiveBackIsExact(w: World, t: Id, databaseAnswers: bool)
    requires InPhase(w, t, GiveBack(t, databaseAnswers))
    ensures var c, after := w.actors.completers[t], GiveBackNext(w, t, databaseAnswers);
      && t in after.actors.completers
      && after.actors.completers[t].phase ==
           (if c.phase.missing.Some? then Repairing(c.phase.missing.value) else Stopped)
      && after.db.sessions ==
           if databaseAnswers && HoldsToken(w.db.sessions, c.session, t) then
             w.db.sessions[c.session :=
               w.db.sessions[c.session].(status := Uploading, completionToken := None, leaseUntil := None)]
           else w.db.sessions
  {
  }

  /** The reported row is deleted if it still names the missing object, and no other row is. */
  lemma MissingRowIsDeleted(w: World, t: Id)
    requires InPhase(w, t, DeleteMissing(t)) && w.actors.completers[t].session in w.db.sessions
    ensures var c, after := w.actors.completers[t], DeleteMissingNext(w, t);
      var key := PartKey(c.session, c.phase.part.number);
      && t in after.actors.completers && after.actors.completers[t].phase == Stopped
      && after.db.parts ==
           if key in w.db.parts && w.db.parts[key].storedName == c.phase.part.storedName then w.db.parts - {key}
           else w.db.parts
  {
  }

  /** The upload path does the same, but only while the session is open. */
  lemma RepairIsExact(w: World, id: Id, number: nat, name: Name)
    requires SessionEnabled(w, RepairPart(id, number, name))
    ensures var key, after := PartKey(id, number), SessionNext(w, RepairPart(id, number, name));
      after.db.parts ==
        if key in w.db.parts && w.db.parts[key].storedName == name && id in w.db.sessions
           && w.db.sessions[id].status == Uploading then w.db.parts - {key}
        else w.db.parts
  {
  }

  // ----- One-shot uploads

  /** A declared upload is committed as the object it staged, its reservation names the file, and its bytes move. */
  lemma DeclaredCommitIsExact(w: World, id: Id, user: Id, file: Id, name: Name)
    requires OneShotEnabled(w, CommitDeclared(id, user, file, name))
    ensures var size := |w.disk.objects[name]|;
      var after := OneShotNext(w, CommitDeclared(id, user, file, name));
      if OneShotOutcome(w.db, id, user, size) != Published then after == w else
        && w.db.reservations[id].state == Pending && w.db.reservations[id].owner == user
        && after.db.reservations
             == w.db.reservations[id := w.db.reservations[id].(state := Committed, fileId := Some(file))]
        && after.db.files == w.db.files[file := File(user, name, size, ActiveFile)]
        && user in w.db.users && user in after.db.users
        && after.db.users[user].storageUsed == w.db.users[user].storageUsed + size
        && after.db.users[user].reservedUploadBytes == w.db.users[user].reservedUploadBytes - size
        && after.disk.objects == w.disk.objects && OwnedBy(after.disk, name, OfFile(file))
  {
    hide FitsPlan;
  }

  /** An upload without a declared size is committed exactly where the measured bytes have room. */
  lemma MeasuredCommitIsExact(w: World, user: Id, file: Id, name: Name)
    requires OneShotEnabled(w, CommitMeasured(user, file, name))
    ensures var size := |w.disk.objects[name]|;
      var after := OneShotNext(w, CommitMeasured(user, file, name));
      if !HasRoom(w.db, user, size) then after == w else
        && after.db.files == w.db.files[file := File(user, name, size, ActiveFile)]
        && user in after.db.users
        && after.db.users[user] == w.db.users[user].(storageUsed := w.db.users[user].storageUsed + size)
        && after.disk.objects == w.disk.objects && OwnedBy(after.disk, name, OfFile(file))
  {
    AdmissionIsExact(w.db, user, |w.disk.objects[name]|);
  }

  // ----- Deletion

  /** Exactly an ACTIVE file of that user is deleted; its bytes are refunded and its removal is due at once. */
  lemma DeletionIsExact(w: World, user: Id, file: Id)
    requires LedgerOk(w.db) && file !in w.db.jobs && user in w.db.users
    ensures var after := OutboxNext(w, SoftDelete(user, file));
      if file in w.db.files && w.db.files[file].owner == user && w.db.files[file].status == ActiveFile then
        && file in after.db.files && after.db.files[file] == w.db.files[file].(status := DeletedFile)
        && user in after.db.users
        && after.db.users[user].storageUsed == w.db.users[user].storageUsed - w.db.files[file].size
        && file in after.db.jobs && IsDue(after.db.jobs[file], w.clock) && after.db.jobs[file].attempts == 0
        && after.db.jobs[file].storedName == w.db.files[file].storedName
      else after == w
  {
    if file in w.db.files { FileIsCounted(w.db, file); }
    hide LedgerOk;
  }

  /** A removal that succeeded takes exactly the worker's object; one that failed takes nothing. */
  lemma RemovalIsExact(w: World, k: Id, succeeds: bool)
    requires OutboxEnabled(w, RemoveBytes(k, succeeds))
    ensures var row, after := w.actors.workers[k], OutboxNext(w, RemoveBytes(k, succeeds));
      && after.db == w.db && k in after.actors.workers
      && after.disk.objects == (if succeeds then w.disk.objects - {row.storedName} else w.disk.objects)
      && after.actors.workers[k].state == if succeeds then Removed else Failed
  {
  }

  /** A finished row can be pruned only once it has been kept for the retention time. */
  lemma DoneIsKept(w: World, k: Id, maxAttempts: nat, backoff: nat, olderThan: nat, t: Time)
    requires OutboxEnabled(w, Settle(k, maxAttempts, backoff)) && w.actors.workers[k].state == Removed
    requires SettlementApplies(w.db, w.actors.workers[k].file, w.actors.workers[k].attempts)
    ensures var f, after := w.actors.workers[k].file, OutboxNext(w, Settle(k, maxAttempts, backoff));
      && f in after.db.jobs && after.db.jobs[f].status == Done
      && (Prunable(after.db, {f}, olderThan, t) <==> w.clock + olderThan < t)
  {
    var f, after := w.actors.workers[k].file, OutboxNext(w, Settle(k, maxAttempts, backoff));
    assert f in {f};
  }

  /** A failed row is parked on its last attempt, and otherwise due again exactly after the delay. */
  lemma FailureIsExact(w: World, k: Id, maxAttempts: nat, backoff: nat, t: Time)
    requires OutboxEnabled(w, Settle(k, maxAttempts, backoff)) && w.actors.workers[k].state == Failed
    requires SettlementApplies(w.db, w.actors.workers[k].file, w.actors.workers[k].attempts)
    ensures var row, after := w.actors.workers[k], OutboxNext(w, Settle(k, maxAttempts, backoff));
      && row.file in after.db.jobs
      && (after.db.jobs[row.file].status == Dead <==> row.attempts >= maxAttempts)
      && (row.attempts < maxAttempts ==> (IsDue(after.db.jobs[row.file], t) <==> w.clock + backoff <= t))
  {
  }

  /** A settlement that the fence refuses changes no table. */
  lemma FencedSettlementIsVoid(w: World, k: Id, maxAttempts: nat, backoff: nat)
    requires OutboxEnabled(w, Settle(k, maxAttempts, backoff))
    requires !SettlementApplies(w.db, w.actors.workers[k].file, w.actors.workers[k].attempts)
    ensures OutboxNext(w, Settle(k, maxAttempts, backoff)).db == w.db
  {
  }

  /** The reaper parks exactly the rows that are out of attempts and whose last lease has lapsed. */
  lemma ReaperIsExact(w: World, maxAttempts: nat, f: Id)
    requires f in w.db.jobs
    ensures var job, after := w.db.jobs[f], OutboxNext(w, DeadLetter(maxAttempts));
      var lapsed := job.lockedUntil.Some? && job.lockedUntil.value <= w.clock;
      && f in after.db.jobs
      && after.db.jobs[f] == if job.status == Queued && job.attempts >= maxAttempts && lapsed
                             then job.(status := Dead, lockedUntil := None) else job
  {
  }

  /** A requeue makes exactly the parked rows due at once, as if never tried. */
  lemma RequeueIsExact(w: World, f: Id)
    requires f in w.db.jobs
    ensures var job, after := w.db.jobs[f], OutboxNext(w, Requeue);
      && f in after.db.jobs
      && if job.status != Dead then after.db.jobs[f] == job && after.Epoch(f) == w.Epoch(f)
         else IsDue(after.db.jobs[f], w.clock) && after.db.jobs[f].attempts == 0 && after.Epoch(f) == w.Epoch(f) + 1
  {
  }
}
