/**
 The service's writes, as they change its tables: one method per SQL statement or transaction. A transaction
 that fails part of the way puts back what it had changed. Each method does to the tables exactly what the
 function of the same name in `Tables` says, which is what every run of the machine is made of.
 */
module Database {
  import opened Wrappers
  import opened UploadParts
  import opened Tables
  import opened Machine
  import opened Ledger
  import opened SessionSteps

  class Database {
    const plans: map<Id, Plan>
    var users: map<Id, User>
    var sessions: map<Id, Session>
    var parts: map<PartKey, Part>
    var reservations: map<Id, Reservation>
    var files: map<Id, File>
    var jobs: map<Id, Job>

    ghost function Now(): Db
      reads this
    {
      Db(plans, users, sessions, parts, reservations, files, jobs)
    }

    constructor (plans: map<Id, Plan>, users: map<Id, User>)
      ensures Now() == Db(plans, users, map[], map[], map[], map[], map[])
    {
      this.plans, this.users := plans, users;
      sessions, parts, reservations, files, jobs := map[], map[], map[], map[], map[];
    }

    // ----- Quota counters

    method ReserveUploadQuota(user: Id, bytes: nat) returns (admitted: bool)
      modifies this`users
      ensures admitted == Tables.ReserveUploadQuota(old(Now()), user, bytes).Some?
      ensures Now() == Applied(old(Now()), Tables.ReserveUploadQuota(old(Now()), user, bytes))
    {
      if user !in users || users[user].status != ActiveUser {
        return false;
      }
      var u := users[user];
      if u.planId.None? || u.planId.value !in plans
         || u.storageUsed + u.reservedUploadBytes + bytes > plans[u.planId.value].storageLimit {
        return false;
      }
      users := users[user := u.(storageUsed := u.storageUsed + bytes)];
      return true;
    }

    method ReservePendingUploadQuota(user: Id, bytes: nat) returns (admitted: bool)
      modifies this`users
      ensures admitted == Tables.ReservePendingUploadQuota(old(Now()), user, bytes).Some?
      ensures Now() == Applied(old(Now()), Tables.ReservePendingUploadQuota(old(Now()), user, bytes))
    {
      if user !in users || users[user].status != ActiveUser {
        return false;
      }
      var u := users[user];
      if u.planId.None? || u.planId.value !in plans
         || u.storageUsed + u.reservedUploadBytes + bytes > plans[u.planId.value].storageLimit {
        return false;
      }
      users := users[user := u.(reservedUploadBytes := u.reservedUploadBytes + bytes)];
      return true;
    }

    /** Works for a suspended account too. */
    method ReleaseUploadReservation(user: Id, bytes: nat)
      modifies this`users
      ensures Now() == Tables.ReleaseUploadReservation(old(Now()), user, bytes)
    {
      if user in users {
        var left := users[user].reservedUploadBytes - bytes;
        users := users[user := users[user].(reservedUploadBytes := if left < 0 then 0 else left)];
      }
    }

    method CommitUploadReservation(user: Id, bytes: nat) returns (committed: bool)
      modifies this`users
      ensures committed == Tables.CommitUploadReservation(old(Now()), user, bytes).Some?
      ensures Now() == Applied(old(Now()), Tables.CommitUploadReservation(old(Now()), user, bytes))
    {
      if user !in users || users[user].status != ActiveUser {
        return false;
      }
      var u := users[user];
      if u.planId.None? || u.planId.value !in plans || u.reservedUploadBytes < bytes
         || u.storageUsed + u.reservedUploadBytes > plans[u.planId.value].storageLimit {
        return false;
      }
      users := users[user :=
        u.(storageUsed := u.storageUsed + bytes, reservedUploadBytes := u.reservedUploadBytes - bytes)];
      return true;
    }

    // ----- Accounts and plans

    method SetAccountStatus(user: Id, status: UserStatus) returns (found: bool)
      modifies this`users
      ensures found == (user in old(users))
      ensures Now() == Applied(old(Now()), Tables.SetAccountStatus(old(Now()), user, status))
    {
      found := user in users;
      if found {
        users := users[user := users[user].(status := status)];
      }
    }

    method SwitchPlanIfFits(user: Id, plan: Id) returns (switched: bool)
      modifies this`users
      ensures switched == Tables.SwitchPlanIfFits(old(Now()), user, plan).Some?
      ensures Now() == Applied(old(Now()), Tables.SwitchPlanIfFits(old(Now()), user, plan))
    {
      if user !in users || users[user].status != ActiveUser || plan !in plans
         || users[user].storageUsed + users[user].reservedUploadBytes > plans[plan].storageLimit {
        return false;
      }
      users := users[user := users[user].(planId := Some(plan))];
      return true;
    }

    /** A plan that is not free needs an entitlement. */
    method SwitchPlanIfEntitled(user: Id, plan: Id, entitled: bool) returns (switched: bool)
      modifies this`users
      ensures switched == Tables.SwitchPlanIfEntitled(old(Now()), user, plan, entitled).Some?
      ensures Now() == Applied(old(Now()), Tables.SwitchPlanIfEntitled(old(Now()), user, plan, entitled))
    {
      if plan in plans && !plans[plan].free && !entitled {
        return false;
      }
      switched := SwitchPlanIfFits(user, plan);
    }

    method DowngradeIfUnentitled(user: Id, plan: Id, fallback: Id, entitled: bool) returns (switched: bool)
      modifies this`users
      ensures switched == Tables.DowngradeIfUnentitled(old(Now()), user, plan, fallback, entitled).Some?
      ensures Now() == Applied(old(Now()), Tables.DowngradeIfUnentitled(old(Now()), user, plan, fallback, entitled))
    {
      if user !in users || users[user].planId != Some(plan) || fallback !in plans || !plans[fallback].free
         || users[user].storageUsed + users[user].reservedUploadBytes > plans[fallback].storageLimit || entitled {
        return false;
      }
      users := users[user := users[user].(planId := Some(fallback))];
      return true;
    }

    // ----- One-shot uploads

    method CreateReservation(id: Id, user: Id, bytes: nat, leaseUntil: Time) returns (created: bool)
      requires id !in reservations
      modifies this`users, this`reservations
      ensures created == Tables.CreateReservation(old(Now()), id, user, bytes, leaseUntil).Some?
      ensures Now() == Applied(old(Now()), Tables.CreateReservation(old(Now()), id, user, bytes, leaseUntil))
    {
      created := ReservePendingUploadQuota(user, bytes);
      if created {
        reservations := reservations[id := Reservation(user, bytes, Pending, leaseUntil, None)];
      }
    }

    method RenewReservation(id: Id, leaseUntil: Time) returns (renewed: bool)
      modifies this`reservations
      ensures renewed == Tables.RenewReservation(old(Now()), id, leaseUntil).Some?
      ensures Now() == Applied(old(Now()), Tables.RenewReservation(old(Now()), id, leaseUntil))
    {
      if id !in reservations || reservations[id].state != Pending {
        return false;
      }
      reservations := reservations[id := reservations[id].(leaseUntil := leaseUntil)];
      return true;
    }

    /** The reservation row and the counters move together; a caller whose transition did not apply changes nothing. */
    method ReleaseReservation(id: Id, lapsedBefore: Option<Time>) returns (released: bool)
      modifies this`users, this`reservations
      ensures released == Tables.ReleaseReservation(old(Now()), id, lapsedBefore).Some?
      ensures Now() == Applied(old(Now()), Tables.ReleaseReservation(old(Now()), id, lapsedBefore))
    {
      if id !in reservations || reservations[id].state != Pending {
        return false;
      }
      var row := reservations[id];
      if lapsedBefore.Some? && row.leaseUntil >= lapsedBefore.value {
        return false;
      }
      reservations := reservations[id := row.(state := Released)];
      ReleaseUploadReservation(row.owner, row.bytes);
      return true;
    }

    /** Claims the reservation, converts its bytes, and creates and links the file; or undoes the claim. */
    method CommitOneShot(id: Id, user: Id, fileId: Id, storedName: Name, size: nat) returns (outcome: CommitOutcome)
      requires fileId !in files
      modifies this`users, this`reservations, this`files
      ensures outcome == OneShotOutcome(old(Now()), id, user, size)
      ensures Now() == Tables.CommitOneShot(old(Now()), id, user, fileId, storedName, size)
    {
      if user in users && users[user].status != ActiveUser {
        return OwnerNotActive;
      }
      if id !in reservations || reservations[id].state != Pending || reservations[id].owner != user {
        return ReservationInvalid;
      }
      var before := reservations;
      reservations := reservations[id := reservations[id].(state := Committed)];
      var committed := CommitUploadReservation(user, size);
      if !committed {
        reservations := before;
        return ReservationInvalid;
      }
      files := files[fileId := File(user, storedName, size, ActiveFile)];
      reservations := reservations[id := reservations[id].(fileId := Some(fileId))];
      return Published;
    }

    method CommitUndeclared(user: Id, fileId: Id, storedName: Name, size: nat) returns (outcome: CommitOutcome)
      requires fileId !in files
      modifies this`users, this`files
      ensures outcome == UndeclaredOutcome(old(Now()), user, size)
      ensures Now() == Tables.CommitUndeclared(old(Now()), user, fileId, storedName, size)
    {
      if user in users && users[user].status != ActiveUser {
        return OwnerNotActive;
      }
      var admitted := ReserveUploadQuota(user, size);
      if !admitted {
        return QuotaExceeded;
      }
      files := files[fileId := File(user, storedName, size, ActiveFile)];
      return Published;
    }

    /** One pass of the sweeper over what it read; released counts the rows whose transition applied. */
    method ReconcileExpiredReservations(lapsed: seq<Id>, cutoff: Time) returns (released: nat)
      modifies this`users, this`reservations
      ensures Now() == SweptAll(old(Now()), lapsed, cutoff)
      ensures released == SweptCount(old(Now()), lapsed, cutoff)
    {
      released := 0;
      for k := 0 to |lapsed|
        invariant Now() == SweptAll(old(Now()), lapsed[..k], cutoff)
        invariant released == SweptCount(old(Now()), lapsed[..k], cutoff)
      {
        assert lapsed[..k + 1][..k] == lapsed[..k];
        var applied := ReleaseReservation(lapsed[k], Some(cutoff));
        if applied {
          released := released + 1;
        }
      }
      assert lapsed[..|lapsed|] == lapsed;
    }

    // ----- Upload sessions

    method CreateSession(id: Id, user: Id, layout: Layout, expiresAt: Time) returns (created: bool)
      requires id !in sessions
      modifies this`users, this`sessions
      ensures created == Tables.CreateSession(old(Now()), id, user, layout, expiresAt).Some?
      ensures Now() == Applied(old(Now()), Tables.CreateSession(old(Now()), id, user, layout, expiresAt))
    {
      created := ReservePendingUploadQuota(user, layout.size);
      if created {
        sessions := sessions[id := Session(user, layout, Uploading, expiresAt, None, None, None, 0)];
      }
    }

    method ReleaseSession(id: Id, observed: SessionStatus, target: SessionStatus) returns (released: bool)
      modifies this`users, this`sessions
      ensures released == Tables.ReleaseSession(old(Now()), id, observed, target).Some?
      ensures Now() == Applied(old(Now()), Tables.ReleaseSession(old(Now()), id, observed, target))
    {
      if id !in sessions || sessions[id].status != observed {
        return false;
      }
      sessions := sessions[id := sessions[id].(status := target, completionToken := None, leaseUntil := None)];
      ReleaseUploadReservation(sessions[id].owner, sessions[id].layout.size);
      return true;
    }

    method InsertPartIfOpen(id: Id, user: Id, part: Part, now: Time) returns (outcome: Insertion)
      modifies this`parts
      ensures outcome == InsertionOutcome(old(Now()), id, user, part, now)
      ensures Now() == Tables.InsertPartIfOpen(old(Now()), id, user, part, now)
    {
      if user in users && users[user].status != ActiveUser {
        return AccountNotActive;
      }
      if id !in sessions || sessions[id].owner != user {
        return Closed(None);
      }
      var current := sessions[id];
      if current.status != Uploading {
        return Closed(Some(current.status));
      }
      if current.expiresAt <= now {
        return Closed(Some(Expired));
      }
      if PartKey(id, part.partNumber) in parts {
        return DuplicatePart;
      }
      parts := parts[PartKey(id, part.partNumber) := part];
      return Inserted;
    }

    method ClaimCompletion(id: Id, token: Id, now: Time, leaseMs: nat) returns (claimed: bool)
      modifies this`sessions
      ensures claimed == Tables.ClaimCompletion(old(Now()), id, token, now, leaseMs).Some?
      ensures Now() == Applied(old(Now()), Tables.ClaimCompletion(old(Now()), id, token, now, leaseMs))
    {
      if id !in sessions || sessions[id].status != Uploading || sessions[id].expiresAt <= now {
        return false;
      }
      sessions := sessions[id := sessions[id].(status := Completing, completionToken := Some(token),
                                               leaseUntil := Some(now + leaseMs),
                                               generation := sessions[id].generation + 1)];
      return true;
    }

    method RenewCompletionLease(id: Id, token: Id, now: Time, leaseMs: nat) returns (renewed: bool)
      modifies this`sessions
      ensures renewed == HoldsToken(old(sessions), id, token)
      ensures Now() == Applied(old(Now()), Tables.RenewCompletionLease(old(Now()), id, token, now, leaseMs))
    {
      if id !in sessions || sessions[id].status != Completing || sessions[id].completionToken != Some(token) {
        return false;
      }
      sessions := sessions[id := sessions[id].(leaseUntil := Some(now + leaseMs))];
      return true;
    }

    method RelinquishCompletion(id: Id, token: Id) returns (reverted: bool)
      modifies this`sessions
      ensures reverted == HoldsToken(old(sessions), id, token)
      ensures Now() == Applied(old(Now()), Tables.RelinquishCompletion(old(Now()), id, token))
    {
      if id !in sessions || sessions[id].status != Completing || sessions[id].completionToken != Some(token) {
        return false;
      }
      sessions := sessions[id := sessions[id].(status := Uploading, completionToken := None, leaseUntil := None)];
      return true;
    }

    /** The compare-and-set of a recovery that read `observed` at `now` and found it stale. */
    method RecoverStaleCompletion(id: Id, observed: Session, now: Time) returns (outcome: Recovery)
      modifies this`users, this`sessions
      ensures outcome == if Tables.RecoverStaleCompletion(old(Now()), id, observed, now).None? then NotRecovered
                         else if observed.expiresAt > now then BackToUploading else NowExpired
      ensures Now() == Applied(old(Now()), Tables.RecoverStaleCompletion(old(Now()), id, observed, now))
    {
      if id !in sessions || sessions[id].completionToken != observed.completionToken || !IsStale(sessions[id], now) {
        return NotRecovered;
      }
      var cleared := sessions[id].(completionToken := None, leaseUntil := None);
      if observed.expiresAt > now {
        sessions := sessions[id := cleared.(status := Uploading)];
        return BackToUploading;
      }
      sessions := sessions[id := cleared.(status := Expired)];
      ReleaseUploadReservation(observed.owner, observed.layout.size);
      return NowExpired;
    }

    /** The fenced commit of a completion; any failure undoes the counters and the file. */
    method CommitCompletion(user: Id, id: Id, token: Id, fileId: Id, storedName: Name, size: nat)
        returns (outcome: CommitOutcome)
      requires fileId !in files
      modifies this`users, this`sessions, this`files
      ensures outcome == CompletionOutcome(old(Now()), user, id, token)
      ensures Now() == Tables.CommitCompletion(old(Now()), user, id, token, fileId, storedName, size)
    {
      if user in users && users[user].status != ActiveUser {
        return OwnerNotActive;
      }
      if id !in sessions || sessions[id].owner != user || sessions[id].status != Completing
        || sessions[id].completionToken != Some(token) {
        return LeaseLost;
      }
      var usersBefore, filesBefore := users, files;
      var committed := CommitUploadReservation(user, sessions[id].layout.size);
      if !committed {
        return ReservationInvalid;
      }
      files := files[fileId := File(user, storedName, size, ActiveFile)];
      if sessions[id].fileId.Some? {
        users, files := usersBefore, filesBefore;
        return LeaseLost;
      }
      sessions :=
        sessions[id :=
          sessions[id].(status := Completed, fileId := Some(fileId), completionToken := None, leaseUntil := None)];
      return Published;
    }

    /** One pass over the sessions that had lapsed or gone stale when the sweeper read them. */
    method CleanupUploadSessions(candidates: seq<Candidate>, now: Time) returns (count: nat)
      modifies this`users, this`sessions
      ensures count == |candidates| && Now() == CleanedUp(old(Now()), candidates, now)
    {
      for k := 0 to |candidates|
        invariant Now() == CleanedUp(old(Now()), candidates[..k], now)
      {
        assert candidates[..k + 1][..k] == candidates[..k];
        var candidate := candidates[k];
        if candidate.row.status == Completing {
          if candidate.id in sessions && IsStale(sessions[candidate.id], now) {
            var outcome := RecoverStaleCompletion(candidate.id, sessions[candidate.id], now);
          }
        } else {
          var released := ReleaseSession(candidate.id, candidate.row.status, Expired);
        }
      }
      assert candidates[..|candidates|] == candidates;
      return |candidates|;
    }

    // ----- Deletion and its outbox

    /** Status change, refund and job in one statement; a file that is not ACTIVE is left alone. */
    method SoftDeleteFile(user: Id, id: Id, now: Time) returns (deleted: bool)
      modifies this`users, this`files, this`jobs
      ensures deleted == Tables.SoftDeleteFile(old(Now()), user, id, now).Some?
      ensures Now() == Applied(old(Now()), Tables.SoftDeleteFile(old(Now()), user, id, now))
    {
      if id !in files || files[id].owner != user || files[id].status != ActiveFile || user !in users {
        return false;
      }
      var file := files[id];
      files := files[id := file.(status := DeletedFile)];
      users := users[user := users[user].(storageUsed := Clamp(users[user].storageUsed - file.size))];
      if id !in jobs {
        jobs := jobs[id := Job(file.storedName, Queued, 0, now, None, None)];
      }
      return true;
    }

    method DeadLetterExhausted(maxAttempts: nat, now: Time)
      modifies this`jobs
      ensures Now() == Tables.DeadLetterExhausted(old(Now()), maxAttempts, now)
    {
      jobs := map f | f in jobs ::
        if IsExhausted(jobs[f], maxAttempts, now) then jobs[f].(status := Dead, lockedUntil := None) else jobs[f];
    }

    method RequeueDead(now: Time)
      modifies this`jobs
      ensures Now() == Tables.RequeueDead(old(Now()), now)
    {
      jobs := map f | f in jobs ::
        if jobs[f].status == Dead
          then jobs[f].(status := Queued, attempts := 0, nextAttemptAt := now, lockedUntil := None) else jobs[f];
    }

    /** Removes a batch that was selected as finished and old enough; nothing unfinished can be in it. */
    method PruneFinished(batch: set<Id>, olderThan: nat, now: Time)
      requires Prunable(Now(), batch, olderThan, now)
      modifies this`jobs
      ensures forall f :: f in old(jobs) && old(jobs)[f].status != Done ==> f in jobs && jobs[f] == old(jobs)[f]
      ensures Now() == Tables.PruneFinished(old(Now()), batch)
    {
      jobs := jobs - batch;
    }

    method ClaimFileDeletion(id: Id, now: Time, leaseMs: nat) returns (claimed: bool)
      modifies this`jobs
      ensures claimed == (id in old(jobs) && IsDue(old(jobs)[id], now))
      ensures Now() == Applied(old(Now()), Tables.ClaimFileDeletion(old(Now()), id, now, leaseMs))
    {
      if id !in jobs || !IsDue(jobs[id], now) {
        return false;
      }
      jobs := jobs[id := jobs[id].(attempts := jobs[id].attempts + 1, lockedUntil := Some(now + leaseMs))];
      return true;
    }

    /** Settles one claimed row, fenced on the attempt number; the answer does not depend on whether the fence held. */
    method FinishOne(id: Id, attempts: nat, removed: bool, maxAttempts: nat, now: Time, backoff: nat)
        returns (result: RowResult)
      modifies this`jobs
      ensures result == if removed then RowDone else if attempts >= maxAttempts then RowDead else RowRetry
      ensures Now() == Applied(old(Now()), if removed then SettleDone(old(Now()), id, attempts, now)
                                           else SettleFailed(old(Now()), id, attempts, maxAttempts, now + backoff))
    {
      var applies := id in jobs && jobs[id].status == Queued && jobs[id].attempts == attempts;
      if !removed {
        if applies {
          jobs := jobs[id := jobs[id].(status := if attempts >= maxAttempts then Dead else Queued,
                                       nextAttemptAt := now + backoff, lockedUntil := None)];
        }
        return if attempts >= maxAttempts then RowDead else RowRetry;
      }
      if applies {
        jobs := jobs[id := jobs[id].(status := Done, completedAt := Some(now), lockedUntil := None)];
      }
      return RowDone;
    }

    /** A failing update counts as a retry: the row stays claimed until its lease lapses. */
    method RunOne(id: Id, run: RowRun, maxAttempts: nat, now: Time, backoff: nat) returns (result: RowResult)
      requires id in jobs && jobs[id].status == Queued
      modifies this`jobs
      ensures jobs == old(jobs)[id := SettledRow(old(jobs)[id], run, maxAttempts, now, backoff)]
      ensures result == SettledResult(old(jobs)[id], run, maxAttempts)
    {
      if !run.databaseAnswers {
        return RowRetry;
      }
      result := FinishOne(id, jobs[id].attempts, run.removed, maxAttempts, now, backoff);
    }

    /** Claims a batch of due rows in one statement. */
    method ClaimFileDeletions(batch: seq<Id>, now: Time, leaseMs: nat)
      requires forall i :: 0 <= i < |batch| ==> batch[i] in jobs && IsDue(jobs[batch[i]], now)
      modifies this`jobs
      ensures jobs.Keys == old(jobs).Keys
      ensures forall f :: f in old(jobs) ==>
        jobs[f] == if f in batch then ClaimedRow(old(jobs)[f], now, leaseMs) else old(jobs)[f]
      ensures forall f :: f in batch ==>
        && Tables.ClaimFileDeletion(old(Now()), f, now, leaseMs).Some?
        && jobs[f] == Tables.ClaimFileDeletion(old(Now()), f, now, leaseMs).value.jobs[f]
      ensures forall f :: f in batch ==> LeasedUntil(jobs[f], now, now + leaseMs)
    {
      jobs := map f | f in jobs ::
        if f in batch then jobs[f].(attempts := jobs[f].attempts + 1, lockedUntil := Some(now + leaseMs)) else jobs[f];
    }

    /**
     One sweep: park the exhausted rows (unless that fails, which stops nothing), claim a batch of due ones, settle
     every claimed row by its own run, and count it once.
     */
    method ProcessFileDeletions(reapedAt: Option<Time>, batch: seq<Id>, runs: seq<RowRun>, maxAttempts: nat, now: Time,
        leaseMs: nat, backoff: nat)
      returns (tally: Tally)
      requires |runs| == |batch| && forall i, j :: 0 <= i < j < |batch| ==> batch[i] != batch[j]
      requires forall i :: 0 <= i < |batch| ==>
                 batch[i] in jobs && IsDue(jobs[batch[i]], now)
                   && Reaped(jobs[batch[i]], maxAttempts, reapedAt) == jobs[batch[i]]
      modifies this`jobs
      ensures jobs.Keys == old(jobs).Keys
      ensures forall f :: f in old(jobs) && f !in batch ==> jobs[f] == Reaped(old(jobs)[f], maxAttempts, reapedAt)
      ensures forall i :: 0 <= i < |batch| ==>
        jobs[batch[i]] == Processed(old(jobs)[batch[i]], runs[i], maxAttempts, now, leaseMs, backoff)
      ensures forall i :: 0 <= i < |batch| && !runs[i].databaseAnswers ==>
        LeasedUntil(jobs[batch[i]], now, now + leaseMs)
      ensures tally.claimed == |batch| == tally.done + tally.retry + tally.dead
      ensures var results := Results(old(jobs), batch, runs, maxAttempts);
        tally.done == CountOf(results, RowDone) && tally.retry == CountOf(results, RowRetry)
          && tally.dead == CountOf(results, RowDead)
    {
      hide ClaimedRow, SettledRow, SettledResult, ResultOf, CountOf, Results, IsDue, LeasedUntil, Reaped,
        Tables.ClaimFileDeletion;
      Reap(reapedAt, maxAttempts);
      ClaimFileDeletions(batch, now, leaseMs);
      forall i | 0 <= i < |batch| ensures jobs[batch[i]].status == Queued {
        ClaimedShape(old(jobs)[batch[i]], runs[i], maxAttempts, now, leaseMs);
      }
      ghost var claimed := jobs;
      var results := SettleBatch(batch, runs, maxAttempts, now, backoff);
      forall i | 0 <= i < |batch| ensures results[i] == ResultOf(old(jobs)[batch[i]], runs[i], maxAttempts) {
        ClaimedShape(old(jobs)[batch[i]], runs[i], maxAttempts, now, leaseMs);
        assert claimed[batch[i]] == ClaimedRow(old(jobs)[batch[i]], now, leaseMs);
      }
      forall i | 0 <= i < |batch| && !runs[i].databaseAnswers
        ensures LeasedUntil(jobs[batch[i]], now, now + leaseMs)
      {
        UnansweredStaysLeased(old(jobs)[batch[i]], runs[i], maxAttempts, now, leaseMs, backoff);
      }
      tally := CountResults(results);
      assert results == Results(old(jobs), batch, runs, maxAttempts) by {
        SameResults(old(jobs), batch, runs, maxAttempts, results);
      }
    }

    /** Settles every claimed row by its own run. */
    method SettleBatch(batch: seq<Id>, runs: seq<RowRun>, maxAttempts: nat, now: Time, backoff: nat)
      returns (results: seq<RowResult>)
      requires |runs| == |batch| && forall i, j :: 0 <= i < j < |batch| ==> batch[i] != batch[j]
      requires forall i :: 0 <= i < |batch| ==> batch[i] in jobs && jobs[batch[i]].status == Queued
      modifies this`jobs
      ensures jobs.Keys == old(jobs).Keys && forall f :: f in old(jobs) && f !in batch ==> jobs[f] == old(jobs)[f]
      ensures |results| == |batch|
      ensures forall i :: 0 <= i < |batch| ==>
        && jobs[batch[i]] == SettledRow(old(jobs)[batch[i]], runs[i], maxAttempts, now, backoff)
        && results[i] == SettledResult(old(jobs)[batch[i]], runs[i], maxAttempts)
    {
      hide SettledRow, SettledResult;
      results := [];
      for k := 0 to |batch|
        invariant jobs.Keys == old(jobs).Keys && forall f :: f in old(jobs) && f !in batch ==> jobs[f] == old(jobs)[f]
        invariant |results| == k
        invariant forall i :: 0 <= i < k ==>
          && jobs[batch[i]] == SettledRow(old(jobs)[batch[i]], runs[i], maxAttempts, now, backoff)
          && results[i] == SettledResult(old(jobs)[batch[i]], runs[i], maxAttempts)
        invariant forall i :: k <= i < |batch| ==> jobs[batch[i]] == old(jobs)[batch[i]]
      {
        var result := RunOne(batch[k], runs[k], maxAttempts, now, backoff);
        results := results + [result];
      }
    }

    method Reap(at: Option<Time>, maxAttempts: nat)
      modifies this`jobs
      ensures jobs.Keys == old(jobs).Keys
      ensures forall f :: f in jobs ==> jobs[f] == Reaped(old(jobs)[f], maxAttempts, at)
    {
      if at.Some? {
        DeadLetterExhausted(maxAttempts, at.value);
      }
    }

    static method CountResults(results: seq<RowResult>) returns (tally: Tally)
      ensures tally.claimed == |results| == tally.done + tally.retry + tally.dead
      ensures tally.done == CountOf(results, RowDone) && tally.retry == CountOf(results, RowRetry)
        && tally.dead == CountOf(results, RowDead)
    {
      tally := Tally(|results|, 0, 0, 0);
      for k := 0 to |results|
        invariant tally.claimed == |results| && tally.done + tally.retry + tally.dead == k
        invariant tally.done == CountOf(results[..k], RowDone)
        invariant tally.retry == CountOf(results[..k], RowRetry) && tally.dead == CountOf(results[..k], RowDead)
      {
        assert results[..k + 1][..k] == results[..k];
        match results[k]
        case RowDone => tally := tally.(done := tally.done + 1);
        case RowRetry => tally := tally.(retry := tally.retry + 1);
        case RowDead => tally := tally.(dead := tally.dead + 1);
      }
      assert results[..|results|] == results;
    }
  }

  datatype Recovery = NotRecovered | BackToUploading | NowExpired

  // ----- The sweeper's passes

  function SweptAll(db: Db, lapsed: seq<Id>, cutoff: Time): Db {
    if lapsed == [] then db else
      var before := SweptAll(db, lapsed[..|lapsed| - 1], cutoff);
      Applied(before, ReleaseReservation(before, lapsed[|lapsed| - 1], Some(cutoff)))
  }

  function SweptCount(db: Db, lapsed: seq<Id>, cutoff: Time): nat {
    if lapsed == [] then 0 else
      var before := SweptAll(db, lapsed[..|lapsed| - 1], cutoff);
      SweptCount(db, lapsed[..|lapsed| - 1], cutoff)
      + if ReleaseReservation(before, lapsed[|lapsed| - 1], Some(cutoff)).Some? then 1 else 0
  }

  predicate Lapsed(db: Db, id: Id, cutoff: Time) {
    IsPending(db, id) && db.reservations[id].leaseUntil < cutoff
  }

  /** A pass releases exactly the listed reservations that are pending and lapsed, whatever else is on the list. */
  lemma {:induction false} SweepReleasesTheLapsed(db: Db, lapsed: seq<Id>, cutoff: Time)
    ensures var after := SweptAll(db, lapsed, cutoff);
      && after.reservations.Keys == db.reservations.Keys
      && forall id :: id in db.reservations ==>
           after.reservations[id] ==
             if id in lapsed && Lapsed(db, id, cutoff)
               then db.reservations[id].(state := Released) else db.reservations[id]
  {
    if lapsed != [] {
      SweepReleasesTheLapsed(db, lapsed[..|lapsed| - 1], cutoff);
      assert lapsed == lapsed[..|lapsed| - 1] + [lapsed[|lapsed| - 1]];
    }
  }

  /** `row` is what the sweeper had read of the session. */
  datatype Candidate = Candidate(id: Id, row: Session)

  function CleanedOne(db: Db, candidate: Candidate, now: Time): Db {
    if candidate.row.status == Completing then
      if candidate.id in db.sessions && IsStale(db.sessions[candidate.id], now) then
        Applied(db, RecoverStaleCompletion(db, candidate.id, db.sessions[candidate.id], now))
      else db
    else Applied(db, ReleaseSession(db, candidate.id, candidate.row.status, Expired))
  }

  function CleanedUp(db: Db, candidates: seq<Candidate>, now: Time): Db {
    if candidates == [] then db
    else CleanedOne(CleanedUp(db, candidates[..|candidates| - 1], now), candidates[|candidates| - 1], now)
  }

  predicate NeedsCleaning(s: Session, now: Time) {
    (s.status == Uploading && s.expiresAt <= now) || IsStale(s, now)
  }

  /** A stale completion whose deadline has not passed goes back to its client; everything else ends. */
  function Cleaned(s: Session, now: Time): Session {
    var open := s.status == Completing && s.expiresAt > now;
    s.(status := if open then Uploading else Expired, completionToken := None, leaseUntil := None)
  }

  predicate WereRead(sessions: map<Id, Session>, candidates: seq<Candidate>, now: Time) {
    && (forall i :: 0 <= i < |candidates| ==>
          candidates[i].id in sessions && sessions[candidates[i].id] == candidates[i].row
            && NeedsCleaning(candidates[i].row, now))
    && (forall i, j :: 0 <= i < j < |candidates| ==> candidates[i].id != candidates[j].id)
  }

  predicate Listed(candidates: seq<Candidate>, id: Id) {
    exists i :: 0 <= i < |candidates| && candidates[i].id == id
  }

  lemma CleanedOneRow(db: Db, candidate: Candidate, now: Time)
    requires candidate.id in db.sessions && db.sessions[candidate.id] == candidate.row
      && NeedsCleaning(candidate.row, now)
    ensures CleanedOne(db, candidate, now).sessions == db.sessions[candidate.id := Cleaned(candidate.row, now)]
  {
  }

  lemma CleanedIsClean(s: Session, now: Time)
    requires NeedsCleaning(s, now)
    ensures !NeedsCleaning(Cleaned(s, now), now)
  {
  }

  /** A pass cleans every session it had read lapsed or stale, so none is left behind, and touches no other session. */
  lemma {:induction false} CleanupLeavesNoneBehind(db: Db, candidates: seq<Candidate>, now: Time)
    requires WereRead(db.sessions, candidates, now)
    ensures var after := CleanedUp(db, candidates, now).sessions;
      && after.Keys == db.sessions.Keys
      && (forall id :: id in db.sessions && !Listed(candidates, id) ==> after[id] == db.sessions[id])
      && (forall i :: 0 <= i < |candidates| ==> after[candidates[i].id] == Cleaned(candidates[i].row, now))
  {
    hide Cleaned, NeedsCleaning, CleanedOne;
    if candidates != [] {
      var n := |candidates| - 1;
      var init := candidates[..n];
      CleanupLeavesNoneBehind(db, init, now);
      assert !Listed(init, candidates[n].id);
      CleanedOneRow(CleanedUp(db, init, now), candidates[n], now);
      forall id | !Listed(candidates, id) ensures !Listed(init, id) && id != candidates[n].id {
        NotListed(candidates, id);
      }
    }
  }

  lemma NotListed(candidates: seq<Candidate>, id: Id)
    requires candidates != [] && !Listed(candidates, id)
    ensures !Listed(candidates[..|candidates| - 1], id) && id != candidates[|candidates| - 1].id
  {
  }

  /** Both passes keep every account's counters exact. */
  lemma {:induction false} SweepKeepsLedger(db: Db, lapsed: seq<Id>, cutoff: Time)
    requires LedgerOk(db)
    ensures LedgerOk(SweptAll(db, lapsed, cutoff))
  {
    hide LedgerOk, ReleaseReservation;
    if lapsed != [] {
      SweepKeepsLedger(db, lapsed[..|lapsed| - 1], cutoff);
      ReleaseReservationKeeps(SweptAll(db, lapsed[..|lapsed| - 1], cutoff), lapsed[|lapsed| - 1], Some(cutoff));
    }
  }

  lemma {:induction false} CleanupKeepsLedger(db: Db, candidates: seq<Candidate>, now: Time)
    requires LedgerOk(db) && forall i :: 0 <= i < |candidates| ==> NeedsCleaning(candidates[i].row, now)
    ensures LedgerOk(CleanedUp(db, candidates, now))
  {
    hide LedgerOk, ReleaseSession, RecoverStaleCompletion;
    if candidates != [] {
      var n := |candidates| - 1;
      CleanupKeepsLedger(db, candidates[..n], now);
      var before, candidate := CleanedUp(db, candidates[..n], now), candidates[n];
      if candidate.row.status == Completing {
        if candidate.id in before.sessions { RecoverKeeps(before, candidate.id, before.sessions[candidate.id], now); }
      } else {
        ReleaseKeeps(before, candidate.id, Expired);
      }
    }
  }

  // ----- The outcome of a deletion sweep

  datatype RowResult = RowDone | RowRetry | RowDead
  /** What happened to one claimed row: whether its object could be removed, and whether its update was answered. */
  datatype RowRun = RowRun(removed: bool, databaseAnswers: bool)
  datatype Tally = Tally(claimed: nat, done: nat, retry: nat, dead: nat)

  function Reaped(job: Job, maxAttempts: nat, at: Option<Time>): Job {
    if at.Some? && IsExhausted(job, maxAttempts, at.value) then job.(status := Dead, lockedUntil := None) else job
  }

  function ClaimedRow(job: Job, now: Time, leaseMs: nat): Job {
    job.(attempts := job.attempts + 1, lockedUntil := Some(now + leaseMs))
  }

  /** Nobody can claim the row before `until`. */
  ghost predicate LeasedUntil(job: Job, now: Time, until: Time) {
    forall t :: now <= t < until ==> !IsDue(job, t)
  }

  /** A claim keeps the row to its worker for the whole lease, and not longer. */
  lemma ClaimLeases(job: Job, now: Time, leaseMs: nat)
    requires IsDue(job, now)
    ensures LeasedUntil(ClaimedRow(job, now, leaseMs), now, now + leaseMs)
    ensures IsDue(ClaimedRow(job, now, leaseMs), now + leaseMs)
  {
  }

  lemma ClaimedShape(job: Job, run: RowRun, maxAttempts: nat, now: Time, leaseMs: nat)
    requires IsDue(job, now)
    ensures ClaimedRow(job, now, leaseMs).status == Queued
    ensures ResultOf(job, run, maxAttempts) == SettledResult(ClaimedRow(job, now, leaseMs), run, maxAttempts)
  {
  }

  lemma SameResults(jobs: map<Id, Job>, batch: seq<Id>, runs: seq<RowRun>, maxAttempts: nat, results: seq<RowResult>)
    requires |runs| == |batch| == |results| && forall i :: 0 <= i < |batch| ==> batch[i] in jobs
    requires forall i :: 0 <= i < |batch| ==> results[i] == ResultOf(jobs[batch[i]], runs[i], maxAttempts)
    ensures results == Results(jobs, batch, runs, maxAttempts)
  {
    hide ResultOf;
  }

  /** A row whose update was not answered is left to its lease. */
  lemma UnansweredStaysLeased(job: Job, run: RowRun, maxAttempts: nat, now: Time, leaseMs: nat, backoff: nat)
    requires IsDue(job, now) && !run.databaseAnswers
    ensures LeasedUntil(Processed(job, run, maxAttempts, now, leaseMs, backoff), now, now + leaseMs)
  {
    ClaimLeases(job, now, leaseMs);
  }

  /** A row whose update failed keeps its lease; otherwise it is done, dead on its last attempt, or due again later. */
  function SettledRow(claimed: Job, run: RowRun, maxAttempts: nat, now: Time, backoff: nat): Job {
    if !run.databaseAnswers then claimed
    else if run.removed then claimed.(status := Done, completedAt := Some(now), lockedUntil := None)
    else claimed.(status := if claimed.attempts >= maxAttempts then Dead else Queued,
                  nextAttemptAt := now + backoff, lockedUntil := None)
  }

  function SettledResult(claimed: Job, run: RowRun, maxAttempts: nat): RowResult {
    if !run.databaseAnswers then RowRetry else if run.removed then RowDone
    else if claimed.attempts >= maxAttempts then RowDead else RowRetry
  }

  function Processed(job: Job, run: RowRun, maxAttempts: nat, now: Time, leaseMs: nat, backoff: nat): Job {
    SettledRow(ClaimedRow(job, now, leaseMs), run, maxAttempts, now, backoff)
  }

  function ResultOf(job: Job, run: RowRun, maxAttempts: nat): RowResult {
    if !run.databaseAnswers then RowRetry else if run.removed then RowDone
    else if job.attempts + 1 >= maxAttempts then RowDead else RowRetry
  }

  function Results(jobs: map<Id, Job>, batch: seq<Id>, runs: seq<RowRun>, maxAttempts: nat): seq<RowResult>
    requires |runs| == |batch| && forall i :: 0 <= i < |batch| ==> batch[i] in jobs
  {
    seq(|batch|, i requires 0 <= i < |batch| => ResultOf(jobs[batch[i]], runs[i], maxAttempts))
  }

  function CountOf(results: seq<RowResult>, result: RowResult): nat {
    if results == [] then 0
    else CountOf(results[..|results| - 1], result) + if results[|results| - 1] == result then 1 else 0
  }
}
