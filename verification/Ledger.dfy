/**
 Conservation: the two counters of every account are at all times the sums over the rows that own those
 bytes, and together they never exceed the plan.
 */
module Ledger {
  import opened Wrappers
  import opened UploadParts
  import opened Tables
  import opened Machine
  import opened MapSums

  predicate Open(s: Session) {
    s.status == Uploading || s.status == Completing
  }

  function Held(s: Session): nat { if Open(s) then s.layout.size else 0 }
  function Waiting(r: Reservation): nat { if r.state == Pending then r.bytes else 0 }
  function Stored(f: File): nat { if f.status == ActiveFile then f.size else 0 }

  function HeldBy(user: Id): Session -> int { (s: Session) => if s.owner == user then Held(s) else 0 }
  function WaitingFor(user: Id): Reservation -> int { (r: Reservation) => if r.owner == user then Waiting(r) else 0 }
  function StoredFor(user: Id): File -> int { (f: File) => if f.owner == user then Stored(f) else 0 }

  ghost function SessionSum(sessions: map<Id, Session>, user: Id): int { SumOver(sessions, HeldBy(user)) }
  ghost function ReservationSum(rows: map<Id, Reservation>, user: Id): int { SumOver(rows, WaitingFor(user)) }
  ghost function FileSum(files: map<Id, File>, user: Id): int { SumOver(files, StoredFor(user)) }

  /** The counters of one account equal the rows they account for. */
  ghost predicate Balanced(db: Db, u: Id)
    requires u in db.users
  {
    && db.users[u].reservedUploadBytes == SessionSum(db.sessions, u) + ReservationSum(db.reservations, u)
    && db.users[u].storageUsed == FileSum(db.files, u)
  }

  ghost predicate Conserved(db: Db) {
    forall u :: u in db.users ==> Balanced(db, u)
  }

  function Usage(db: Db, user: Id): int
    requires user in db.users
  {
    db.users[user].storageUsed + db.users[user].reservedUploadBytes
  }

  ghost predicate WithinPlans(db: Db) {
    forall u :: u in db.users ==>
      if db.users[u].planId.None? then Usage(db, u) == 0 else FitsPlan(db, db.users[u].planId.value, Usage(db, u))
  }

  ghost predicate Owned(db: Db) {
    && (forall id :: id in db.sessions ==> db.sessions[id].owner in db.users)
    && (forall id :: id in db.reservations ==> db.reservations[id].owner in db.users && db.reservations[id].bytes > 0)
    && (forall id :: id in db.files ==> db.files[id].owner in db.users)
  }

  ghost predicate LedgerOk(db: Db) {
    Conserved(db) && WithinPlans(db) && Owned(db)
  }

  // ----- What writing one row does to the sums

  lemma SessionWritten(sessions: map<Id, Session>, id: Id, s: Session)
    requires id in sessions ==> sessions[id].owner == s.owner
    ensures forall u :: SessionSum(sessions[id := s], u)
              == SessionSum(sessions, u) + (if u != s.owner
                then 0 else Held(s) - (if id in sessions then Held(sessions[id]) else 0))
  {
    forall u
      ensures SessionSum(sessions[id := s], u)
           == SessionSum(sessions, u) + (if u != s.owner
             then 0 else Held(s) - (if id in sessions then Held(sessions[id]) else 0))
    {
      SumUpdate(sessions, id, s, HeldBy(u));
    }
  }

  lemma ReservationWritten(rows: map<Id, Reservation>, id: Id, r: Reservation)
    requires id in rows ==> rows[id].owner == r.owner
    ensures forall u :: ReservationSum(rows[id := r], u)
              == ReservationSum(rows, u) + (if u != r.owner
                then 0 else Waiting(r) - (if id in rows then Waiting(rows[id]) else 0))
  {
    forall u
      ensures ReservationSum(rows[id := r], u)
           == ReservationSum(rows, u) + (if u != r.owner
             then 0 else Waiting(r) - (if id in rows then Waiting(rows[id]) else 0))
    {
      SumUpdate(rows, id, r, WaitingFor(u));
    }
  }

  lemma FileWritten(files: map<Id, File>, id: Id, f: File)
    requires id in files ==> files[id].owner == f.owner
    ensures forall u :: FileSum(files[id := f], u)
              == FileSum(files, u) + (if u != f.owner
                then 0 else Stored(f) - (if id in files then Stored(files[id]) else 0))
  {
    forall u
      ensures FileSum(files[id := f], u)
           == FileSum(files, u) + (if u != f.owner
             then 0 else Stored(f) - (if id in files then Stored(files[id]) else 0))
    {
      SumUpdate(files, id, f, StoredFor(u));
    }
  }

  lemma SumsNonnegative(db: Db, u: Id)
    ensures SessionSum(db.sessions, u) >= 0 && ReservationSum(db.reservations, u) >= 0 && FileSum(db.files, u) >= 0
  {
    SumNonnegative(db.sessions, HeldBy(u));
    SumNonnegative(db.reservations, WaitingFor(u));
    SumNonnegative(db.files, StoredFor(u));
  }

  /** No account can owe less than any one row it owns, so the GREATEST clamp of a release never changes a result. */
  lemma SessionIsCounted(db: Db, id: Id)
    requires LedgerOk(db) && id in db.sessions
    ensures db.users[db.sessions[id].owner].reservedUploadBytes >= Held(db.sessions[id])
    ensures db.users[db.sessions[id].owner].storageUsed >= 0
  {
    var u := db.sessions[id].owner;
    assert Balanced(db, u);
    SumsNonnegative(db, u);
    SumAtLeast(db.sessions, id, HeldBy(u));
  }

  lemma ReservationIsCounted(db: Db, id: Id)
    requires LedgerOk(db) && id in db.reservations
    ensures db.users[db.reservations[id].owner].reservedUploadBytes >= Waiting(db.reservations[id])
    ensures db.users[db.reservations[id].owner].storageUsed >= 0
  {
    var u := db.reservations[id].owner;
    assert Balanced(db, u);
    SumsNonnegative(db, u);
    SumAtLeast(db.reservations, id, WaitingFor(u));
  }

  lemma FileIsCounted(db: Db, id: Id)
    requires LedgerOk(db) && id in db.files
    ensures db.users[db.files[id].owner].storageUsed >= Stored(db.files[id])
    ensures db.users[db.files[id].owner].reservedUploadBytes >= 0
  {
    var u := db.files[id].owner;
    assert Balanced(db, u);
    SumsNonnegative(db, u);
    SumAtLeast(db.files, id, StoredFor(u));
  }

  // ----- Every statement keeps the ledger

  lemma CreateSessionKeeps(db: Db, id: Id, user: Id, layout: Layout, expiresAt: Time)
    requires LedgerOk(db)
    ensures LedgerOk(Applied(db, CreateSession(db, id, user, layout, expiresAt)))
  {
    hide SumOver;
    var after := Applied(db, CreateSession(db, id, user, layout, expiresAt));
    if CreateSession(db, id, user, layout, expiresAt).Some? {
      SessionWritten(db.sessions, id, Session(user, layout, Uploading, expiresAt, None, None, None, 0));
      assert Conserved(after) by {
        forall u | u in after.users ensures Balanced(after, u) { assert Balanced(db, u); }
      }
      assert WithinPlans(after);
    }
  }

  /** Rewriting a session without opening or closing it moves no bytes. */
  lemma SameHoldingKeeps(db: Db, id: Id, s: Session)
    requires LedgerOk(db) && id in db.sessions
    requires s.owner == db.sessions[id].owner && s.layout == db.sessions[id].layout && Open(s) == Open(db.sessions[id])
    ensures LedgerOk(db.WithSession(id, s))
  {
    hide SumOver;
    var after := db.WithSession(id, s);
    SessionWritten(db.sessions, id, s);
    assert Conserved(after) by {
      forall u | u in after.users ensures Balanced(after, u) { assert Balanced(db, u); }
    }
    assert WithinPlans(after);
  }

  /** Closing a session and returning its bytes, whatever else is cleared. */
  lemma ClosingKeeps(db: Db, id: Id, s: Session)
    requires LedgerOk(db) && id in db.sessions && Open(db.sessions[id]) && !Open(s)
    requires s.owner == db.sessions[id].owner && s.layout == db.sessions[id].layout
    ensures LedgerOk(ReleaseUploadReservation(db.WithSession(id, s), s.owner, s.layout.size))
  {
    hide SumOver;
    var after := ReleaseUploadReservation(db.WithSession(id, s), s.owner, s.layout.size);
    SessionIsCounted(db, id);
    SessionWritten(db.sessions, id, s);
    assert Conserved(after) by {
      forall u | u in after.users ensures Balanced(after, u) { assert Balanced(db, u); }
    }
    assert WithinPlans(after);
  }

  lemma CommitCompletionKeeps(db: Db, user: Id, id: Id, token: Id, fileId: Id, name: Name, size: nat)
    requires LedgerOk(db) && id in db.sessions && fileId !in db.files && size == db.sessions[id].layout.size
    ensures LedgerOk(CommitCompletion(db, user, id, token, fileId, name, size))
  {
    hide SumOver;
    var after := CommitCompletion(db, user, id, token, fileId, name, size);
    if CompletionOutcome(db, user, id, token) == Published {
      var s, u := db.sessions[id], db.users[user];
      assert after.sessions
        == db.sessions[id :=
          s.(status := Completed, fileId := Some(fileId), completionToken := None, leaseUntil := None)];
      assert after.users
        == db.users[user :=
          u.(storageUsed := u.storageUsed + size, reservedUploadBytes := u.reservedUploadBytes - size)];
      assert after.files == db.files[fileId := File(user, name, size, ActiveFile)];
      hide LedgerOk;
      ConversionKeeps(db, after, user, id, after.sessions[id], fileId, after.files[fileId]);
    }
  }

  /** An open session's bytes become its owner's file. */
  lemma ConversionKeeps(db: Db, after: Db, user: Id, id: Id, s: Session, fileId: Id, file: File)
    requires LedgerOk(db) && id in db.sessions && fileId !in db.files && user in db.users
    requires db.sessions[id].owner == s.owner == user == file.owner && file.status == ActiveFile
    requires Open(db.sessions[id]) && !Open(s) && s.layout == db.sessions[id].layout && file.size == s.layout.size
    requires after.sessions == db.sessions[id := s] && after.files == db.files[fileId := file]
    requires after.reservations == db.reservations && after.plans == db.plans
    requires var u := db.users[user];
      after.users
        == db.users[user :=
          u.(storageUsed := u.storageUsed + file.size, reservedUploadBytes := u.reservedUploadBytes - file.size)]
    ensures LedgerOk(after)
  {
    hide SumOver;
    SessionWritten(db.sessions, id, s);
    FileWritten(db.files, fileId, file);
    assert Conserved(after) by {
      forall u | u in after.users ensures Balanced(after, u) { assert Balanced(db, u); }
    }
    assert WithinPlans(after);
  }

  lemma CreateReservationKeeps(db: Db, id: Id, user: Id, bytes: nat, leaseUntil: Time)
    requires LedgerOk(db) && bytes > 0
    ensures LedgerOk(Applied(db, CreateReservation(db, id, user, bytes, leaseUntil)))
  {
    hide SumOver;
    var after := Applied(db, CreateReservation(db, id, user, bytes, leaseUntil));
    if CreateReservation(db, id, user, bytes, leaseUntil).Some? {
      ReservationWritten(db.reservations, id, Reservation(user, bytes, Pending, leaseUntil, None));
      assert Conserved(after) by {
        forall u | u in after.users ensures Balanced(after, u) { assert Balanced(db, u); }
      }
      assert WithinPlans(after);
    }
  }

  lemma RenewReservationKeeps(db: Db, id: Id, leaseUntil: Time)
    requires LedgerOk(db)
    ensures LedgerOk(Applied(db, RenewReservation(db, id, leaseUntil)))
  {
    hide SumOver;
    var after := Applied(db, RenewReservation(db, id, leaseUntil));
    if IsPending(db, id) {
      ReservationWritten(db.reservations, id, db.reservations[id].(leaseUntil := leaseUntil));
      assert Conserved(after) by {
        forall u | u in after.users ensures Balanced(after, u) { assert Balanced(db, u); }
      }
      assert WithinPlans(after);
    }
  }

  lemma ReleaseReservationKeeps(db: Db, id: Id, lapsedBefore: Option<Time>)
    requires LedgerOk(db)
    ensures LedgerOk(Applied(db, ReleaseReservation(db, id, lapsedBefore)))
  {
    hide SumOver;
    var after := Applied(db, ReleaseReservation(db, id, lapsedBefore));
    if ReleaseReservation(db, id, lapsedBefore).Some? {
      ReservationIsCounted(db, id);
      ReservationWritten(db.reservations, id, db.reservations[id].(state := Released));
      assert Conserved(after) by {
        forall u | u in after.users ensures Balanced(after, u) { assert Balanced(db, u); }
      }
      assert WithinPlans(after);
    }
  }

  lemma CommitOneShotKeeps(db: Db, id: Id, user: Id, fileId: Id, name: Name, size: nat)
    requires LedgerOk(db) && id in db.reservations && fileId !in db.files && size == db.reservations[id].bytes
    ensures LedgerOk(CommitOneShot(db, id, user, fileId, name, size))
  {
    hide SumOver;
    var after := CommitOneShot(db, id, user, fileId, name, size);
    if OneShotOutcome(db, id, user, size) == Published {
      ReservationWritten(db.reservations, id, db.reservations[id].(state := Committed, fileId := Some(fileId)));
      FileWritten(db.files, fileId, File(user, name, size, ActiveFile));
      assert Conserved(after) by {
        forall u | u in after.users ensures Balanced(after, u) { assert Balanced(db, u); }
      }
      assert WithinPlans(after);
    }
  }

  lemma CommitUndeclaredKeeps(db: Db, user: Id, fileId: Id, name: Name, size: nat)
    requires LedgerOk(db) && fileId !in db.files
    ensures LedgerOk(CommitUndeclared(db, user, fileId, name, size))
  {
    hide SumOver;
    var after := CommitUndeclared(db, user, fileId, name, size);
    FileWritten(db.files, fileId, File(user, name, size, ActiveFile));
    assert Conserved(after) by {
      forall u | u in after.users ensures Balanced(after, u) { assert Balanced(db, u); }
    }
    assert WithinPlans(after);
  }

  lemma SoftDeleteKeeps(db: Db, user: Id, id: Id, now: Time)
    requires LedgerOk(db)
    ensures LedgerOk(Applied(db, SoftDeleteFile(db, user, id, now)))
  {
    hide SumOver;
    var after := Applied(db, SoftDeleteFile(db, user, id, now));
    if SoftDeleteFile(db, user, id, now).Some? {
      FileIsCounted(db, id);
      var f, u := db.files[id], db.users[user];
      assert after.files == db.files[id := f.(status := DeletedFile)];
      assert after.users == db.users[user := u.(storageUsed := u.storageUsed - f.size)];
      assert after.sessions == db.sessions && after.reservations == db.reservations && after.plans == db.plans;
      RefundKeeps(db, after, user, id);
    }
  }

  lemma RefundKeeps(db: Db, after: Db, user: Id, id: Id)
    requires LedgerOk(db) && id in db.files && user in db.users && db.files[id].owner == user
      && db.files[id].status == ActiveFile
    requires db.users[user].reservedUploadBytes >= 0 && db.users[user].storageUsed >= db.files[id].size
    requires after.files == db.files[id := db.files[id].(status := DeletedFile)]
    requires after.users
      == db.users[user := db.users[user].(storageUsed := db.users[user].storageUsed - db.files[id].size)]
    requires after.sessions == db.sessions && after.reservations == db.reservations && after.plans == db.plans
    ensures LedgerOk(after)
  {
    hide SumOver;
    FileWritten(db.files, id, db.files[id].(status := DeletedFile));
    assert Conserved(after) by {
      forall u | u in after.users ensures Balanced(after, u) { assert Balanced(db, u); }
    }
    assert WithinPlans(after);
  }

  /** Why the handler compares the measured with the declared size before it commits. */
  lemma CommitNeedsDeclaredSize(db: Db, id: Id, user: Id, fileId: Id, name: Name, size: nat)
    requires LedgerOk(db) && fileId !in db.files && OneShotOutcome(db, id, user, size) == Published
    ensures LedgerOk(CommitOneShot(db, id, user, fileId, name, size)) <==> size == db.reservations[id].bytes
  {
    hide SumOver;
    var after := CommitOneShot(db, id, user, fileId, name, size);
    ReservationWritten(db.reservations, id, db.reservations[id].(state := Committed, fileId := Some(fileId)));
    assert Balanced(db, user);
    assert Balanced(after, user) ==> size == db.reservations[id].bytes;
    if size == db.reservations[id].bytes { CommitOneShotKeeps(db, id, user, fileId, name, size); }
  }
}
