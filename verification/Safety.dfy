/** What the upload service promises, over every step and every run. */
module Safety {
  import opened Wrappers
  import opened UploadParts
  import opened Tables
  import opened Machine
  import opened MapSums
  import opened Ledger
  import opened Invariants
  import opened OneShotSteps
  import opened SessionSteps
  import opened CompletionSteps
  import opened OutboxSteps
  import opened Preservation

  // ----- Accounting

  /** At every moment of every run: counters equal the rows that own the bytes, and the plan is respected. */
  lemma CountersAreExact(worlds: seq<World>, steps: seq<Step>, i: nat, u: Id)
    requires IsRun(worlds, steps) && i < |worlds| && u in worlds[i].db.users
    ensures var db := worlds[i].db;
      && db.users[u].reservedUploadBytes == SessionSum(db.sessions, u) + ReservationSum(db.reservations, u) >= 0
      && db.users[u].storageUsed == FileSum(db.files, u) >= 0
      && (if db.users[u].planId.None? then Usage(db, u) == 0 else FitsPlan(db, db.users[u].planId.value, Usage(db, u)))
  {
    ReachableOk(worlds, steps, i);
    assert Balanced(worlds[i].db, u);
    SumsNonnegative(worlds[i].db, u);
  }

  /** No GREATEST clamp ever changes a result: every release and refund subtracts bytes that are there. */
  lemma ClampsNeverFire(worlds: seq<World>, steps: seq<Step>, i: nat)
    requires IsRun(worlds, steps) && i < |worlds|
    ensures var db := worlds[i].db;
      && (forall id :: id in db.sessions && Open(db.sessions[id]) ==>
            db.sessions[id].owner in db.users
              && db.users[db.sessions[id].owner].reservedUploadBytes >= db.sessions[id].layout.size)
      && (forall id :: IsPending(db, id) ==>
            db.reservations[id].owner in db.users
              && db.users[db.reservations[id].owner].reservedUploadBytes >= db.reservations[id].bytes)
      && (forall id :: id in db.files && db.files[id].status == ActiveFile ==>
            db.files[id].owner in db.users && db.users[db.files[id].owner].storageUsed >= db.files[id].size)
  {
    ReachableOk(worlds, steps, i);
    var db := worlds[i].db;
    forall id | id in db.sessions ensures db.users[db.sessions[id].owner].reservedUploadBytes >= Held(db.sessions[id]) {
      SessionIsCounted(db, id);
    }
    forall id | id in db.reservations
      ensures db.users[db.reservations[id].owner].reservedUploadBytes >= Waiting(db.reservations[id]) {
      ReservationIsCounted(db, id);
    }
    forall id | id in db.files ensures db.users[db.files[id].owner].storageUsed >= Stored(db.files[id]) {
      FileIsCounted(db, id);
    }
  }

  /** The holder of the current token can publish if and only if the account is still ACTIVE. */
  lemma TokenHolderCommits(w: World, token: Id)
    requires Inv(w) && token in w.actors.completers
    requires HoldsToken(w.db.sessions, w.actors.completers[token].session, token)
    ensures var id := w.actors.completers[token].session;
      CompletionOutcome(w.db, w.db.sessions[id].owner, id, token)
        == if w.db.Active(w.db.sessions[id].owner) then Published else OwnerNotActive
  {
    var id := w.actors.completers[token].session;
    var s := w.db.sessions[id];
    assert SessionOk(id, s, w.db.files, w.actors.completers);
    SessionIsCounted(w.db, id);
    hide SessionsOk, PublishedOnce, PartsOk, FrozenOk, CompletersOk, StorageOk, AttemptsOk, NewestKnown, ReadsOk,
      CeilDiv;
    hide SumOver;
    assert Balanced(w.db, s.owner);
    PositiveUsageHasPlan(w.db, s.owner, s.layout.size);
  }

  lemma PositiveUsageHasPlan(db: Db, u: Id, bytes: nat)
    requires LedgerOk(db) && u in db.users && db.users[u].reservedUploadBytes >= bytes && db.users[u].storageUsed >= 0
    ensures bytes > 0 && db.Active(u) ==> CommitUploadReservation(db, u, bytes).Some?
  {
  }

  /** So can the owner of a PENDING reservation. */
  lemma PendingOwnerCommits(w: World, id: Id)
    requires Inv(w) && IsPending(w.db, id)
    ensures var r := w.db.reservations[id];
      OneShotOutcome(w.db, id, r.owner, r.bytes) == if w.db.Active(r.owner) then Published else OwnerNotActive
  {
    ReservationIsCounted(w.db, id);
    hide SumOver, SessionsOk, PublishedOnce, PartsOk, FrozenOk, CompletersOk, StorageOk, AttemptsOk, NewestKnown,
      ReadsOk;
  }

  /** Who may make an account's usage grow: its own session, reservation or undeclared upload. */
  predicate Admission(step: Step, user: Id) {
    || (step.OnSession? && step.s.Create? && step.s.user == user)
    || (step.OnOneShot? && step.o.Reserve? && step.o.user == user)
    || (step.OnOneShot? && step.o.CommitMeasured? && step.o.user == user)
  }

  /** Usage grows only by an admission of that account while it is ACTIVE; a commit moves bytes without growing it. */
  lemma UsageGrowsOnlyByAdmission(w: World, step: Step, u: Id)
    requires Inv(w) && Enabled(w, step) && u in w.db.users
    ensures u in Next(w, step).db.users
    ensures Usage(Next(w, step).db, u) > Usage(w.db, u) ==> w.db.Active(u) && Admission(step, u)
  {
    hide Inv, LedgerOk, ReadsOk, AccountNext, OneShotNext, SessionNext, CompletionNext, OutboxNext,
      AccountEnabled, OneShotEnabled, SessionEnabled, CompletionEnabled, OutboxEnabled, Admission;
    assert LedgerOk(w.db) && ReadsOk(w.clock, w.db.sessions, w.actors) by { LedgerPart(w); }
    match step
    case OnAccount(a) => AccountUsage(w, a, u);
    case OnOneShot(o) => OneShotUsage(w, o, u);
    case OnSession(s) => SessionUsage(w, s, u);
    case OnCompletion(c) => CompletionUsage(w, c, u);
    case OnOutbox(x) => OutboxUsage(w, x, u);
  }

  lemma LedgerPart(w: World)
    requires Inv(w)
    ensures LedgerOk(w.db) && ReadsOk(w.clock, w.db.sessions, w.actors)
  {
    hide LedgerOk, SessionsOk, PublishedOnce, PartsOk, FrozenOk, CompletersOk, StorageOk, AttemptsOk, NewestKnown,
      ReadsOk;
  }

  lemma AccountUsage(w: World, step: AccountStep, u: Id)
    requires AccountEnabled(w, step) && u in w.db.users
    ensures u in AccountNext(w, step).db.users && Usage(AccountNext(w, step).db, u) == Usage(w.db, u)
  {
    hide FitsPlan;
  }

  /** Taking bytes back never grows usage, given that they are there. */
  lemma ReleaseLowers(db: Db, user: Id, bytes: nat, u: Id)
    requires u in db.users && (user in db.users ==> db.users[user].reservedUploadBytes >= 0)
    ensures u in ReleaseUploadReservation(db, user, bytes).users
      && Usage(ReleaseUploadReservation(db, user, bytes), u) <= Usage(db, u)
  {
  }

  lemma OneShotUsage(w: World, step: OneShotStep, u: Id)
    requires LedgerOk(w.db) && OneShotEnabled(w, step) && u in w.db.users
    ensures u in OneShotNext(w, step).db.users
    ensures Usage(OneShotNext(w, step).db, u) > Usage(w.db, u) ==> w.db.Active(u) && Admission(OnOneShot(step), u)
  {
    hide LedgerOk, Usage, Admission, ReleaseReservation, CreateReservation, CommitOneShot, CommitUndeclared,
      RenewReservation,
      OneShotOutcome, UndeclaredOutcome;
    match step
    case Release(id) => ReservationReleaseUsage(w.db, id, None, u);
    case SweepRelease(actor, id) => ReservationReleaseUsage(w.db, id, Some(w.actors.sweeps[actor].cutoff), u);
    case Reserve(id, user, declared, leaseMs) => ReserveUsage(w.db, id, user, declared, w.clock + leaseMs, leaseMs, u);
    case Heartbeat(id, leaseMs) => RenewalUsage(w.db, id, w.clock + leaseMs, u);
    case CommitDeclared(id, user, file, name) => DeclaredUsage(w.db, id, user, file, name, |w.disk.objects[name]|, u);
    case CommitMeasured(user, file, name) => MeasuredUsage(w.db, user, file, name, |w.disk.objects[name]|, u);
    case _ =>
  }

  lemma ReserveUsage(db: Db, id: Id, user: Id, bytes: nat, leaseUntil: Time, leaseMs: nat, u: Id)
    requires u in db.users
    ensures var after := Applied(db, CreateReservation(db, id, user, bytes, leaseUntil));
      u in after.users
        && (Usage(after, u) > Usage(db, u) ==>
          db.Active(u) && Admission(OnOneShot(Reserve(id, user, bytes, leaseMs)), u))
  {
    hide FitsPlan;
  }

  lemma RenewalUsage(db: Db, id: Id, leaseUntil: Time, u: Id)
    requires u in db.users
    ensures Applied(db, RenewReservation(db, id, leaseUntil)).users == db.users
    ensures Usage(Applied(db, RenewReservation(db, id, leaseUntil)), u) == Usage(db, u)
  {
  }

  lemma DeclaredUsage(db: Db, id: Id, user: Id, file: Id, name: Name, size: nat, u: Id)
    requires u in db.users
    ensures var after := CommitOneShot(db, id, user, file, name, size);
      u in after.users && Usage(after, u) == Usage(db, u)
  {
    hide FitsPlan;
  }

  lemma MeasuredUsage(db: Db, user: Id, file: Id, name: Name, size: nat, u: Id)
    requires u in db.users
    ensures var after := CommitUndeclared(db, user, file, name, size);
      u in after.users
        && (Usage(after, u) > Usage(db, u) ==>
          db.Active(u) && Admission(OnOneShot(CommitMeasured(user, file, name)), u))
  {
    hide FitsPlan;
  }

  lemma ReservationReleaseUsage(db: Db, id: Id, lapsedBefore: Option<Time>, u: Id)
    requires LedgerOk(db) && u in db.users
    ensures var after := Applied(db, ReleaseReservation(db, id, lapsedBefore));
      u in after.users && Usage(after, u) <= Usage(db, u)
  {
    hide SumOver;
    if id in db.reservations {
      ReservationIsCounted(db, id);
      hide LedgerOk;
      ReleaseLowers(db.WithReservation(id, db.reservations[id].(state := Released)), db.reservations[id].owner,
        db.reservations[id].bytes, u);
    }
  }

  lemma SessionUsage(w: World, step: SessionStep, u: Id)
    requires LedgerOk(w.db) && ReadsOk(w.clock, w.db.sessions, w.actors) && SessionEnabled(w, step) && u in w.db.users
    ensures u in SessionNext(w, step).db.users
    ensures Usage(SessionNext(w, step).db, u) > Usage(w.db, u) ==> w.db.Active(u) && Admission(OnSession(step), u)
  {
    hide LedgerOk, Usage, Admission, CreateSession, ReleaseSession, RecoverStaleCompletion, PartAccepted,
      InsertPartIfOpen, DeletePartRow;
    match step
    case Create(id, user, expectedSize, configuredChunk, ttl) =>
      CreateUsage(w.db, id, user, PlanLayout(expectedSize, configuredChunk), w.clock + ttl, u);
      assert user == u ==> Admission(OnSession(step), u) by { CreateAdmits(step, u); }
    case ReleaseWrite(actor) => SessionReleaseUsage(w.db, w.actors.releases[actor], u);
    case RecoverWrite(actor) => RecoverUsage(w.db, w.actors.recoveries[actor], u);
    case _ => SameUsersSameUsage(w.db, SessionNext(w, step).db, u);
  }

  lemma CreateUsage(db: Db, id: Id, user: Id, layout: Layout, expiresAt: Time, u: Id)
    requires u in db.users
    ensures var after := Applied(db, CreateSession(db, id, user, layout, expiresAt));
      u in after.users && (Usage(after, u) > Usage(db, u) ==> db.Active(u) && user == u)
  {
    hide FitsPlan;
  }

  lemma CreateAdmits(step: SessionStep, u: Id)
    requires step.Create?
    ensures step.user == u ==> Admission(OnSession(step), u)
  {
  }

  lemma SameUsersSameUsage(db: Db, db': Db, u: Id)
    requires u in db.users && db'.users == db.users
    ensures Usage(db', u) == Usage(db, u)
  {
  }

  lemma SessionReleaseUsage(db: Db, r: PendingRelease, u: Id)
    requires LedgerOk(db) && u in db.users
    ensures var after := Applied(db, ReleaseSession(db, r.session, r.observed, r.target));
      u in after.users && Usage(after, u) <= Usage(db, u)
  {
    hide SumOver;
    if r.session in db.sessions {
      SessionIsCounted(db, r.session);
      var s := db.sessions[r.session];
      hide LedgerOk;
      ReleaseLowers(db.WithSession(r.session, s.(status := r.target, completionToken := None, leaseUntil := None)),
        s.owner, s.layout.size, u);
    }
  }

  lemma RecoverUsage(db: Db, r: StaleRead, u: Id)
    requires LedgerOk(db) && u in db.users && r.session in db.sessions && SameUpload(r.row, db.sessions[r.session])
    ensures var after := Applied(db, RecoverStaleCompletion(db, r.session, r.row, r.at));
      u in after.users && Usage(after, u) <= Usage(db, u)
  {
    hide SumOver;
    SessionIsCounted(db, r.session);
    var s := db.sessions[r.session];
    hide LedgerOk;
    ReleaseLowers(db.WithSession(r.session, s.(completionToken := None, leaseUntil := None, status := Expired)),
      s.owner, s.layout.size, u);
  }

  lemma CompletionUsage(w: World, step: CompletionStep, u: Id)
    requires CompletionEnabled(w, step) && u in w.db.users
    ensures u in CompletionNext(w, step).db.users && Usage(CompletionNext(w, step).db, u) == Usage(w.db, u)
  {
    hide FitsPlan, IsPartRead, CompleteParts;
  }

  /** A deletion refunds exactly the bytes of a file that was ACTIVE until then. */
  lemma DeleteRefunds(db: Db, user: Id, file: Id, now: Time)
    requires LedgerOk(db) && SoftDeleteFile(db, user, file, now).Some?
    ensures var after := SoftDeleteFile(db, user, file, now).value;
      && file in db.files && user in db.users && db.files[file].status == ActiveFile
        && after.files == db.files[file := db.files[file].(status := DeletedFile)]
      && after.users
        == db.users[user := db.users[user].(storageUsed := db.users[user].storageUsed - db.files[file].size)]
  {
    hide LedgerOk, SumOver;
    FileIsCounted(db, file);
  }

  lemma OutboxUsage(w: World, step: OutboxStep, u: Id)
    requires LedgerOk(w.db) && OutboxEnabled(w, step) && u in w.db.users
    ensures u in OutboxNext(w, step).db.users
    ensures Usage(OutboxNext(w, step).db, u) <= Usage(w.db, u)
  {
    hide LedgerOk, SoftDeleteFile;
    if step.SoftDelete? {
      if SoftDeleteFile(w.db, step.user, step.file, w.clock).Some? {
        DeleteRefunds(w.db, step.user, step.file, w.clock);
      }
    } else {
      OutboxAccounts(w, step);
      hide OutboxNext;
    }
  }

  lemma OutboxAccounts(w: World, step: OutboxStep)
    requires OutboxEnabled(w, step) && !step.SoftDelete?
    ensures OutboxNext(w, step).db.users == w.db.users
  {
    hide ClaimFileDeletion, SettleDone, SettleFailed, DeadLetterExhausted, RequeueDead, PruneFinished;
  }

  // ----- Sessions: one file, absorbing ends, fenced tokens

  predicate Terminal(s: Session) {
    s.status == Completed || s.status == Aborted || s.status == Expired
  }

  ghost predicate EndsKept(sessions: Sessions, sessions': Sessions) {
    forall id :: id in sessions && Terminal(sessions[id]) ==> id in sessions' && sessions'[id] == sessions[id]
  }

  lemma SessionStatementsKeepEnds(db: Db, id: Id, user: Id, layout: Layout, expiresAt: Time, target: SessionStatus)
    ensures EndsKept(db.sessions, Applied(db, CreateSession(db, id, user, layout, expiresAt)).sessions)
    ensures EndsKept(db.sessions, Applied(db, ReleaseSession(db, id, Uploading, target)).sessions)
  {
    hide Admits;
  }

  lemma RecoveryKeepsEnds(db: Db, id: Id, observed: Session, now: Time)
    ensures EndsKept(db.sessions, Applied(db, RecoverStaleCompletion(db, id, observed, now)).sessions)
  {
  }

  lemma ClaimKeepsEnds(db: Db, id: Id, token: Id, now: Time, leaseMs: nat)
    ensures EndsKept(db.sessions, Applied(db, ClaimCompletion(db, id, token, now, leaseMs)).sessions)
  {
  }

  lemma LeaseStatementsKeepEnds(db: Db, id: Id, token: Id, now: Time, leaseMs: nat)
    ensures EndsKept(db.sessions, Applied(db, RenewCompletionLease(db, id, token, now, leaseMs)).sessions)
    ensures EndsKept(db.sessions, Applied(db, RelinquishCompletion(db, id, token)).sessions)
  {
  }

  lemma CommitKeepsEnds(db: Db, user: Id, id: Id, token: Id, file: Id, name: Name, size: nat)
    ensures EndsKept(db.sessions, CommitCompletion(db, user, id, token, file, name, size).sessions)
  {
    hide Admits;
  }

  lemma SessionKeepsEnds(w: World, step: SessionStep)
    requires SessionEnabled(w, step) && ReadsOk(w.clock, w.db.sessions, w.actors)
    ensures EndsKept(w.db.sessions, SessionNext(w, step).db.sessions)
  {
    assert EndsKept(w.db.sessions, w.db.sessions);
    hide EndsKept, CreateSession, InsertPartIfOpen, DeletePartRow, ReleaseSession, RecoverStaleCompletion, PartAccepted;
    match step
    case Create(id, user, expectedSize, configuredChunk, ttl) =>
      SessionStatementsKeepEnds(w.db, id, user, PlanLayout(expectedSize, configuredChunk), w.clock + ttl, Expired);
    case ReleaseWrite(actor) =>
      var r := w.actors.releases[actor];
      SessionStatementsKeepEnds(w.db, r.session, 0, Layout(0, 0, 0), 0, r.target);
    case RecoverWrite(actor) =>
      var r := w.actors.recoveries[actor];
      RecoveryKeepsEnds(w.db, r.session, r.row, r.at);
    case _ =>
  }

  lemma CompletionKeepsEnds(w: World, step: CompletionStep)
    requires CompletionEnabled(w, step)
    ensures EndsKept(w.db.sessions, CompletionNext(w, step).db.sessions)
  {
    assert EndsKept(w.db.sessions, w.db.sessions);
    hide EndsKept, ClaimCompletion, RenewCompletionLease, RelinquishCompletion, DeletePartRow, CommitCompletion,
      CompletionOutcome, IsPartRead, CompleteParts, Readable;
    match step
    case Claim(token, id, leaseMs) => ClaimKeepsEnds(w.db, id, token, w.clock, leaseMs);
    case Renew(token, leaseMs) =>
      LeaseStatementsKeepEnds(w.db, w.actors.completers[token].session, token, w.clock, leaseMs);
    case GiveBack(token, _) => LeaseStatementsKeepEnds(w.db, w.actors.completers[token].session, token, w.clock, 0);
    case Commit(token, file) =>
      var c := w.actors.completers[token];
      CommitKeepsEnds(w.db, w.db.sessions[c.session].owner, c.session, token, file, c.phase.name, |c.phase.bytes|);
    case _ =>
  }

  /** A statement makes no token current, unless it is the claim of that very token. */
  ghost predicate TokensFade(sessions: Sessions, sessions': Sessions, completers: Completers) {
    forall id, t :: t in completers && HoldsToken(sessions', id, t) ==> HoldsToken(sessions, id, t)
  }

  lemma LeaseStatementsFade(db: Db, id: Id, token: Id, now: Time, leaseMs: nat, completers: Completers)
    ensures token !in completers ==>
      TokensFade(db.sessions, Applied(db, ClaimCompletion(db, id, token, now, leaseMs)).sessions, completers)
    ensures TokensFade(db.sessions, Applied(db, RenewCompletionLease(db, id, token, now, leaseMs)).sessions, completers)
    ensures TokensFade(db.sessions, Applied(db, RelinquishCompletion(db, id, token)).sessions, completers)
  {
  }

  lemma CommitFades(db: Db, user: Id, id: Id, token: Id, file: Id, name: Name, size: nat, completers: Completers)
    ensures TokensFade(db.sessions, CommitCompletion(db, user, id, token, file, name, size).sessions, completers)
  {
    hide Admits;
  }

  lemma CompletionFades(w: World, step: CompletionStep)
    requires CompletionEnabled(w, step)
    ensures TokensFade(w.db.sessions, CompletionNext(w, step).db.sessions, w.actors.completers)
  {
    assert TokensFade(w.db.sessions, w.db.sessions, w.actors.completers);
    hide TokensFade, ClaimCompletion, RenewCompletionLease, RelinquishCompletion, DeletePartRow, CommitCompletion,
      CompletionOutcome, IsPartRead, CompleteParts, Readable;
    match step
    case Claim(token, id, leaseMs) => LeaseStatementsFade(w.db, id, token, w.clock, leaseMs, w.actors.completers);
    case Renew(token, leaseMs) =>
      LeaseStatementsFade(w.db, w.actors.completers[token].session, token, w.clock, leaseMs, w.actors.completers);
    case GiveBack(token, _) =>
      LeaseStatementsFade(w.db, w.actors.completers[token].session, token, w.clock, 0, w.actors.completers);
    case Commit(token, file) =>
      var c := w.actors.completers[token];
      CommitFades(w.db, w.db.sessions[c.session].owner, c.session, token, file, c.phase.name, |c.phase.bytes|,
        w.actors.completers);
    case _ =>
  }

  /** What every step of every actor does to the session table. */
  ghost predicate SessionsFollow(w: World, after: World) {
    EndsKept(w.db.sessions, after.db.sessions) && TokensFade(w.db.sessions, after.db.sessions, w.actors.completers)
  }

  lemma SessionsStay(w: World)
    ensures EndsKept(w.db.sessions, w.db.sessions) && TokensFade(w.db.sessions, w.db.sessions, w.actors.completers)
  {
  }

  lemma SessionFades(w: World, step: SessionStep)
    requires Inv(w) && SessionEnabled(w, step)
    ensures TokensFade(w.db.sessions, SessionNext(w, step).db.sessions, w.actors.completers)
  {
    hide Inv, SessionNext, SessionEnabled, SessionsOk;
    SessionMoves(w, step);
  }

  lemma StepFollows(w: World, step: Step)
    requires Inv(w) && Enabled(w, step)
    ensures SessionsFollow(w, Next(w, step))
  {
    hide Inv, EndsKept, TokensFade, ReadsOk, LedgerOk, AccountNext, OneShotNext, SessionNext, CompletionNext,
      OutboxNext,
      AccountEnabled, OneShotEnabled, SessionEnabled, CompletionEnabled, OutboxEnabled;
    SessionsStay(w);
    match step
    case OnAccount(a) => AccountFrame(w, a);
    case OnOneShot(o) => OneShotFrame(w, o);
    case OnSession(s) => LedgerPart(w); SessionKeepsEnds(w, s); SessionFades(w, s);
    case OnCompletion(c) => CompletionKeepsEnds(w, c); CompletionFades(w, c);
    case OnOutbox(x) => OutboxRows(w, x);
  }

  lemma OutboxRows(w: World, step: OutboxStep)
    requires OutboxEnabled(w, step)
    ensures OutboxNext(w, step).db.sessions == w.db.sessions
      && OutboxNext(w, step).actors.completers == w.actors.completers
  {
    if !step.SoftDelete? {
      hide OutboxNext;
      OutboxFrame(w, step);
    }
  }

  /** COMPLETED, ABORTED and EXPIRED are absorbing: the row, its file included, never changes again. */
  lemma {:induction false} TerminalIsAbsorbing(worlds: seq<World>, steps: seq<Step>, i: nat, j: nat, id: Id)
    requires IsRun(worlds, steps) && i <= j < |worlds|
    requires id in worlds[i].db.sessions && Terminal(worlds[i].db.sessions[id])
    ensures id in worlds[j].db.sessions && worlds[j].db.sessions[id] == worlds[i].db.sessions[id]
  {
    hide Inv, Next, Enabled, Init;
    if i < j {
      TerminalIsAbsorbing(worlds, steps, i, j - 1, id);
      ReachableOk(worlds, steps, j - 1);
      StepFollows(worlds[j - 1], steps[j - 1]);
    }
  }

  /** A token that lost its session never gets it back, so it can neither commit nor hand the session back. */
  lemma {:induction false} LostTokenStaysLost(worlds: seq<World>, steps: seq<Step>, i: nat, j: nat, t: Id)
    requires IsRun(worlds, steps) && i <= j < |worlds| && t in worlds[i].actors.completers
    requires !HoldsToken(worlds[i].db.sessions, worlds[i].actors.completers[t].session, t)
    ensures t in worlds[j].actors.completers
      && worlds[j].actors.completers[t].session == worlds[i].actors.completers[t].session
    ensures !HoldsToken(worlds[j].db.sessions, worlds[j].actors.completers[t].session, t)
  {
    hide Inv, Next, Enabled, Init, HoldsToken;
    if i < j {
      LostTokenStaysLost(worlds, steps, i, j - 1, t);
      ReachableOk(worlds, steps, j - 1);
      CompleterPersists(worlds[j - 1], steps[j - 1], t);
      StepFollows(worlds[j - 1], steps[j - 1]);
    }
  }

  lemma CompleterPersists(w: World, step: Step, t: Id)
    requires Inv(w) && Enabled(w, step) && t in w.actors.completers
    ensures w.actors.completers[t].session in w.db.sessions
    ensures t in Next(w, step).actors.completers
      && Next(w, step).actors.completers[t].session == w.actors.completers[t].session
  {
    CompleterInSession(w, t);
    hide Inv, PhaseOk, AccountNext, OneShotNext, SessionNext, CompletionNext, OutboxNext, AccountEnabled,
      OneShotEnabled, SessionEnabled, CompletionEnabled, OutboxEnabled;
    match step
    case OnAccount(a) => AccountFrame(w, a);
    case OnOneShot(o) => OneShotFrame(w, o);
    case OnSession(s) => SessionFrame(w, s);
    case OnCompletion(c) => CompletionKeepsCompleters(w, c, t);
    case OnOutbox(x) => OutboxRows(w, x);
  }

  /** Completers are never forgotten, and none changes its session. */
  predicate SameSessions(completers: Completers, completers': Completers) {
    forall t :: t in completers ==> t in completers' && completers'[t].session == completers[t].session
  }

  lemma PhaseKeepsSession(w: World, token: Id, phase: Phase)
    requires token in w.actors.completers
    ensures SameSessions(w.actors.completers, w.WithPhase(token, phase).actors.completers)
  {
  }

  lemma ClaimKeepsSessions(w: World, token: Id, id: Id, leaseMs: nat)
    requires token !in w.actors.completers
    ensures SameSessions(w.actors.completers, ClaimNext(w, token, id, leaseMs).actors.completers)
  {
    hide ClaimCompletion;
  }

  lemma CommitKeepsSessions(w: World, token: Id, file: Id)
    requires CompletionEnabled(w, Commit(token, file))
    ensures SameSessions(w.actors.completers, CommitNext(w, token, file).actors.completers)
  {
    hide CommitCompletion, CompletionOutcome, SameSessions;
    var c := w.actors.completers[token];
    PhaseKeepsSession(w, token, PublishedAs(file, c.phase.parts, c.phase.bytes));
    PhaseKeepsSession(w, token, Stopped);
    PhaseKeepsSession(w, token, GivingBack(None));
  }

  lemma FinishKeepsSessions(w: World, token: Id, checksumMatches: bool)
    requires CompletionEnabled(w, FinishAssembly(token, checksumMatches))
    ensures SameSessions(w.actors.completers, FinishNext(w, token, checksumMatches).actors.completers)
  {
    hide SameSessions;
    var c := w.actors.completers[token];
    PhaseKeepsSession(w, token, ReadyToCommit(c.phase.parts, c.phase.name, c.phase.bytes));
    PhaseKeepsSession(w, token, GivingBack(None));
  }

  lemma CompletionKeepsCompleters(w: World, step: CompletionStep, t: Id)
    requires CompletionEnabled(w, step) && t in w.actors.completers
    ensures t in CompletionNext(w, step).actors.completers
    ensures CompletionNext(w, step).actors.completers[t].session == w.actors.completers[t].session
  {
    hide ClaimNext, CommitNext, FinishNext, RenewCompletionLease, RelinquishCompletion, DeletePartRow, CompleteParts,
      Readable, IsPartRead;
    match step
    case Claim(token, id, leaseMs) => ClaimKeepsSessions(w, token, id, leaseMs);
    case Commit(token, file) => CommitKeepsSessions(w, token, file);
    case FinishAssembly(token, checksumMatches) => FinishKeepsSessions(w, token, checksumMatches);
    case _ =>
  }

  lemma CompleterInSession(w: World, t: Id)
    requires Inv(w) && t in w.actors.completers
    ensures w.actors.completers[t].session in w.db.sessions
    ensures PhaseOk(w.db.sessions[w.actors.completers[t].session].layout, w.disk.chunks, w.actors.completers[t].phase)
  {
    hide LedgerOk, SessionsOk, PublishedOnce, PartsOk, FrozenOk, StorageOk, AttemptsOk, NewestKnown, ReadsOk, PhaseOk;
  }

  /** Whoever holds the session at a later moment has held it at every moment since its claim. */
  lemma HeldWithoutInterruption(worlds: seq<World>, steps: seq<Step>, i: nat, k: nat, j: nat, t: Id)
    requires IsRun(worlds, steps) && i <= k <= j < |worlds| && t in worlds[i].actors.completers
    requires HoldsToken(worlds[j].db.sessions, worlds[i].actors.completers[t].session, t)
    ensures t in worlds[k].actors.completers
      && HoldsToken(worlds[k].db.sessions, worlds[i].actors.completers[t].session, t)
  {
    hide HoldsToken, IsRun;
    CompleterStays(worlds, steps, i, k, t);
    if !HoldsToken(worlds[k].db.sessions, worlds[k].actors.completers[t].session, t) {
      LostTokenStaysLost(worlds, steps, k, j, t);
    }
  }

  lemma {:induction false} CompleterStays(worlds: seq<World>, steps: seq<Step>, i: nat, j: nat, t: Id)
    requires IsRun(worlds, steps) && i <= j < |worlds| && t in worlds[i].actors.completers
    ensures t in worlds[j].actors.completers
      && worlds[j].actors.completers[t].session == worlds[i].actors.completers[t].session
  {
    hide Inv, Next, Enabled, Init;
    if i < j {
      CompleterStays(worlds, steps, i, j - 1, t);
      ReachableOk(worlds, steps, j - 1);
      CompleterPersists(worlds[j - 1], steps[j - 1], t);
    }
  }

  /** At most one completion of a session ever publishes, and its file is the one the COMPLETED session names. */
  lemma AtMostOneFile(worlds: seq<World>, steps: seq<Step>, i: nat, t1: Id, t2: Id)
    requires IsRun(worlds, steps) && i < |worlds| && Rival(worlds[i].actors.completers, t1, t2)
    ensures t1 == t2
    ensures var c := worlds[i].actors.completers[t1];
      && c.session in worlds[i].db.sessions && worlds[i].db.sessions[c.session].status == Completed
      && worlds[i].db.sessions[c.session].fileId == Some(c.phase.file)
  {
    ReachableOk(worlds, steps, i);
    hide LedgerOk, PartsOk, FrozenOk, CompletersOk, StorageOk, AttemptsOk, NewestKnown, ReadsOk;
    var c := worlds[i].actors.completers[t1];
    assert SessionOk(c.session, worlds[i].db.sessions[c.session], worlds[i].db.files, worlds[i].actors.completers);
  }

  /** `fileId` is set exactly in COMPLETED, and a token and a lease exactly in COMPLETING. */
  lemma SessionShape(worlds: seq<World>, steps: seq<Step>, i: nat, id: Id)
    requires IsRun(worlds, steps) && i < |worlds| && id in worlds[i].db.sessions
    ensures var s := worlds[i].db.sessions[id];
      && (s.fileId.Some? <==> s.status == Completed)
      && (s.completionToken.Some? <==> s.status == Completing) && (s.leaseUntil.Some? <==> s.status == Completing)
      && (s.fileId.Some? ==>
        s.fileId.value in worlds[i].db.files && worlds[i].db.files[s.fileId.value].size == s.layout.size)
  {
    ReachableOk(worlds, steps, i);
    hide LedgerOk, PublishedOnce, PartsOk, FrozenOk, CompletersOk, StorageOk, AttemptsOk, NewestKnown, ReadsOk, CeilDiv;
    var s := worlds[i].db.sessions[id];
    assert SessionOk(id, s, worlds[i].db.files, worlds[i].actors.completers);
  }

  // ----- Leases

  /** The holder ends its own completion: it hands the session back, or its commit publishes. */
  predicate EndsItself(w: World, step: CompletionStep, id: Id, t: Id)
    requires id in w.db.sessions
  {
    || step == GiveBack(t, true)
    || (step.Commit? && step.token == t && CompletionOutcome(w.db, w.db.sessions[id].owner, id, t) == Published)
  }

  /** An unexpired completion lease: only the holder's own commit or relinquish ends it. */
  lemma LiveCompletionIsItsHolders(w: World, step: Step, id: Id, t: Id)
    requires Inv(w) && Enabled(w, step) && HoldsToken(w.db.sessions, id, t)
    requires w.db.sessions[id].leaseUntil.Some? && w.db.sessions[id].leaseUntil.value >= w.clock
    ensures HoldsToken(Next(w, step).db.sessions, id, t) || (step.OnCompletion? && EndsItself(w, step.c, id, t))
  {
    hide Inv, ReadsOk, LedgerOk, HoldsToken, EndsItself, AccountNext, OneShotNext, SessionNext, CompletionNext,
      OutboxNext,
      AccountEnabled, OneShotEnabled, SessionEnabled, CompletionEnabled, OutboxEnabled;
    match step
    case OnAccount(a) => AccountFrame(w, a);
    case OnOneShot(o) => OneShotFrame(w, o);
    case OnSession(s) => LedgerPart(w); SessionSparesLive(w, s, id, t);
    case OnCompletion(c) => HolderKnown(w, id, t); CompletionSparesOthers(w, c, id, t);
    case OnOutbox(x) => OutboxRows(w, x);
  }

  lemma SessionSparesLive(w: World, step: SessionStep, id: Id, t: Id)
    requires ReadsOk(w.clock, w.db.sessions, w.actors) && SessionEnabled(w, step) && HoldsToken(w.db.sessions, id, t)
    requires w.db.sessions[id].leaseUntil.Some? && w.db.sessions[id].leaseUntil.value >= w.clock
    ensures HoldsToken(SessionNext(w, step).db.sessions, id, t)
  {
    match step
    case Create(_, _, _, _, _) => hide Admits, ReadsOk, PlanLayout;
    case ReleaseWrite(actor) =>
    case RecoverWrite(actor) =>
    case _ =>
      hide CreateSession, ReleaseSession, RecoverStaleCompletion, PartAccepted, InsertPartIfOpen, DeletePartRow,
        ReadsOk;
  }

  lemma HolderKnown(w: World, id: Id, t: Id)
    requires Inv(w) && HoldsToken(w.db.sessions, id, t)
    ensures t in w.actors.completers && w.actors.completers[t].session == id
  {
    hide LedgerOk, PublishedOnce, PartsOk, FrozenOk, CompletersOk, StorageOk, AttemptsOk, NewestKnown, ReadsOk, CeilDiv;
    assert SessionOk(id, w.db.sessions[id], w.db.files, w.actors.completers);
  }

  lemma CompletionSparesOthers(w: World, step: CompletionStep, id: Id, t: Id)
    requires CompletionEnabled(w, step) && HoldsToken(w.db.sessions, id, t)
    requires t in w.actors.completers && w.actors.completers[t].session == id
    ensures HoldsToken(CompletionNext(w, step).db.sessions, id, t) || EndsItself(w, step, id, t)
  {
    match step
    case Commit(token, file) => hide Admits;
    case _ => hide CommitCompletion, CompletionOutcome, IsPartRead, CompleteParts, Readable;
  }

  /** An unexpired reservation leaves PENDING only by its own handler's commit or cleanup, never by the sweeper. */
  lemma LiveReservationIsItsHandlers(w: World, step: Step, id: Id)
    requires Inv(w) && Enabled(w, step) && IsPending(w.db, id) && w.db.reservations[id].leaseUntil >= w.clock
    ensures IsPending(Next(w, step).db, id)
         || step == OnOneShot(Release(id))
         || (step.OnOneShot? && step.o.CommitDeclared? && step.o.id == id)
  {
    hide Inv, ReadsOk, LedgerOk, AccountNext, OneShotNext, SessionNext, CompletionNext, OutboxNext,
      AccountEnabled, OneShotEnabled, SessionEnabled, CompletionEnabled, OutboxEnabled;
    match step
    case OnAccount(a) => AccountFrame(w, a);
    case OnOneShot(o) => LedgerPart(w); OneShotSparesLive(w, o, id);
    case OnSession(s) => SessionReservations(w, s);
    case OnCompletion(c) => CompletionReservations(w, c);
    case OnOutbox(x) => OutboxReservations(w, x);
  }

  lemma OneShotSparesLive(w: World, step: OneShotStep, id: Id)
    requires ReadsOk(w.clock, w.db.sessions, w.actors) && OneShotEnabled(w, step)
    requires IsPending(w.db, id) && w.db.reservations[id].leaseUntil >= w.clock
    ensures IsPending(OneShotNext(w, step).db, id) || step == Release(id) || (step.CommitDeclared? && step.id == id)
  {
    hide Admits;
    match step
    case SweepRelease(actor, _) =>
    case CommitDeclared(_, _, _, _) => hide ReadsOk;
    case _ => hide ReadsOk, CommitOneShot, OneShotOutcome;
  }

  lemma SessionReservations(w: World, step: SessionStep)
    requires SessionEnabled(w, step)
    ensures SessionNext(w, step).db.reservations == w.db.reservations
  {
    hide CreateSession, InsertPartIfOpen, DeletePartRow, ReleaseSession, RecoverStaleCompletion;
  }

  lemma CompletionReservations(w: World, step: CompletionStep)
    requires CompletionEnabled(w, step)
    ensures CompletionNext(w, step).db.reservations == w.db.reservations
  {
    hide ClaimCompletion, RenewCompletionLease, RelinquishCompletion, DeletePartRow, IsPartRead, CompleteParts,
      Readable, FitsPlan;
  }

  lemma OutboxReservations(w: World, step: OutboxStep)
    requires OutboxEnabled(w, step)
    ensures OutboxNext(w, step).db.reservations == w.db.reservations
  {
    hide ClaimFileDeletion, SettleDone, SettleFailed, DeadLetterExhausted, RequeueDead, PruneFinished;
  }

  // ----- Each owner's bytes leave `reserved` once

  /** COMMITTED and RELEASED rows never change again. */
  predicate ReservationEndsKept(rows: map<Id, Reservation>, rows': map<Id, Reservation>) {
    forall id :: id in rows && rows[id].state != Pending ==> id in rows' && rows'[id] == rows[id]
  }

  lemma ReservationStatementsKeepEnds(db: Db, id: Id, user: Id, bytes: nat, until: Time, cutoff: Option<Time>)
    ensures ReservationEndsKept(db.reservations,
      Applied(db, CreateReservation(db, id, user, bytes, until)).reservations)
    ensures ReservationEndsKept(db.reservations, Applied(db, RenewReservation(db, id, until)).reservations)
    ensures ReservationEndsKept(db.reservations, Applied(db, ReleaseReservation(db, id, cutoff)).reservations)
  {
    hide FitsPlan;
  }

  lemma OneShotCommitsKeepEnds(db: Db, id: Id, user: Id, file: Id, name: Name, size: nat)
    ensures ReservationEndsKept(db.reservations, CommitOneShot(db, id, user, file, name, size).reservations)
    ensures ReservationEndsKept(db.reservations, CommitUndeclared(db, user, file, name, size).reservations)
  {
    hide FitsPlan;
  }

  lemma OneShotKeepsReservationEnds(w: World, step: OneShotStep)
    requires OneShotEnabled(w, step)
    ensures ReservationEndsKept(w.db.reservations, OneShotNext(w, step).db.reservations)
  {
    hide ReservationEndsKept, CreateReservation, RenewReservation, ReleaseReservation, CommitOneShot, CommitUndeclared,
      OneShotOutcome, UndeclaredOutcome;
    SameReservationsKept(w.db.reservations);
    match step
    case Reserve(id, user, declared, leaseMs) =>
      ReservationStatementsKeepEnds(w.db, id, user, declared, w.clock + leaseMs, None);
    case Heartbeat(id, leaseMs) => ReservationStatementsKeepEnds(w.db, id, 0, 0, w.clock + leaseMs, None);
    case Release(id) => ReservationStatementsKeepEnds(w.db, id, 0, 0, 0, None);
    case SweepRelease(actor, id) =>
      ReservationStatementsKeepEnds(w.db, id, 0, 0, 0, Some(w.actors.sweeps[actor].cutoff));
    case CommitDeclared(id, user, file, name) =>
      OneShotCommitsKeepEnds(w.db, id, user, file, name, |w.disk.objects[name]|);
    case CommitMeasured(user, file, name) =>
      OneShotCommitsKeepEnds(w.db, 0, user, file, name, |w.disk.objects[name]|);
    case _ =>
  }

  lemma StepKeepsReservationEnds(w: World, step: Step)
    requires Enabled(w, step)
    ensures ReservationEndsKept(w.db.reservations, Next(w, step).db.reservations)
  {
    hide ReservationEndsKept, AccountNext, OneShotNext, SessionNext, CompletionNext, OutboxNext,
      AccountEnabled, OneShotEnabled, SessionEnabled, CompletionEnabled, OutboxEnabled;
    SameReservationsKept(w.db.reservations);
    match step
    case OnAccount(a) => AccountFrame(w, a);
    case OnOneShot(o) => OneShotKeepsReservationEnds(w, o);
    case OnSession(s) => SessionReservations(w, s);
    case OnCompletion(c) => CompletionReservations(w, c);
    case OnOutbox(x) => OutboxReservations(w, x);
  }

  lemma SameReservationsKept(rows: map<Id, Reservation>)
    ensures ReservationEndsKept(rows, rows)
  {
  }

  /** COMMITTED and RELEASED are absorbing for reservations, over every run. */
  lemma {:induction false} ReservationEndIsFinal(worlds: seq<World>, steps: seq<Step>, i: nat, j: nat, id: Id)
    requires IsRun(worlds, steps) && i <= j < |worlds|
    requires id in worlds[i].db.reservations && worlds[i].db.reservations[id].state != Pending
    ensures id in worlds[j].db.reservations && worlds[j].db.reservations[id] == worlds[i].db.reservations[id]
  {
    hide Next, Enabled, Init;
    if i < j {
      ReservationEndIsFinal(worlds, steps, i, j - 1, id);
      StepKeepsReservationEnds(worlds[j - 1], steps[j - 1]);
    }
  }

  predicate IsOpen(db: Db, id: Id) {
    id in db.sessions && Open(db.sessions[id])
  }

  /** The step takes the reservation out of PENDING: its bytes leave `reserved`. */
  ghost predicate EndsReservation(w: World, step: Step, id: Id)
    requires Enabled(w, step)
  {
    IsPending(w.db, id) && !IsPending(Next(w, step).db, id)
  }

  /** The step takes the session out of UPLOADING and COMPLETING. */
  ghost predicate EndsSession(w: World, step: Step, id: Id)
    requires Enabled(w, step)
  {
    IsOpen(w.db, id) && !IsOpen(Next(w, step).db, id)
  }

  /** Rows of sessions and reservations are never removed. */
  lemma RowsNeverVanish(w: World, step: Step)
    requires Enabled(w, step)
    ensures w.db.sessions.Keys <= Next(w, step).db.sessions.Keys
    ensures w.db.reservations.Keys <= Next(w, step).db.reservations.Keys
  {
    hide AccountNext, OneShotNext, SessionNext, CompletionNext, OutboxNext,
      AccountEnabled, OneShotEnabled, SessionEnabled, CompletionEnabled, OutboxEnabled;
    match step
    case OnAccount(a) => AccountFrame(w, a);
    case OnOneShot(o) => OneShotFrame(w, o); OneShotKeepsRows(w, o);
    case OnSession(s) => SessionReservations(w, s); SessionKeepsRows(w, s);
    case OnCompletion(c) => CompletionReservations(w, c); CompletionUploads(w, c);
    case OnOutbox(x) => OutboxReservations(w, x); OutboxRows(w, x);
  }

  lemma OneShotKeepsRows(w: World, step: OneShotStep)
    requires OneShotEnabled(w, step)
    ensures w.db.reservations.Keys <= OneShotNext(w, step).db.reservations.Keys
  {
    hide FitsPlan;
  }

  lemma SessionKeepsRows(w: World, step: SessionStep)
    requires SessionEnabled(w, step)
    ensures w.db.sessions.Keys <= SessionNext(w, step).db.sessions.Keys
  {
    hide FitsPlan, PartAccepted, InsertPartIfOpen, DeletePartRow, IsStale;
  }

  /** A reservation's bytes leave `reserved` in one step only. */
  lemma ReservationEndsOnce(worlds: seq<World>, steps: seq<Step>, i: nat, j: nat, id: Id)
    requires IsRun(worlds, steps) && i <= j < |steps|
    requires EndsReservation(worlds[i], steps[i], id) && EndsReservation(worlds[j], steps[j], id)
    ensures i == j
  {
    hide Next, Enabled, Init;
    if i < j {
      assert worlds[i + 1] == Next(worlds[i], steps[i]);
      RowsNeverVanish(worlds[i], steps[i]);
      ReservationEndIsFinal(worlds, steps, i + 1, j, id);
    }
  }

  /** And so do a session's. */
  lemma SessionEndsOnce(worlds: seq<World>, steps: seq<Step>, i: nat, j: nat, id: Id)
    requires IsRun(worlds, steps) && i <= j < |steps|
    requires EndsSession(worlds[i], steps[i], id) && EndsSession(worlds[j], steps[j], id)
    ensures i == j
  {
    hide Next, Enabled, Init;
    if i < j {
      assert worlds[i + 1] == Next(worlds[i], steps[i]);
      RowsNeverVanish(worlds[i], steps[i]);
      TerminalIsAbsorbing(worlds, steps, i + 1, j, id);
    }
  }

  /** The step is a commit that publishes the session. */
  predicate Publication(w: World, step: Step, id: Id) {
    && step.OnCompletion? && step.c.Commit? && InPhase(w, step.c.token, step.c)
    && w.actors.completers[step.c.token].session == id && id in w.db.sessions
    && CompletionOutcome(w.db, w.db.sessions[id].owner, id, step.c.token) == Published
  }

  lemma PublicationEnds(w: World, step: Step, id: Id)
    requires Enabled(w, step) && Publication(w, step, id)
    ensures EndsSession(w, step, id)
  {
    hide FitsPlan;
  }

  /** Two commits of one run that both publish the same session are the same step. */
  lemma PublishedByOneStep(worlds: seq<World>, steps: seq<Step>, i: nat, j: nat, id: Id)
    requires IsRun(worlds, steps) && i <= j < |steps|
    requires Publication(worlds[i], steps[i], id) && Publication(worlds[j], steps[j], id)
    ensures i == j
  {
    hide Next, Enabled, Init, Publication, EndsSession;
    assert Enabled(worlds[i], steps[i]) && Enabled(worlds[j], steps[j]);
    PublicationEnds(worlds[i], steps[i], id);
    PublicationEnds(worlds[j], steps[j], id);
    SessionEndsOnce(worlds, steps, i, j, id);
  }
}
