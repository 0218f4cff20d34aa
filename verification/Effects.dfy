/**
 What each write does, in terms of what can be observed afterwards: who is admitted, how long a lease keeps
 others away, which rows appear, when a session ends and why.
 */
module Effects {
  import opened Wrappers
  import opened UploadParts
  import opened Tables
  import opened Machine
  import opened Ledger
  import opened Invariants
  import opened OneShotSteps
  import opened SessionSteps
  import opened CompletionSteps
  import opened OutboxSteps
  import opened Safety
  import opened Integrity

  // ----- Admission

  /** The account is ACTIVE, has a plan, and would still be within it, possibly to the last byte. */
  predicate HasRoom(db: Db, user: Id, bytes: nat) {
    && user in db.users && db.users[user].status == ActiveUser
    && db.users[user].planId.Some? && db.users[user].planId.value in db.plans
    && Usage(db, user) + bytes <= db.plans[db.users[user].planId.value].storageLimit
  }

  /** Only this account's row differs. */
  predicate OnlyUser(before: Db, after: Db, user: Id) {
    && after == before.(users := after.users) && after.users.Keys == before.users.Keys
    && forall u :: u in before.users && u != user ==> after.users[u] == before.users[u]
  }

  /** Both reservations admit exactly where there is room, and each raises its own counter by exactly the bytes. */
  lemma AdmissionIsExact(db: Db, user: Id, bytes: nat)
    ensures ReserveUploadQuota(db, user, bytes).Some? <==> HasRoom(db, user, bytes)
    ensures ReservePendingUploadQuota(db, user, bytes).Some? <==> HasRoom(db, user, bytes)
    ensures HasRoom(db, user, bytes) ==>
              var u, used := db.users[user], ReserveUploadQuota(db, user, bytes).value;
              && OnlyUser(db, used, user)
              && used.users[user] == u.(storageUsed := u.storageUsed + bytes)
    ensures HasRoom(db, user, bytes) ==>
              var u, pending := db.users[user], ReservePendingUploadQuota(db, user, bytes).value;
              && OnlyUser(db, pending, user)
              && pending.users[user] == u.(reservedUploadBytes := u.reservedUploadBytes + bytes)
  {
  }

  /**
   Creating a session reserves the whole requested size, and records it with the chunk, the deadline and the owner.
   */
  lemma CreationIsExact(w: World, id: Id, user: Id, expectedSize: nat, configuredChunk: nat, ttl: nat)
    requires SessionEnabled(w, Create(id, user, expectedSize, configuredChunk, ttl))
    ensures var after := SessionNext(w, Create(id, user, expectedSize, configuredChunk, ttl));
      if id in w.db.sessions || !HasRoom(w.db, user, expectedSize) then after == w else
        && user in after.db.users && id in after.db.sessions
        && after.db.users[user].reservedUploadBytes == w.db.users[user].reservedUploadBytes + expectedSize
        && after.db.users[user].storageUsed == w.db.users[user].storageUsed
        && (forall u :: u in w.db.users && u != user ==> u in after.db.users && after.db.users[u] == w.db.users[u])
        && after.db.sessions == w.db.sessions[id := after.db.sessions[id]]
        && var s := after.db.sessions[id];
           && s.owner == user && s.layout.size == expectedSize && s.layout.Valid()
           && s.layout.chunkSize == Min(configuredChunk, expectedSize)
           && s.status == Uploading && s.expiresAt == w.clock + ttl && s.fileId.None? && s.completionToken.None?
  {
    hide PlanLayout, CeilDiv;
    AdmissionIsExact(w.db, user, expectedSize);
  }

  /** Reserving for a one-shot upload takes exactly the declared size, under a lease from now. */
  lemma ReservationIsExact(w: World, id: Id, user: Id, declared: nat, leaseMs: nat)
    requires OneShotEnabled(w, Reserve(id, user, declared, leaseMs))
    ensures var after := OneShotNext(w, Reserve(id, user, declared, leaseMs));
      if id in w.db.reservations || !HasRoom(w.db, user, declared) then after == w else
        && user in after.db.users && id in after.db.reservations
        && after.db.users[user].reservedUploadBytes == w.db.users[user].reservedUploadBytes + declared
        && after.db.users[user].storageUsed == w.db.users[user].storageUsed
        && after.db.reservations
             == w.db.reservations[id := Reservation(user, declared, Pending, w.clock + leaseMs, None)]
  {
    AdmissionIsExact(w.db, user, declared);
  }

  // ----- Accounts and plans

  /** Whatever is set is the account's status from then on; one that is not ACTIVE is admitted nothing. */
  lemma StatusIsSet(w: World, user: Id, status: UserStatus, bytes: nat)
    requires user in w.db.users
    ensures var after := AccountNext(w, SetStatus(user, status));
      && user in after.db.users && after.db.users[user] == w.db.users[user].(status := status)
      && OnlyUser(w.db, after.db, user)
      && (status != ActiveUser ==> !HasRoom(after.db, user, bytes))
  {
  }

  /** An account moves to another plan only as its owner may, or when an unpaid plan is taken back. */
  predicate MayMove(w: World, step: AccountStep, user: Id, plan: Id)
    requires user in w.db.users
  {
    && plan in w.db.plans && Usage(w.db, user) <= w.db.plans[plan].storageLimit
    && match step
       case SwitchPlan(u, p, entitled) =>
         u == user && p == plan && w.db.users[user].status == ActiveUser && (w.db.plans[plan].free || entitled)
       case Downgrade(u, p, fallback, entitled) =>
         u == user && fallback == plan && w.db.users[user].planId == Some(p) && w.db.plans[plan].free && !entitled
       case _ => false
  }

  /** A plan that is not free is reached only with an entitlement, a downgrade only without one. */
  lemma PlansMoveOnlyAsAllowed(w: World, step: AccountStep, user: Id)
    requires AccountEnabled(w, step) && user in w.db.users
    ensures user in AccountNext(w, step).db.users
    ensures var plan := AccountNext(w, step).db.users[user].planId;
      plan != w.db.users[user].planId ==> plan.Some? && MayMove(w, step, user, plan.value)
  {
    match step
    case SwitchPlan(_, _, _) => hide SetAccountStatus, DowngradeIfUnentitled;
    case Downgrade(_, _, _, _) => hide SetAccountStatus, SwitchPlanIfEntitled;
    case _ => hide DowngradeIfUnentitled, SwitchPlanIfEntitled;
  }

  /** And every move that is allowed is made. */
  lemma AllowedPlansMove(w: World, step: AccountStep, user: Id, plan: Id)
    requires AccountEnabled(w, step) && user in w.db.users && MayMove(w, step, user, plan)
    ensures user in AccountNext(w, step).db.users && AccountNext(w, step).db.users[user].planId == Some(plan)
  {
    match step
    case SwitchPlan(_, _, _) => hide SetAccountStatus, DowngradeIfUnentitled;
    case Downgrade(_, _, _, _) => hide SetAccountStatus, SwitchPlanIfEntitled;
    case _ => hide DowngradeIfUnentitled, SwitchPlanIfEntitled;
  }

  // ----- Leases

  /** What a reservation's lease buys: until it ends no sweeper can release it, and afterwards one can. */
  predicate SweepableFrom(db: Db, id: Id, cutoff: Time, end: Time) {
    ReleaseReservation(db, id, Some(cutoff)).Some? <==> end < cutoff
  }

  lemma ReservationLeaseIsExact(w: World, id: Id, leaseMs: nat, cutoff: Time)
    requires IsPending(w.db, id)
    ensures SweepableFrom(OneShotNext(w, Heartbeat(id, leaseMs)).db, id, cutoff, w.clock + leaseMs)
  {
  }

  lemma NewReservationLeaseIsExact(w: World, id: Id, user: Id, declared: nat, leaseMs: nat, cutoff: Time)
    requires declared > 0 && id !in w.db.reservations && HasRoom(w.db, user, declared)
    ensures SweepableFrom(OneShotNext(w, Reserve(id, user, declared, leaseMs)).db, id, cutoff, w.clock + leaseMs)
  {
  }

  /** The session can be taken for stale exactly after `end`. */
  predicate StaleFrom(db: Db, id: Id, t: Time, end: Time) {
    id in db.sessions && (IsStale(db.sessions[id], t) <==> end < t)
  }

  /** A claim is granted exactly on an open session before its deadline, and is not stale before its lease ends. */
  lemma ClaimIsExact(w: World, token: Id, id: Id, leaseMs: nat, t: Time)
    requires token !in w.actors.completers
    ensures var after := ClaimNext(w, token, id, leaseMs);
      if id in w.db.sessions && w.db.sessions[id].status == Uploading && w.clock < w.db.sessions[id].expiresAt then
        && HoldsToken(after.db.sessions, id, token) && StaleFrom(after.db, id, t, w.clock + leaseMs)
        && after.db.sessions[id].generation == w.db.sessions[id].generation + 1
        && after.actors.completers == w.actors.completers[token := Completer(id, Claimed)]
      else after == w
  {
  }

  /** A renewal by the holder keeps recovery away for a lease from now, and changes nothing else. */
  lemma RenewalIsExact(w: World, token: Id, leaseMs: nat, t: Time)
    requires token in w.actors.completers
    requires HoldsToken(w.db.sessions, w.actors.completers[token].session, token)
    ensures var id := w.actors.completers[token].session;
      var after := CompletionNext(w, Renew(token, leaseMs));
      && HoldsToken(after.db.sessions, id, token) && StaleFrom(after.db, id, t, w.clock + leaseMs)
      && after.db.sessions == w.db.sessions[id := w.db.sessions[id].(leaseUntil := after.db.sessions[id].leaseUntil)]
  {
  }

  /** A claimed deletion job is nobody else's until the lease ends, and due again then. */
  lemma JobLeaseIsExact(w: World, worker: Id, file: Id, leaseMs: nat, t: Time)
    requires worker !in w.actors.workers && file in w.db.jobs && IsDue(w.db.jobs[file], w.clock) && w.clock <= t
    ensures var after := ClaimJobNext(w, worker, file, leaseMs);
      file in after.db.jobs && (IsDue(after.db.jobs[file], t) <==> w.clock + leaseMs <= t)
  {
  }

  // ----- Parts

  /** What a part insertion finds when it looks at the account, the session, the clock and the part number. */
  predicate OpenFor(db: Db, id: Id, user: Id, now: Time) {
    && (user in db.users ==> db.users[user].status == ActiveUser)
    && id in db.sessions && db.sessions[id].owner == user
    && db.sessions[id].status == Uploading && now < db.sessions[id].expiresAt
  }

  /** Every answer of an insertion means what it says; the account is looked at first and the part number last. */
  lemma InsertionIsExact(db: Db, id: Id, user: Id, part: Part, now: Time)
    ensures var outcome := InsertionOutcome(db, id, user, part, now);
      var mine := id in db.sessions && db.sessions[id].owner == user;
      && (outcome == AccountNotActive <==> user in db.users && db.users[user].status != ActiveUser)
      && (outcome == Inserted <==> OpenFor(db, id, user, now) && PartKey(id, part.partNumber) !in db.parts)
      && (outcome == DuplicatePart <==> OpenFor(db, id, user, now) && PartKey(id, part.partNumber) in db.parts)
      && (outcome == Closed(None) <==> outcome != AccountNotActive && !mine)
      && (outcome.Closed? && mine ==>
            var s := db.sessions[id];
            if s.status != Uploading then outcome.status == Some(s.status)
            else outcome.status == Some(Expired) && s.expiresAt <= now)
  {
  }

  /** A part row appears only by its upload, into a session open for it, as the bytes measured for that number. */
  lemma PartAppearsOnlyIfOpen(w: World, step: Step, key: PartKey)
    requires Enabled(w, step) && key !in w.db.parts && key in Next(w, step).db.parts
    ensures step.OnSession? && step.s.PutPart? && key == PartKey(step.s.id, step.s.number)
    ensures OpenFor(w.db, step.s.id, step.s.user, w.clock) && step.s.name in w.disk.chunks
    ensures var part := Next(w, step).db.parts[key];
      && part.storedName == step.s.name && part.size == |w.disk.chunks[step.s.name]|
      && part.checksum == step.s.checksum && IsChecksum(part.checksum)
      && FitsLayout(w.db.sessions[step.s.id].layout, key.number, part)
  {
    hide AccountNext, OneShotNext, SessionNext, CompletionNext, OutboxNext, AccountEnabled, OneShotEnabled,
      OutboxEnabled, SessionEnabled, CompletionEnabled;
    match step
    case OnAccount(a) => AccountFrame(w, a);
    case OnOneShot(o) => OneShotFrame(w, o);
    case OnSession(s) => SessionAddsPart(w, s, key);
    case OnCompletion(c) =>
      if c.DeleteMissing? { DeletesOnePair(w, c.token, key); } else { OnlyDeletionsTouchParts(w, c); }
    case OnOutbox(x) => OutboxParts(w, x);
  }

  lemma SessionAddsPart(w: World, step: SessionStep, key: PartKey)
    requires SessionEnabled(w, step) && key !in w.db.parts && key in SessionNext(w, step).db.parts
    ensures step.PutPart? && key == PartKey(step.id, step.number)
    ensures OpenFor(w.db, step.id, step.user, w.clock) && step.name in w.disk.chunks
    ensures var part := SessionNext(w, step).db.parts[key];
      && part.storedName == step.name && part.size == |w.disk.chunks[step.name]|
      && part.checksum == step.checksum && IsChecksum(part.checksum)
      && FitsLayout(w.db.sessions[step.id].layout, key.number, part)
  {
    hide CreateSession, ReleaseSession, RecoverStaleCompletion, IsChecksum;
  }

  /** Such an upload is never refused without a reason. */
  lemma OpenPartsAreAccepted(w: World, id: Id, user: Id, number: nat, name: Name, checksum: string)
    requires SessionEnabled(w, PutPart(id, user, number, name, checksum))
    requires OpenFor(w.db, id, user, w.clock) && PartKey(id, number) !in w.db.parts
    ensures var after := SessionNext(w, PutPart(id, user, number, name, checksum)).db;
      && PartKey(id, number) in after.parts
      && after.parts == w.db.parts[PartKey(id, number) := after.parts[PartKey(id, number)]]
      && after == w.db.(parts := after.parts)
  {
    hide PartGeometry, IsChecksum;
  }

  // ----- How a session ends, or is taken back

  /** A session is aborted only by an abort, and expires only once its deadline has passed. */
  lemma EndsForAReason(w: World, step: Step, id: Id)
    requires Inv(w) && Enabled(w, step) && id in w.db.sessions && Open(w.db.sessions[id])
    requires id in Next(w, step).db.sessions
    ensures Next(w, step).db.sessions[id].status == Aborted ==>
              && step.OnSession? && step.s.ReleaseWrite? && step.s.actor in w.actors.releases
              && w.actors.releases[step.s.actor] == PendingRelease(id, Uploading, Aborted)
    ensures Next(w, step).db.sessions[id].status == Expired ==> w.db.sessions[id].expiresAt <= w.clock
  {
    hide Inv, AccountNext, OneShotNext, SessionNext, CompletionNext, OutboxNext, AccountEnabled, OneShotEnabled,
      OutboxEnabled, SessionEnabled, CompletionEnabled;
    match step
    case OnAccount(a) => AccountFrame(w, a);
    case OnOneShot(o) => OneShotFrame(w, o);
    case OnSession(s) => LedgerPart(w); SessionEndsForAReason(w, s, id);
    case OnCompletion(c) => CompletionOnlyCompletes(w, c, id);
    case OnOutbox(x) => OutboxRows(w, x);
  }

  lemma SessionEndsForAReason(w: World, step: SessionStep, id: Id)
    requires ReadsOk(w.clock, w.db.sessions, w.actors) && SessionEnabled(w, step)
    requires id in w.db.sessions && Open(w.db.sessions[id]) && id in SessionNext(w, step).db.sessions
    ensures SessionNext(w, step).db.sessions[id].status == Aborted ==>
              && step.ReleaseWrite? && step.actor in w.actors.releases
              && w.actors.releases[step.actor] == PendingRelease(id, Uploading, Aborted)
    ensures SessionNext(w, step).db.sessions[id].status == Expired ==> w.db.sessions[id].expiresAt <= w.clock
  {
    match step
    case ReleaseWrite(actor) => hide SessionNext, ReadsOk; ReleaseTargets(w, actor, id);
    case RecoverWrite(actor) => hide SessionNext, ReadsOk; RecoveryTargets(w, actor, id);
    case _ =>
      hide ReadsOk, ReleaseSession, RecoverStaleCompletion, InsertPartIfOpen, DeletePartRow, PartAccepted, FitsPlan;
  }

  lemma ReleaseTargets(w: World, actor: Id, id: Id)
    requires ReadsOk(w.clock, w.db.sessions, w.actors) && SessionEnabled(w, ReleaseWrite(actor))
    requires id in w.db.sessions && Open(w.db.sessions[id])
    ensures var after := SessionNext(w, ReleaseWrite(actor)).db.sessions;
      && id in after
      && (after[id].status == Aborted ==> w.actors.releases[actor] == PendingRelease(id, Uploading, Aborted))
      && (after[id].status == Expired ==> w.db.sessions[id].expiresAt <= w.clock)
  {
    var r := w.actors.releases[actor];
    assert r.observed == Uploading && (r.target == Expired ==> PastDeadline(w.db.sessions, r.session, w.clock));
    hide ReadsOk, ReleaseSession;
    ReleaseRow(w.db, r.session, r.target, id);
  }

  lemma ReleaseRow(db: Db, released: Id, target: SessionStatus, id: Id)
    requires id in db.sessions && Open(db.sessions[id])
    ensures var after := Applied(db, ReleaseSession(db, released, Uploading, target)).sessions;
      id in after && (Open(after[id]) || (id == released && after[id].status == target))
  {
  }

  lemma RecoveryTargets(w: World, actor: Id, id: Id)
    requires ReadsOk(w.clock, w.db.sessions, w.actors) && SessionEnabled(w, RecoverWrite(actor))
    requires id in w.db.sessions && Open(w.db.sessions[id])
    ensures var after := SessionNext(w, RecoverWrite(actor)).db.sessions;
      && id in after && after[id].status != Aborted
      && (after[id].status == Expired ==> w.db.sessions[id].expiresAt <= w.clock)
  {
    var r := w.actors.recoveries[actor];
    assert r.at <= w.clock && r.session in w.db.sessions && SameUpload(r.row, w.db.sessions[r.session]);
    hide ReadsOk, RecoverStaleCompletion;
    RecoveryRow(w.db, r.session, r.row, r.at, id);
  }

  lemma RecoveryRow(db: Db, recovered: Id, observed: Session, now: Time, id: Id)
    requires id in db.sessions && Open(db.sessions[id])
    ensures var after := Applied(db, RecoverStaleCompletion(db, recovered, observed, now)).sessions;
      && id in after
      && (Open(after[id]) || (id == recovered && after[id].status == Expired && observed.expiresAt <= now))
  {
  }

  lemma CompletionOnlyCompletes(w: World, step: CompletionStep, id: Id)
    requires CompletionEnabled(w, step)
    requires id in w.db.sessions && Open(w.db.sessions[id]) && id in CompletionNext(w, step).db.sessions
    ensures var s := CompletionNext(w, step).db.sessions[id]; Open(s) || s.status == Completed
  {
    hide FitsPlan, IsPartRead, CompleteParts, Readable;
  }

  /** An abort or expiry that nothing interrupts reaches its target and gives the bytes back. */
  lemma ReleaseGoesThrough(w: World, actor: Id, id: Id, target: SessionStatus)
    requires SessionEnabled(w, ReleaseRead(actor, id, target)) && LedgerOk(w.db)
    ensures var s := w.db.sessions[id];
      var after := SessionNext(SessionNext(w, ReleaseRead(actor, id, target)), ReleaseWrite(actor));
      && id in after.db.sessions && s.owner in w.db.users && s.owner in after.db.users
      && after.db.sessions[id] == s.(status := target, completionToken := None, leaseUntil := None)
      && after.db.users[s.owner].reservedUploadBytes == w.db.users[s.owner].reservedUploadBytes - s.layout.size
  {
    SessionIsCounted(w.db, id);
    hide LedgerOk;
  }

  /**
   A stale completion whose recovery nothing interrupts goes back to its client before the deadline, and expires
   after.
   */
  lemma RecoveryGoesThrough(w: World, actor: Id, id: Id)
    requires SessionEnabled(w, RecoverRead(actor, id))
    ensures var s, after := w.db.sessions[id], SessionNext(SessionNext(w, RecoverRead(actor, id)), RecoverWrite(actor));
      && id in after.db.sessions
      && after.db.sessions[id] == s.(status := if w.clock < s.expiresAt then Uploading else Expired,
                                     completionToken := None, leaseUntil := None)
  {
    var s, read := w.db.sessions[id], SessionNext(w, RecoverRead(actor, id));
    assert read.actors.recoveries[actor] == StaleRead(id, s, w.clock) && read.db == w.db;
    RecoveryMoves(w.db, id, s, w.clock);
    hide RecoverStaleCompletion, IsStale;
  }

  lemma RecoveryMoves(db: Db, id: Id, s: Session, now: Time)
    requires id in db.sessions && db.sessions[id] == s && IsStale(s, now)
    ensures var after := RecoverStaleCompletion(db, id, s, now);
      && after.Some? && id in after.value.sessions
      && after.value.sessions[id] == s.(status := if now < s.expiresAt then Uploading else Expired,
                                        completionToken := None, leaseUntil := None)
  {
  }

  /** A lapsed reservation whose release nothing interrupts is released by the sweeper. */
  lemma SweepGoesThrough(w: World, actor: Id, id: Id)
    requires actor !in w.actors.sweeps && IsPending(w.db, id) && w.db.reservations[id].leaseUntil < w.clock
    ensures OneShotEnabled(w, SweepRead(actor, {id}))
    ensures var read := OneShotNext(w, SweepRead(actor, {id}));
      && OneShotEnabled(read, SweepRelease(actor, id))
      && var after := OneShotNext(read, SweepRelease(actor, id));
      && id in after.db.reservations
      && after.db.reservations == w.db.reservations[id := w.db.reservations[id].(state := Released)]
  {
  }

  /** A write that depends on an earlier read is void once the row no longer is what was read. */
  lemma SupersededWritesAreVoid(db: Db, id: Id, read: Session, target: SessionStatus, now: Time)
    requires id in db.sessions
    ensures db.sessions[id].completionToken != read.completionToken ==> RecoverStaleCompletion(db, id, read, now).None?
    ensures db.sessions[id].status != Completing ==> RecoverStaleCompletion(db, id, read, now).None?
    ensures db.sessions[id].status != read.status ==> ReleaseSession(db, id, read.status, target).None?
  {
  }
}
