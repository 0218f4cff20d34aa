/** Session and part steps keep the invariant. */
module SessionSteps {
  import opened Wrappers
  import opened UploadParts
  import opened Tables
  import opened Machine
  import opened MapSums
  import opened Ledger
  import opened Invariants

  // ----- Sessions and parts

  lemma SessionLedger(w: World, step: SessionStep)
    requires LedgerOk(w.db) && ReadsOk(w.clock, w.db.sessions, w.actors) && SessionEnabled(w, step)
    ensures LedgerOk(SessionNext(w, step).db)
  {
    hide LedgerOk, CreateSession, InsertPartIfOpen, DeletePartRow, ReleaseSession, RecoverStaleCompletion;
    match step
    case Create(id, user, expectedSize, configuredChunk, ttl) =>
      CreateSessionKeeps(w.db, id, user, PlanLayout(expectedSize, configuredChunk), w.clock + ttl);
    case PutPart(id, user, number, name, checksum) => PartsKeepLedger(w.db, SessionNext(w, step).db);
    case RepairPart(id, number, name) => PartsKeepLedger(w.db, SessionNext(w, step).db);
    case ReleaseWrite(actor) =>
      var r := w.actors.releases[actor];
      ReleaseKeeps(w.db, r.session, r.target);
    case RecoverWrite(actor) =>
      var r := w.actors.recoveries[actor];
      RecoverKeeps(w.db, r.session, r.row, r.at);
    case _ =>
  }

  lemma PartsKeepLedger(db: Db, db': Db)
    requires LedgerOk(db) && OnlyParts(db, db')
    ensures LedgerOk(db')
  {
    hide SumOver;
    assert Conserved(db') by {
      forall u | u in db'.users ensures Balanced(db', u) { assert Balanced(db, u); }
    }
  }

  lemma ReleaseKeeps(db: Db, id: Id, target: SessionStatus)
    requires LedgerOk(db) && (target == Aborted || target == Expired)
    ensures LedgerOk(Applied(db, ReleaseSession(db, id, Uploading, target)))
  {
    hide LedgerOk;
    if ReleaseSession(db, id, Uploading, target).Some? {
      ClosingKeeps(db, id, db.sessions[id].(status := target, completionToken := None, leaseUntil := None));
    }
  }

  lemma RecoverKeeps(db: Db, id: Id, observed: Session, now: Time)
    requires LedgerOk(db) && id in db.sessions && SameUpload(observed, db.sessions[id])
    ensures LedgerOk(Applied(db, RecoverStaleCompletion(db, id, observed, now)))
  {
    hide LedgerOk;
    if RecoverStaleCompletion(db, id, observed, now).Some? {
      var cleared := db.sessions[id].(completionToken := None, leaseUntil := None);
      if observed.expiresAt > now { SameHoldingKeeps(db, id, cleared.(status := Uploading)); }
      else { ClosingKeeps(db, id, cleared.(status := Expired)); }
    }
  }

  /** Existing sessions keep owner, layout, deadline and file; no token becomes current. */
  ghost predicate Evolves(sessions: Sessions, sessions': Sessions) {
    && (forall id :: id in sessions ==>
          id in sessions' && SameUpload(sessions[id], sessions'[id]) && sessions'[id].fileId == sessions[id].fileId)
    && (forall id, t :: HoldsToken(sessions', id, t) ==> HoldsToken(sessions, id, t))
  }

  /** One row is written: a new open session, or an existing one without a new token or file. */
  predicate RowMoves(sessions: Sessions, id: Id, row: Session) {
    && (id in sessions ==> SameUpload(sessions[id], row) && row.fileId == sessions[id].fileId)
    && (row.completionToken.Some? ==> id in sessions && row.completionToken == sessions[id].completionToken
                                      && row.status == sessions[id].status)
  }

  lemma RowEvolves(sessions: Sessions, id: Id, row: Session)
    requires RowMoves(sessions, id, row)
    ensures Evolves(sessions, sessions[id := row])
  {
  }

  lemma RowKeepsSessions(sessions: Sessions, files: Files, completers: Completers, id: Id, row: Session)
    requires SessionsOk(sessions, files, completers) && SessionOk(id, row, files, completers)
    ensures SessionsOk(sessions[id := row], files, completers)
  {
  }

  predicate ChunksGrow(chunks: Chunks, chunks': Chunks) {
    forall n :: n in chunks ==> n in chunks' && chunks'[n] == chunks[n]
  }

  /** Rows disappear, or one row of an open session appears. */
  ghost predicate PartsMove(sessions: Sessions, parts: Parts, chunks: Chunks, parts': Parts) {
    forall key :: key in parts' && !(key in parts && parts'[key] == parts[key]) ==>
      key.session in sessions && sessions[key.session].status == Uploading && PartOk(sessions, chunks, key, parts'[key])
  }

  lemma CreateMoves(db: Db, completers: Completers, id: Id, user: Id, layout: Layout, expiresAt: Time)
    requires SessionsOk(db.sessions, db.files, completers) && layout.Valid()
    ensures var after := Applied(db, CreateSession(db, id, user, layout, expiresAt));
      Evolves(db.sessions, after.sessions) && SessionsOk(after.sessions, db.files, completers)
  {
    var row := Session.Session(user, layout, Uploading, expiresAt, None, None, None, 0);
    hide SessionsOk, Evolves, CeilDiv;
    RowsStay(db.sessions);
    if CreateSession(db, id, user, layout, expiresAt).Some? {
      RowEvolves(db.sessions, id, row);
      RowKeepsSessions(db.sessions, db.files, completers, id, row);
    }
  }

  lemma RowsStay(sessions: Sessions)
    ensures Evolves(sessions, sessions)
  {
  }

  lemma ReleaseMoves(db: Db, completers: Completers, id: Id, target: SessionStatus)
    requires SessionsOk(db.sessions, db.files, completers) && (target == Aborted || target == Expired)
    ensures var after := Applied(db, ReleaseSession(db, id, Uploading, target));
      Evolves(db.sessions, after.sessions) && SessionsOk(after.sessions, db.files, completers)
  {
    RowsStay(db.sessions);
    if ReleaseSession(db, id, Uploading, target).Some? {
      var row := db.sessions[id].(status := target, completionToken := None, leaseUntil := None);
      assert SessionOk(id, db.sessions[id], db.files, completers);
      hide SessionsOk, Evolves, CeilDiv;
      RowEvolves(db.sessions, id, row);
      RowKeepsSessions(db.sessions, db.files, completers, id, row);
    }
  }

  lemma RecoverMoves(db: Db, completers: Completers, id: Id, observed: Session, now: Time)
    requires SessionsOk(db.sessions, db.files, completers)
    ensures var after := Applied(db, RecoverStaleCompletion(db, id, observed, now));
      Evolves(db.sessions, after.sessions) && SessionsOk(after.sessions, db.files, completers)
  {
    RowsStay(db.sessions);
    if RecoverStaleCompletion(db, id, observed, now).Some? {
      var row := db.sessions[id].(completionToken := None, leaseUntil := None,
                                  status := if observed.expiresAt > now then Uploading else Expired);
      assert SessionOk(id, db.sessions[id], db.files, completers);
      hide SessionsOk, Evolves, CeilDiv;
      RowEvolves(db.sessions, id, row);
      RowKeepsSessions(db.sessions, db.files, completers, id, row);
    }
  }

  lemma SessionMoves(w: World, step: SessionStep)
    requires Inv(w) && SessionEnabled(w, step)
    ensures var after := SessionNext(w, step).db;
      Evolves(w.db.sessions, after.sessions) && SessionsOk(after.sessions, w.db.files, w.actors.completers)
  {
    RowsStay(w.db.sessions);
    hide LedgerOk, SessionsOk, PublishedOnce, PartsOk, FrozenOk, CompletersOk, StorageOk, AttemptsOk, NewestKnown,
      Evolves,
      CreateSession, InsertPartIfOpen, DeletePartRow, ReleaseSession, RecoverStaleCompletion;
    match step
    case Create(id, user, expectedSize, configuredChunk, ttl) =>
      CreateMoves(w.db, w.actors.completers, id, user, PlanLayout(expectedSize, configuredChunk), w.clock + ttl);
    case ReleaseWrite(actor) =>
      ReleaseMoves(w.db, w.actors.completers, w.actors.releases[actor].session, w.actors.releases[actor].target);
    case RecoverWrite(actor) =>
      var r := w.actors.recoveries[actor];
      RecoverMoves(w.db, w.actors.completers, r.session, r.row, r.at);
    case _ =>
  }

  lemma PutMoves(w: World, id: Id, user: Id, number: nat, name: Name, checksum: string)
    requires PartAccepted(w, id, number, name, checksum)
    ensures PartsMove(w.db.sessions, w.db.parts, w.disk.chunks,
              InsertPartIfOpen(w.db, id, user, MeasuredPart(w, id, number, name, checksum), w.clock).parts)
  {
    var part := MeasuredPart(w, id, number, name, checksum);
    assert PartOk(w.db.sessions, w.disk.chunks, PartKey(id, number), part);
    hide PartOk, MeasuredPart;
  }

  lemma SessionParts(w: World, step: SessionStep)
    requires SessionEnabled(w, step)
    ensures PartsMove(w.db.sessions, w.db.parts, w.disk.chunks, SessionNext(w, step).db.parts)
  {
    hide CreateSession, InsertPartIfOpen, ReleaseSession, RecoverStaleCompletion, PartOk;
    if step.PutPart? { PutMoves(w, step.id, step.user, step.number, step.name, step.checksum); }
  }

  lemma SessionFrame(w: World, step: SessionStep)
    requires SessionEnabled(w, step)
    ensures var after := SessionNext(w, step);
      && after.db.files == w.db.files && after.db.jobs == w.db.jobs
      && after.disk.objects == w.disk.objects && after.disk.owner == w.disk.owner
      && after.clock == w.clock && ChunksGrow(w.disk.chunks, after.disk.chunks)
      && after.actors.completers == w.actors.completers && after.actors.workers == w.actors.workers
      && after.actors.requeues == w.actors.requeues
  {
    hide CreateSession, InsertPartIfOpen, DeletePartRow, ReleaseSession, RecoverStaleCompletion;
  }

  lemma PartsStayOk(sessions: Sessions, parts: Parts, chunks: Chunks, completers: Completers,
                    sessions': Sessions, parts': Parts, chunks': Chunks)
    requires PartsOk(sessions, parts, chunks) && FrozenOk(sessions, parts, completers)
    requires Evolves(sessions, sessions') && ChunksGrow(chunks, chunks') && PartsMove(sessions, parts, chunks, parts')
    ensures PartsOk(sessions', parts', chunks')
    ensures FrozenOk(sessions', parts', completers)
  {
  }

  lemma ContentsStay(parts: seq<Part>, chunks: Chunks, chunks': Chunks)
    requires ChunksGrow(chunks, chunks') && PartsStored(chunks, parts)
    ensures PartsStored(chunks', parts) && Contents(parts, chunks') == Contents(parts, chunks)
    ensures forall k :: 0 <= k <= |parts| ==> Contents(parts[..k], chunks') == Contents(parts[..k], chunks)
  {
  }

  lemma PhaseStays(layout: Layout, chunks: Chunks, chunks': Chunks, phase: Phase)
    requires ChunksGrow(chunks, chunks') && PhaseOk(layout, chunks, phase)
    ensures PhaseOk(layout, chunks', phase)
  {
    match phase
    case Assembling(parts, _, _, _) => ContentsStay(parts, chunks, chunks');
    case ReadyToCommit(parts, _, _) => ContentsStay(parts, chunks, chunks');
    case PublishedAs(_, parts, _) => ContentsStay(parts, chunks, chunks');
    case _ =>
  }

  lemma CompletersStayOk(sessions: Sessions, chunks: Chunks, completers: Completers, sessions': Sessions,
      chunks': Chunks)
    requires CompletersOk(sessions, chunks, completers) && PublishedOnce(sessions, completers)
    requires Evolves(sessions, sessions') && ChunksGrow(chunks, chunks')
    ensures CompletersOk(sessions', chunks', completers) && PublishedOnce(sessions', completers)
  {
    forall t | t in completers
      ensures PhaseOk(sessions'[completers[t].session].layout, chunks', completers[t].phase)
    {
      PhaseStays(sessions[completers[t].session].layout, chunks, chunks', completers[t].phase);
    }
  }

  lemma SessionReads(w: World, step: SessionStep)
    requires Inv(w) && SessionEnabled(w, step)
    ensures ReadsOk(w.clock, SessionNext(w, step).db.sessions, SessionNext(w, step).actors)
  {
    hide LedgerOk, SessionsOk, PublishedOnce, PartsOk, FrozenOk, CompletersOk, StorageOk, AttemptsOk, NewestKnown,
      CreateSession, InsertPartIfOpen, DeletePartRow, ReleaseSession, RecoverStaleCompletion, PartsMove;
    SessionMoves(w, step);
  }

  lemma DiskStaysOk(files: Files, jobs: Jobs, disk: Disk, completers: Completers, workers: Workers, disk': Disk)
    requires StorageOk(files, jobs, disk, completers, workers)
    requires disk'.objects == disk.objects && disk'.owner == disk.owner
    ensures StorageOk(files, jobs, disk', completers, workers)
  {
  }

  lemma SessionKeeps(w: World, step: SessionStep)
    requires Inv(w) && SessionEnabled(w, step)
    ensures Inv(SessionNext(w, step))
  {
    var after := SessionNext(w, step);
    SessionLedger(w, step);
    SessionMoves(w, step);
    SessionParts(w, step);
    SessionFrame(w, step);
    SessionReads(w, step);
    hide SessionNext, LedgerOk, SessionsOk, PublishedOnce, PartsOk, FrozenOk, CompletersOk, StorageOk, AttemptsOk,
      NewestKnown,
      ReadsOk, Evolves, PartsMove, ChunksGrow;
    PartsStayOk(w.db.sessions, w.db.parts, w.disk.chunks, w.actors.completers, after.db.sessions, after.db.parts,
      after.disk.chunks);
    CompletersStayOk(w.db.sessions, w.disk.chunks, w.actors.completers, after.db.sessions, after.disk.chunks);
    DiskStaysOk(w.db.files, w.db.jobs, w.disk, w.actors.completers, w.actors.workers, after.disk);
  }
}
