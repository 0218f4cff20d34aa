/** Completion steps, up to and including the fenced commit, keep the invariant. */
module CompletionSteps {
  import opened Wrappers
  import opened UploadParts
  import opened Tables
  import opened Machine
  import opened Ledger
  import opened Invariants
  import opened OneShotSteps
  import opened SessionSteps

  // ----- Completion: the actor's phase

  predicate Idle(phase: Phase) {
    phase.Claimed? || phase.GivingBack? || phase.Repairing? || phase.Stopped?
  }

  /** One completer changes phase, or a new one appears. */
  predicate Advances(completers: Completers, t: Id, c: Completer) {
    t in completers ==> completers[t].session == c.session && !completers[t].phase.PublishedAs?
  }

  lemma AdvanceKeepsSessions(sessions: Sessions, files: Files, completers: Completers, t: Id, c: Completer)
    requires SessionsOk(sessions, files, completers) && Advances(completers, t, c)
    ensures SessionsOk(sessions, files, completers[t := c])
  {
    assert forall id :: id in sessions ==> SessionOk(id, sessions[id], files, completers);
  }

  lemma AdvanceKeepsPublished(sessions: Sessions, completers: Completers, t: Id, c: Completer)
    requires PublishedOnce(sessions, completers) && Advances(completers, t, c) && c.session in sessions
      && !c.phase.PublishedAs?
    ensures PublishedOnce(sessions, completers[t := c])
  {
    var after := completers[t := c];
    forall t1, t2 | Rival(after, t1, t2) ensures t1 == t2 { assert Rival(completers, t1, t2); }
  }

  lemma AdvanceKeepsFrozen(sessions: Sessions, parts: Parts, completers: Completers, t: Id, c: Completer)
    requires FrozenOk(sessions, parts, completers)
    requires HasParts(c.phase) && HoldsToken(sessions, c.session, t) ==> Accounts(parts, c.session, c.phase.parts)
    ensures FrozenOk(sessions, parts, completers[t := c])
  {
    hide Accounts;
  }

  lemma AdvanceKeepsBuilt(sessions: Sessions, chunks: Chunks, completers: Completers, t: Id, c: Completer)
    requires CompletersOk(sessions, chunks, completers) && c.session in sessions
      && PhaseOk(sessions[c.session].layout, chunks, c.phase)
    ensures CompletersOk(sessions, chunks, completers[t := c])
  {
    hide PhaseOk;
  }

  lemma AdvanceKeepsStorage(files: Files, jobs: Jobs, disk: Disk, completers: Completers, workers: Workers, t: Id,
      c: Completer)
    requires StorageOk(files, jobs, disk, completers, workers) && ObjectOk(t, c.phase, files, disk)
    ensures StorageOk(files, jobs, disk, completers[t := c], workers)
  {
    hide FilesOk, JobsOk, WorkersOk, ObjectOk;
  }

  /** The parts of the invariant that speak about completers. */
  ghost predicate CompletionOk(db: Db, disk: Disk, completers: Completers, workers: Workers) {
    && SessionsOk(db.sessions, db.files, completers)
    && PublishedOnce(db.sessions, completers)
    && FrozenOk(db.sessions, db.parts, completers)
    && CompletersOk(db.sessions, disk.chunks, completers)
    && StorageOk(db.files, db.jobs, disk, completers, workers)
  }

  lemma AdvanceKeeps(db: Db, disk: Disk, completers: Completers, workers: Workers, t: Id, c: Completer)
    requires CompletionOk(db, disk, completers, workers)
    requires Advances(completers, t, c) && c.session in db.sessions && !c.phase.PublishedAs?
    requires HasParts(c.phase) && HoldsToken(db.sessions, c.session, t) ==> Accounts(db.parts, c.session, c.phase.parts)
    requires PhaseOk(db.sessions[c.session].layout, disk.chunks, c.phase)
    requires ObjectOk(t, c.phase, db.files, disk)
    ensures CompletionOk(db, disk, completers[t := c], workers)
  {
    hide SessionsOk, PublishedOnce, FrozenOk, CompletersOk, StorageOk, PhaseOk, ObjectOk, Accounts;
    AdvanceKeepsSessions(db.sessions, db.files, completers, t, c);
    AdvanceKeepsPublished(db.sessions, completers, t, c);
    AdvanceKeepsFrozen(db.sessions, db.parts, completers, t, c);
    AdvanceKeepsBuilt(db.sessions, disk.chunks, completers, t, c);
    AdvanceKeepsStorage(db.files, db.jobs, disk, completers, workers, t, c);
  }

  lemma IdleKeeps(db: Db, disk: Disk, completers: Completers, workers: Workers, t: Id, c: Completer)
    requires CompletionOk(db, disk, completers, workers)
    requires Advances(completers, t, c) && c.session in db.sessions && Idle(c.phase)
    ensures CompletionOk(db, disk, completers[t := c], workers)
  {
    hide SessionsOk, PublishedOnce, FrozenOk, CompletersOk, StorageOk, BuiltFrom, Concat, Accounts, CompletionOk;
    AdvanceKeeps(db, disk, completers, workers, t, c);
  }

  // ----- Completion: the tables

  lemma ClaimRow(db: Db, id: Id, token: Id, now: Time, leaseMs: nat, completers: Completers)
    requires SessionsOk(db.sessions, db.files, completers) && token !in completers
    requires ClaimCompletion(db, id, token, now, leaseMs).Some?
    ensures SessionsOk(ClaimCompletion(db, id, token, now, leaseMs).value.sessions, db.files,
      completers[token := Completer(id, Claimed)])
  {
    AdvanceKeepsSessions(db.sessions, db.files, completers, token, Completer(id, Claimed));
    var row := ClaimCompletion(db, id, token, now, leaseMs).value.sessions[id];
    assert SessionOk(id, db.sessions[id], db.files, completers);
    hide SessionsOk, CeilDiv;
    RowKeepsSessions(db.sessions, db.files, completers[token := Completer(id, Claimed)], id, row);
  }

  predicate SameUploads(sessions: Sessions, sessions': Sessions) {
    forall id :: id in sessions ==> id in sessions' && SameUpload(sessions[id], sessions'[id])
  }

  lemma ClaimKeeps(w: World, token: Id, id: Id, leaseMs: nat)
    requires CompletionOk(w.db, w.disk, w.actors.completers, w.actors.workers) && token !in w.actors.completers
    requires ClaimCompletion(w.db, id, token, w.clock, leaseMs).Some?
    ensures var db := ClaimCompletion(w.db, id, token, w.clock, leaseMs).value;
      CompletionOk(db, w.disk, w.actors.completers[token := Completer(id, Claimed)], w.actors.workers)
  {
    var completers, c := w.actors.completers, Completer(id, Claimed);
    var db := ClaimCompletion(w.db, id, token, w.clock, leaseMs).value;
    ClaimRow(w.db, id, token, w.clock, leaseMs, completers);
    ClaimKeepsPublished(w.db, id, token, w.clock, leaseMs, completers);
    ClaimKeepsFrozen(w.db, w.disk, id, token, w.clock, leaseMs, completers);
    AdvanceKeepsStorage(w.db.files, w.db.jobs, w.disk, completers, w.actors.workers, token, c);
    hide SessionsOk, PublishedOnce, FrozenOk, CompletersOk, StorageOk, ClaimCompletion;
  }

  lemma ClaimKeepsPublished(db: Db, id: Id, token: Id, now: Time, leaseMs: nat, completers: Completers)
    requires SessionsOk(db.sessions, db.files, completers) && PublishedOnce(db.sessions, completers)
      && token !in completers
    requires ClaimCompletion(db, id, token, now, leaseMs).Some?
    ensures PublishedOnce(ClaimCompletion(db, id, token, now, leaseMs).value.sessions,
      completers[token := Completer(id, Claimed)])
  {
    AdvanceKeepsPublished(db.sessions, completers, token, Completer(id, Claimed));
    assert SessionOk(id, db.sessions[id], db.files, completers);
    hide SessionsOk, CeilDiv;
  }

  lemma ClaimKeepsFrozen(db: Db, disk: Disk, id: Id, token: Id, now: Time, leaseMs: nat, completers: Completers)
    requires FrozenOk(db.sessions, db.parts, completers) && CompletersOk(db.sessions, disk.chunks, completers)
    requires ClaimCompletion(db, id, token, now, leaseMs).Some? && token !in completers
    ensures var claimed := ClaimCompletion(db, id, token, now, leaseMs).value;
      && FrozenOk(claimed.sessions, claimed.parts, completers[token := Completer(id, Claimed)])
      && CompletersOk(claimed.sessions, disk.chunks, completers[token := Completer(id, Claimed)])
  {
    AdvanceKeepsFrozen(db.sessions, db.parts, completers, token, Completer(id, Claimed));
    AdvanceKeepsBuilt(db.sessions, disk.chunks, completers, token, Completer(id, Claimed));
    hide Accounts, BuiltFrom, CompleteParts, PartsStored, Concat;
  }

  /** Statements that make no token current and only remove parts. */
  lemma EvolveKeeps(db: Db, disk: Disk, completers: Completers, workers: Workers, db': Db)
    requires CompletionOk(db, disk, completers, workers) && PartsOk(db.sessions, db.parts, disk.chunks)
    requires Evolves(db.sessions, db'.sessions) && PartsMove(db.sessions, db.parts, disk.chunks, db'.parts)
    requires SessionsOk(db'.sessions, db'.files, completers) && db'.files == db.files && db'.jobs == db.jobs
    ensures CompletionOk(db', disk, completers, workers) && PartsOk(db'.sessions, db'.parts, disk.chunks)
  {
    assert ChunksGrow(disk.chunks, disk.chunks);
    hide SessionsOk, PublishedOnce, PartsOk, FrozenOk, CompletersOk, StorageOk, Evolves, PartsMove, ChunksGrow;
    PartsStayOk(db.sessions, db.parts, disk.chunks, completers, db'.sessions, db'.parts, disk.chunks);
    CompletersStayOk(db.sessions, disk.chunks, completers, db'.sessions, disk.chunks);
  }

  lemma RenewMoves(db: Db, completers: Completers, id: Id, token: Id, now: Time, leaseMs: nat)
    requires SessionsOk(db.sessions, db.files, completers)
    ensures var after := Applied(db, RenewCompletionLease(db, id, token, now, leaseMs));
      Evolves(db.sessions, after.sessions) && SessionsOk(after.sessions, db.files, completers)
  {
    RowsStay(db.sessions);
    if HoldsToken(db.sessions, id, token) {
      var row := db.sessions[id].(leaseUntil := Some(now + leaseMs));
      assert SessionOk(id, db.sessions[id], db.files, completers);
      hide SessionsOk, Evolves, CeilDiv;
      RowEvolves(db.sessions, id, row);
      RowKeepsSessions(db.sessions, db.files, completers, id, row);
    }
  }

  lemma RelinquishMoves(db: Db, completers: Completers, id: Id, token: Id)
    requires SessionsOk(db.sessions, db.files, completers)
    ensures var after := Applied(db, RelinquishCompletion(db, id, token));
      Evolves(db.sessions, after.sessions) && SessionsOk(after.sessions, db.files, completers)
  {
    RowsStay(db.sessions);
    if HoldsToken(db.sessions, id, token) {
      var row := db.sessions[id].(status := Uploading, completionToken := None, leaseUntil := None);
      assert SessionOk(id, db.sessions[id], db.files, completers);
      hide SessionsOk, Evolves, CeilDiv;
      RowEvolves(db.sessions, id, row);
      RowKeepsSessions(db.sessions, db.files, completers, id, row);
    }
  }

  /** The rows a completer reads after its claim account for every part of its session. */
  lemma ReadAccounts(db: Db, disk: Disk, id: Id, rows: seq<Part>)
    requires IsPartRead(db, id, rows) && PartsOk(db.sessions, db.parts, disk.chunks)
    requires id in db.sessions && CompleteParts(db.sessions[id].layout, rows)
    ensures Accounts(db.parts, id, rows) && PartsStored(disk.chunks, rows)
  {
    hide PartGeometry, IsChecksum;
    forall key | key in db.parts && key.session == id
      ensures key.number < |rows| && rows[key.number] == db.parts[key]
    {
      assert PartOk(db.sessions, disk.chunks, key, db.parts[key]);
      var i :| 0 <= i < |rows| && rows[i] == db.parts[key];
      assert FitsLayout(db.sessions[id].layout, i, rows[i]);
    }
    forall p | p in rows
      ensures p.storedName in disk.chunks && |disk.chunks[p.storedName]| == p.size
    {
      var i :| 0 <= i < |rows| && rows[i] == p;
      assert PartOk(db.sessions, disk.chunks, PartKey(id, p.partNumber), p);
    }
  }

  lemma OwnKeepsStorage(files: Files, jobs: Jobs, disk: Disk, completers: Completers, workers: Workers, name: Name,
      owner: NameOwner)
    requires StorageOk(files, jobs, disk, completers, workers) && name !in disk.owner
    ensures StorageOk(files, jobs, disk.(owner := disk.owner[name := owner]), completers, workers)
  {
  }

  lemma CompleterHasSession(db: Db, disk: Disk, completers: Completers, workers: Workers, t: Id)
    requires CompletionOk(db, disk, completers, workers) && t in completers
    ensures completers[t].session in db.sessions
    ensures PhaseOk(db.sessions[completers[t].session].layout, disk.chunks, completers[t].phase)
    ensures ObjectOk(t, completers[t].phase, db.files, disk)
    ensures HasParts(completers[t].phase) && HoldsToken(db.sessions, completers[t].session, t) ==>
              Accounts(db.parts, completers[t].session, completers[t].phase.parts)
  {
    hide SessionsOk, FrozenOk, StorageOk, PhaseOk, ObjectOk, Accounts;
    FrozenAccounts(db.sessions, db.parts, completers, t);
    ObjectIsOk(db.files, db.jobs, disk, completers, workers, t);
  }

  lemma FrozenAccounts(sessions: Sessions, parts: Parts, completers: Completers, t: Id)
    requires FrozenOk(sessions, parts, completers) && t in completers
    ensures HasParts(completers[t].phase) && HoldsToken(sessions, completers[t].session, t) ==>
              Accounts(parts, completers[t].session, completers[t].phase.parts)
  {
  }

  lemma ObjectIsOk(files: Files, jobs: Jobs, disk: Disk, completers: Completers, workers: Workers, t: Id)
    requires StorageOk(files, jobs, disk, completers, workers) && t in completers
    ensures ObjectOk(t, completers[t].phase, files, disk)
  {
    hide ObjectOk;
  }

  lemma FreezeAccepted(w: World, token: Id, rows: seq<Part>, name: Name)
    requires CompletionOk(w.db, w.disk, w.actors.completers, w.actors.workers)
      && PartsOk(w.db.sessions, w.db.parts, w.disk.chunks)
    requires token in w.actors.completers && w.actors.completers[token].phase.Claimed? && name !in w.disk.owner
    requires w.actors.completers[token].session in w.db.sessions
    requires IsPartRead(w.db, w.actors.completers[token].session, rows)
    requires CompleteParts(w.db.sessions[w.actors.completers[token].session].layout, rows)
    ensures var c := w.actors.completers[token];
      CompletionOk(w.db, w.disk.(owner := w.disk.owner[name := OfCompleter(token)]),
                   w.actors.completers[token := c.(phase := Assembling(rows, name, [], 0))], w.actors.workers)
  {
    var c := w.actors.completers[token];
    var disk' := w.disk.(owner := w.disk.owner[name := OfCompleter(token)]);
    hide SessionsOk, PublishedOnce, PartsOk, FrozenOk, CompletersOk, StorageOk, Accounts, PartsStored, CompleteParts,
      IsPartRead;
    ReadAccounts(w.db, w.disk, c.session, rows);
    OwnKeepsStorage(w.db.files, w.db.jobs, w.disk, w.actors.completers, w.actors.workers, name, OfCompleter(token));
    assert CompletionOk(w.db, disk', w.actors.completers, w.actors.workers);
    hide CompletionOk;
    assert Concat(Contents(rows[..0], disk'.chunks)) == [];
    AdvanceKeeps(w.db, disk', w.actors.completers, w.actors.workers, token, c.(phase := Assembling(rows, name, [], 0)));
  }

  lemma FreezeKeeps(w: World, token: Id, rows: seq<Part>, name: Name)
    requires CompletionOk(w.db, w.disk, w.actors.completers, w.actors.workers)
      && PartsOk(w.db.sessions, w.db.parts, w.disk.chunks)
    requires CompletionEnabled(w, Freeze(token, rows, name))
    ensures var after := FreezeNext(w, token, rows, name);
      CompletionOk(after.db, after.disk, after.actors.completers, after.actors.workers)
  {
    hide CompletionOk, PartsOk, IsPartRead, CompleteParts;
    CompleterHasSession(w.db, w.disk, w.actors.completers, w.actors.workers, token);
    var c := w.actors.completers[token];
    if CompleteParts(w.db.sessions[c.session].layout, rows) {
      FreezeAccepted(w, token, rows, name);
    } else {
      IdleKeeps(w.db, w.disk, w.actors.completers, w.actors.workers, token, c.(phase := GivingBack(None)));
    }
  }

  lemma ReadPartKeeps(w: World, token: Id)
    requires CompletionOk(w.db, w.disk, w.actors.completers, w.actors.workers) && InPhase(w, token, ReadPart(token))
    ensures var after := ReadPartNext(w, token);
      CompletionOk(after.db, after.disk, after.actors.completers, after.actors.workers)
  {
    hide CompletionOk, Accounts, CompleteParts;
    CompleterHasSession(w.db, w.disk, w.actors.completers, w.actors.workers, token);
    var c := w.actors.completers[token];
    var part := c.phase.parts[c.phase.next];
    if Readable(w.disk, part.storedName) {
      var read := c.phase.parts[..c.phase.next + 1];
      var pieces := Contents(read, w.disk.chunks);
      assert pieces[..c.phase.next] == Contents(c.phase.parts[..c.phase.next], w.disk.chunks);
      AdvanceKeeps(w.db, w.disk, w.actors.completers, w.actors.workers, token,
        c.(phase := c.phase.(bytes := c.phase.bytes + w.disk.chunks[part.storedName], next := c.phase.next + 1)));
    } else {
      IdleKeeps(w.db, w.disk, w.actors.completers, w.actors.workers, token,
        c.(phase := GivingBack(Some(PartRef(part.partNumber, part.storedName)))));
    }
  }

  lemma OwnedWriteKeepsStorage(files: Files, jobs: Jobs, disk: Disk, completers: Completers, workers: Workers, t: Id,
      name: Name, bytes: Bytes)
    requires StorageOk(files, jobs, disk, completers, workers) && OwnedBy(disk, name, OfCompleter(t))
    requires t in completers && completers[t].phase.Assembling?
    ensures StorageOk(files, jobs, disk.(objects := disk.objects[name := bytes]), completers, workers)
  {
  }

  lemma OwnedDropKeepsStorage(files: Files, jobs: Jobs, disk: Disk, completers: Completers, workers: Workers, t: Id,
      name: Name)
    requires StorageOk(files, jobs, disk, completers, workers) && OwnedBy(disk, name, OfCompleter(t))
    requires t in completers && Idle(completers[t].phase)
    ensures StorageOk(files, jobs, disk.(objects := disk.objects - {name}), completers, workers)
  {
  }

  lemma FinishKeeps(w: World, token: Id, checksumMatches: bool)
    requires CompletionOk(w.db, w.disk, w.actors.completers, w.actors.workers)
    requires CompletionEnabled(w, FinishAssembly(token, checksumMatches))
    ensures var after := FinishNext(w, token, checksumMatches);
      CompletionOk(after.db, after.disk, after.actors.completers, after.actors.workers)
  {
    CompleterHasSession(w.db, w.disk, w.actors.completers, w.actors.workers, token);
    var c := w.actors.completers[token];
    if |c.phase.bytes| != w.db.sessions[c.session].layout.size || !checksumMatches {
      hide CompletionOk;
      IdleKeeps(w.db, w.disk, w.actors.completers, w.actors.workers, token, c.(phase := GivingBack(None)));
    } else {
      hide SessionsOk, PublishedOnce, FrozenOk, CompletersOk, StorageOk, Accounts, CompleteParts;
      var disk' := w.disk.(objects := w.disk.objects[c.phase.name := c.phase.bytes]);
      OwnedWriteKeepsStorage(w.db.files, w.db.jobs, w.disk, w.actors.completers, w.actors.workers, token, c.phase.name,
        c.phase.bytes);
      assert CompletionOk(w.db, disk', w.actors.completers, w.actors.workers);
      hide CompletionOk;
      assert c.phase.parts[..|c.phase.parts|] == c.phase.parts;
      AdvanceKeeps(w.db, disk', w.actors.completers, w.actors.workers, token,
        c.(phase := ReadyToCommit(c.phase.parts, c.phase.name, c.phase.bytes)));
    }
  }

  /** A completer steps back while the tables evolve. */
  lemma StepBackKeeps(db: Db, disk: Disk, completers: Completers, workers: Workers, t: Id, phase: Phase, db': Db)
    requires CompletionOk(db, disk, completers, workers) && PartsOk(db.sessions, db.parts, disk.chunks)
    requires t in completers && !completers[t].phase.PublishedAs? && Idle(phase)
    requires Evolves(db.sessions, db'.sessions) && PartsMove(db.sessions, db.parts, disk.chunks, db'.parts)
    requires SessionsOk(db'.sessions, db.files, completers) && db'.files == db.files && db'.jobs == db.jobs
    ensures CompletionOk(db', disk, completers[t := completers[t].(phase := phase)], workers)
    ensures PartsOk(db'.sessions, db'.parts, disk.chunks)
  {
    hide CompletionOk, PartsOk, SessionsOk, Evolves, PartsMove, PhaseOk, ObjectOk, Accounts;
    EvolveKeeps(db, disk, completers, workers, db');
    CompleterHasSession(db', disk, completers, workers, t);
    IdleKeeps(db', disk, completers, workers, t, completers[t].(phase := phase));
  }

  lemma SessionsFrom(db: Db, disk: Disk, completers: Completers, workers: Workers)
    requires CompletionOk(db, disk, completers, workers)
    ensures SessionsOk(db.sessions, db.files, completers)
  {
    hide SessionsOk;
  }

  lemma PartsStay(sessions: Sessions, parts: Parts, chunks: Chunks)
    ensures PartsMove(sessions, parts, chunks, parts)
  {
  }

  lemma GiveBackKeeps(w: World, token: Id, databaseAnswers: bool)
    requires CompletionOk(w.db, w.disk, w.actors.completers, w.actors.workers)
      && PartsOk(w.db.sessions, w.db.parts, w.disk.chunks)
    requires InPhase(w, token, GiveBack(token, databaseAnswers))
    ensures var after := GiveBackNext(w, token, databaseAnswers);
      && CompletionOk(after.db, after.disk, after.actors.completers, after.actors.workers)
      && PartsOk(after.db.sessions, after.db.parts, after.disk.chunks)
  {
    hide CompletionOk, PartsOk, SessionsOk, Evolves, PartsMove, GiveBackNext;
    var after := GiveBackNext(w, token, databaseAnswers);
    GiveBackShape(w, token, databaseAnswers);
    SessionsFrom(w.db, w.disk, w.actors.completers, w.actors.workers);
    GiveBackMoves(w, token, databaseAnswers);
    PartsStay(w.db.sessions, w.db.parts, w.disk.chunks);
    StepBackKeeps(w.db, w.disk, w.actors.completers, w.actors.workers, token, after.actors.completers[token].phase,
      after.db);
  }

  lemma GiveBackShape(w: World, token: Id, databaseAnswers: bool)
    requires InPhase(w, token, GiveBack(token, databaseAnswers))
    ensures var after, c := GiveBackNext(w, token, databaseAnswers), w.actors.completers[token];
      && !c.phase.PublishedAs? && token in after.actors.completers && Idle(after.actors.completers[token].phase)
      && after.actors.completers == w.actors.completers[token := c.(phase := after.actors.completers[token].phase)]
      && after.actors.workers == w.actors.workers && after.disk == w.disk
      && after.db.files == w.db.files && after.db.jobs == w.db.jobs && after.db.parts == w.db.parts
  {
    hide RelinquishCompletion;
  }

  lemma GiveBackMoves(w: World, token: Id, databaseAnswers: bool)
    requires InPhase(w, token, GiveBack(token, databaseAnswers))
      && SessionsOk(w.db.sessions, w.db.files, w.actors.completers)
    ensures Evolves(w.db.sessions, GiveBackNext(w, token, databaseAnswers).db.sessions)
    ensures SessionsOk(GiveBackNext(w, token, databaseAnswers).db.sessions, w.db.files, w.actors.completers)
  {
    hide SessionsOk, Evolves, RelinquishCompletion;
    RowsStay(w.db.sessions);
    RelinquishMoves(w.db, w.actors.completers, w.actors.completers[token].session, token);
  }

  lemma DeleteMoves(db: Db, chunks: Chunks, id: Id, part: PartRef)
    ensures PartsMove(db.sessions, db.parts, chunks,
      Applied(db, DeletePartRow(db, id, part.number, part.storedName, false)).parts)
  {
    hide PartOk;
  }

  lemma DeleteMissingKeeps(w: World, token: Id)
    requires CompletionOk(w.db, w.disk, w.actors.completers, w.actors.workers)
      && PartsOk(w.db.sessions, w.db.parts, w.disk.chunks)
    requires InPhase(w, token, DeleteMissing(token))
    ensures var after := DeleteMissingNext(w, token);
      && CompletionOk(after.db, after.disk, after.actors.completers, after.actors.workers)
      && PartsOk(after.db.sessions, after.db.parts, after.disk.chunks)
  {
    hide CompletionOk, PartsOk, SessionsOk, Evolves, PartsMove, DeletePartRow;
    var c := w.actors.completers[token];
    SessionsFrom(w.db, w.disk, w.actors.completers, w.actors.workers);
    RowsStay(w.db.sessions);
    DeleteMoves(w.db, w.disk.chunks, c.session, c.phase.part);
    StepBackKeeps(w.db, w.disk, w.actors.completers, w.actors.workers, token, Stopped,
      Applied(w.db, DeletePartRow(w.db, c.session, c.phase.part.number, c.phase.part.storedName, false)));
  }

  // ----- The fenced commit

  function PublishedRow(s: Session, file: Id): Session {
    s.(status := Completed, fileId := Some(file), completionToken := None, leaseUntil := None)
  }

  lemma PublishSessions(sessions: Sessions, files: Files, files': Files, completers: Completers, id: Id, token: Id,
      c: Completer, file: Id)
    requires SessionsOk(sessions, files, completers) && Grows(files, files') && HoldsToken(sessions, id, token)
    requires Advances(completers, token, c) && c.session == id && file in files'
    requires files'[file].owner == sessions[id].owner && files'[file].size == sessions[id].layout.size
    ensures SessionsOk(sessions[id := PublishedRow(sessions[id], file)], files', completers[token := c])
  {
    SessionsKeepTheirFiles(sessions, files, files', completers);
    AdvanceKeepsSessions(sessions, files', completers, token, c);
    assert SessionOk(id, sessions[id], files', completers[token := c]);
    hide SessionsOk, CeilDiv;
    RowKeepsSessions(sessions, files', completers[token := c], id, PublishedRow(sessions[id], file));
  }

  lemma PublishOnce(sessions: Sessions, files: Files, completers: Completers, token: Id, c: Completer, file: Id)
    requires SessionsOk(sessions, files, completers) && PublishedOnce(sessions, completers)
    requires token in completers && HoldsToken(sessions, c.session, token) && Advances(completers, token, c)
    requires c.phase.PublishedAs? && c.phase.file == file
    ensures PublishedOnce(sessions[c.session := PublishedRow(sessions[c.session], file)], completers[token := c])
  {
    assert SessionOk(c.session, sessions[c.session], files, completers);
    hide SessionsOk, CeilDiv;
    var after := completers[token := c];
    forall t1, t2 | Rival(after, t1, t2)
      ensures t1 == t2
    {
      if t1 != token && t2 != token { assert Rival(completers, t1, t2); }
    }
  }

  lemma PublishFrozen(sessions: Sessions, parts: Parts, completers: Completers, token: Id, c: Completer, file: Id)
    requires FrozenOk(sessions, parts, completers) && c.session in sessions && c.phase.PublishedAs?
    ensures FrozenOk(sessions[c.session := PublishedRow(sessions[c.session], file)], parts, completers[token := c])
  {
    hide Accounts;
  }

  lemma PublishBuilt(sessions: Sessions, chunks: Chunks, completers: Completers, token: Id, c: Completer, file: Id)
    requires CompletersOk(sessions, chunks, completers) && c.session in sessions
    requires PhaseOk(sessions[c.session].layout, chunks, c.phase)
    ensures CompletersOk(sessions[c.session := PublishedRow(sessions[c.session], file)], chunks, completers[token := c])
  {
    hide PhaseOk;
  }

  lemma PublishStorage(files: Files, jobs: Jobs, disk: Disk, completers: Completers, workers: Workers,
                       files': Files, disk': Disk, file: Id, token: Id, c: Completer)
    requires StorageOk(files, jobs, disk, completers, workers) && token in completers
      && completers[token].phase.ReadyToCommit?
    requires Publishes(files, disk, files', disk', file, completers[token].phase.name)
    requires c.phase == PublishedAs(file, completers[token].phase.parts, completers[token].phase.bytes)
    ensures StorageOk(files', jobs, disk', completers[token := c], workers)
  {
    assert ObjectOk(token, completers[token].phase, files, disk);
  }

  lemma CommitShape(w: World, token: Id, file: Id)
    requires CompletionEnabled(w, Commit(token, file))
    requires CompletionOutcome(w.db, w.db.sessions[w.actors.completers[token].session].owner,
      w.actors.completers[token].session, token) == Published
    ensures var after, c := CommitNext(w, token, file), w.actors.completers[token];
      && after.db.sessions == w.db.sessions[c.session := PublishedRow(w.db.sessions[c.session], file)]
      && after.db.parts == w.db.parts && after.db.jobs == w.db.jobs
      && HoldsToken(w.db.sessions, c.session, token)
      && after.db.files
        == w.db.files[file := File(w.db.sessions[c.session].owner, c.phase.name, |c.phase.bytes|, ActiveFile)]
      && after.disk == w.disk.(owner := w.disk.owner[c.phase.name := OfFile(file)])
      && after.actors
        == w.actors.(completers :=
          w.actors.completers[token := c.(phase := PublishedAs(file, c.phase.parts, c.phase.bytes))])
  {
    hide FitsPlan;
  }

  lemma CommitPublishes(w: World, token: Id, file: Id)
    requires CompletionOk(w.db, w.disk, w.actors.completers, w.actors.workers)
      && CompletionEnabled(w, Commit(token, file))
    requires CompletionOutcome(w.db, w.db.sessions[w.actors.completers[token].session].owner,
      w.actors.completers[token].session, token) == Published
    ensures var after := CommitNext(w, token, file);
      CompletionOk(after.db, after.disk, after.actors.completers, after.actors.workers)
  {
    hide CommitNext, CompletionOutcome, SessionsOk, PublishedOnce, FrozenOk, CompletersOk, StorageOk, CompleteParts,
      PartsStored, Concat, Accounts;
    CommitShape(w, token, file);
    var after, c := CommitNext(w, token, file), w.actors.completers[token];
    var c' := c.(phase := PublishedAs(file, c.phase.parts, c.phase.bytes));
    CompleterHasSession(w.db, w.disk, w.actors.completers, w.actors.workers, token);
    PublishSessions(w.db.sessions, w.db.files, after.db.files, w.actors.completers, c.session, token, c', file);
    PublishOnce(w.db.sessions, w.db.files, w.actors.completers, token, c', file);
    PublishFrozen(w.db.sessions, w.db.parts, w.actors.completers, token, c', file);
    PublishBuilt(w.db.sessions, w.disk.chunks, w.actors.completers, token, c', file);
    PublishStorage(w.db.files, w.db.jobs, w.disk, w.actors.completers, w.actors.workers, after.db.files, after.disk,
      file, token, c');
  }

  lemma CommitKeeps(w: World, token: Id, file: Id)
    requires CompletionOk(w.db, w.disk, w.actors.completers, w.actors.workers)
      && CompletionEnabled(w, Commit(token, file))
    ensures var after := CommitNext(w, token, file);
      CompletionOk(after.db, after.disk, after.actors.completers, after.actors.workers)
  {
    var c := w.actors.completers[token];
    var outcome := CompletionOutcome(w.db, w.db.sessions[c.session].owner, c.session, token);
    if outcome == Published {
      CommitPublishes(w, token, file);
    } else {
      var phase := if outcome == LeaseLost then Stopped else GivingBack(None);
      hide CompletionOk, PhaseOk, Accounts, CompletionOutcome, CommitCompletion;
      CompleterHasSession(w.db, w.disk, w.actors.completers, w.actors.workers, token);
      IdleKeeps(w.db, w.disk, w.actors.completers, w.actors.workers, token, c.(phase := phase));
      DropObjectKeeps(w.db, w.disk, w.actors.completers[token := c.(phase := phase)], w.actors.workers, token,
        c.phase.name);
    }
  }

  lemma DropObjectKeeps(db: Db, disk: Disk, completers: Completers, workers: Workers, t: Id, name: Name)
    requires CompletionOk(db, disk, completers, workers) && OwnedBy(disk, name, OfCompleter(t))
    requires t in completers && Idle(completers[t].phase)
    ensures CompletionOk(db, disk.(objects := disk.objects - {name}), completers, workers)
  {
    hide SessionsOk, PublishedOnce, FrozenOk, CompletersOk, StorageOk;
    OwnedDropKeepsStorage(db.files, db.jobs, disk, completers, workers, t, name);
  }

  lemma HoldingKeepsLedger(db: Db, id: Id, token: Id, now: Time, leaseMs: nat)
    requires LedgerOk(db)
    ensures LedgerOk(Applied(db, ClaimCompletion(db, id, token, now, leaseMs)))
    ensures LedgerOk(Applied(db, RenewCompletionLease(db, id, token, now, leaseMs)))
    ensures LedgerOk(Applied(db, RelinquishCompletion(db, id, token)))
  {
    hide LedgerOk;
    if id in db.sessions && Open(db.sessions[id]) {
      var s := db.sessions[id];
      SameHoldingKeeps(db, id,
        s.(status := Completing, completionToken := Some(token), leaseUntil := Some(now + leaseMs),
          generation := s.generation + 1));
      SameHoldingKeeps(db, id, s.(leaseUntil := Some(now + leaseMs)));
      SameHoldingKeeps(db, id, s.(status := Uploading, completionToken := None, leaseUntil := None));
    }
  }

  lemma CompletionLedger(w: World, step: CompletionStep)
    requires Inv(w) && CompletionEnabled(w, step)
    ensures LedgerOk(CompletionNext(w, step).db)
  {
    if step.Commit? {
      var c := w.actors.completers[step.token];
      assert PhaseOk(w.db.sessions[c.session].layout, w.disk.chunks, c.phase);
      hide LedgerOk, SessionsOk, PublishedOnce, PartsOk, FrozenOk, CompletersOk, StorageOk, AttemptsOk, NewestKnown,
        ReadsOk, CommitCompletion;
      CommitCompletionKeeps(w.db, w.db.sessions[c.session].owner, c.session, step.token, step.file, c.phase.name,
        |c.phase.bytes|);
    } else {
      OtherCompletionLedger(w, step);
    }
  }

  lemma OtherCompletionLedger(w: World, step: CompletionStep)
    requires LedgerOk(w.db) && CompletionEnabled(w, step) && !step.Commit?
    ensures LedgerOk(CompletionNext(w, step).db)
  {
    hide LedgerOk, ClaimCompletion, RenewCompletionLease, RelinquishCompletion, DeletePartRow, IsPartRead,
      CompleteParts, Readable;
    match step
    case Claim(token, id, leaseMs) => HoldingKeepsLedger(w.db, id, token, w.clock, leaseMs);
    case Renew(token, leaseMs) => HoldingKeepsLedger(w.db, w.actors.completers[token].session, token, w.clock, leaseMs);
    case GiveBack(token, _) => HoldingKeepsLedger(w.db, w.actors.completers[token].session, token, w.clock, 0);
    case DeleteMissing(_) => PartsKeepLedger(w.db, CompletionNext(w, step).db);
    case _ =>
  }

  lemma CompletionFrame(w: World, step: CompletionStep)
    requires CompletionEnabled(w, step)
    ensures var after := CompletionNext(w, step);
      && after.db.jobs == w.db.jobs && after.disk.chunks == w.disk.chunks && after.clock == w.clock
      && after.actors == w.actors.(completers := after.actors.completers)
  {
    hide ClaimCompletion, RenewCompletionLease, RelinquishCompletion, DeletePartRow, IsPartRead, CompleteParts,
      Readable,
      CommitCompletion, CompletionOutcome;
    if step.Commit? { CommitTouches(w, step.token, step.file); }
  }

  lemma CommitTouches(w: World, token: Id, file: Id)
    requires CompletionEnabled(w, Commit(token, file))
    ensures var c := w.actors.completers[token];
      var after :=
        CommitCompletion(w.db, w.db.sessions[c.session].owner, c.session, token, file, c.phase.name, |c.phase.bytes|);
      after.jobs == w.db.jobs && after.parts == w.db.parts && SameUploads(w.db.sessions, after.sessions)
  {
    hide FitsPlan;
  }

  lemma CompletionUploads(w: World, step: CompletionStep)
    requires CompletionEnabled(w, step)
    ensures SameUploads(w.db.sessions, CompletionNext(w, step).db.sessions)
  {
    hide IsPartRead, CompleteParts, Readable, CommitCompletion, CompletionOutcome;
    if step.Commit? { CommitTouches(w, step.token, step.file); }
  }

  lemma UploadsKeepParts(sessions: Sessions, parts: Parts, chunks: Chunks, sessions': Sessions)
    requires PartsOk(sessions, parts, chunks) && SameUploads(sessions, sessions')
    ensures PartsOk(sessions', parts, chunks)
  {
    hide FitsLayout;
  }

  lemma UploadsKeepReads(now: Time, sessions: Sessions, actors: Actors, sessions': Sessions, actors': Actors)
    requires ReadsOk(now, sessions, actors) && SameUploads(sessions, sessions')
    requires actors' == actors.(completers := actors'.completers)
    ensures ReadsOk(now, sessions', actors')
  {
  }

  lemma RenewKeeps(w: World, token: Id, leaseMs: nat)
    requires CompletionOk(w.db, w.disk, w.actors.completers, w.actors.workers)
      && PartsOk(w.db.sessions, w.db.parts, w.disk.chunks)
    requires token in w.actors.completers
    ensures var db' :=
      Applied(w.db, RenewCompletionLease(w.db, w.actors.completers[token].session, token, w.clock, leaseMs));
      CompletionOk(db', w.disk, w.actors.completers, w.actors.workers)
  {
    var db' := Applied(w.db, RenewCompletionLease(w.db, w.actors.completers[token].session, token, w.clock, leaseMs));
    SessionsFrom(w.db, w.disk, w.actors.completers, w.actors.workers);
    PartsStay(w.db.sessions, w.db.parts, w.disk.chunks);
    RenewMoves(w.db, w.actors.completers, w.actors.completers[token].session, token, w.clock, leaseMs);
    hide CompletionOk, PartsOk, SessionsOk, Evolves, PartsMove, RenewCompletionLease;
    EvolveKeeps(w.db, w.disk, w.actors.completers, w.actors.workers, db');
  }

  lemma CompletionRows(w: World, step: CompletionStep)
    requires CompletionOk(w.db, w.disk, w.actors.completers, w.actors.workers)
      && PartsOk(w.db.sessions, w.db.parts, w.disk.chunks)
    requires CompletionEnabled(w, step)
    ensures var after := CompletionNext(w, step);
      CompletionOk(after.db, after.disk, after.actors.completers, after.actors.workers)
  {
    match step
    case Claim(token, id, leaseMs) =>
      hide CompletionOk, PartsOk, ClaimCompletion;
      if ClaimCompletion(w.db, id, token, w.clock, leaseMs).Some? { ClaimKeeps(w, token, id, leaseMs); }
    case Renew(token, leaseMs) => hide CompletionOk, PartsOk, RenewCompletionLease; RenewKeeps(w, token, leaseMs);
    case Freeze(token, rows, name) => hide *; FreezeKeeps(w, token, rows, name);
    case ReadPart(token) => hide CompletionOk, PartsOk, ReadPartNext; ReadPartKeeps(w, token);
    case AbortAssembly(token) =>
      hide CompletionOk, PartsOk, PhaseOk, ObjectOk, Accounts;
      CompleterHasSession(w.db, w.disk, w.actors.completers, w.actors.workers, token);
      IdleKeeps(w.db, w.disk, w.actors.completers, w.actors.workers, token,
        w.actors.completers[token].(phase := GivingBack(None)));
    case FinishAssembly(token, checksumMatches) =>
      hide CompletionOk, PartsOk, FinishNext;
      FinishKeeps(w, token, checksumMatches);
    case Commit(token, file) => hide CompletionOk, PartsOk, CommitNext; CommitKeeps(w, token, file);
    case GiveBack(token, answers) => hide CompletionOk, PartsOk, GiveBackNext; GiveBackKeeps(w, token, answers);
    case DeleteMissing(token) => hide CompletionOk, PartsOk, DeleteMissingNext; DeleteMissingKeeps(w, token);
  }

  lemma CompletionParts(w: World, step: CompletionStep)
    requires CompletionOk(w.db, w.disk, w.actors.completers, w.actors.workers)
      && PartsOk(w.db.sessions, w.db.parts, w.disk.chunks)
    requires CompletionEnabled(w, step)
    ensures var after := CompletionNext(w, step);
      PartsOk(after.db.sessions, after.db.parts, after.disk.chunks)
  {
    CompletionFrame(w, step);
    CompletionUploads(w, step);
    if step.DeleteMissing? {
      hide CompletionOk, PartsOk, DeleteMissingNext;
      DeleteMissingKeeps(w, step.token);
    } else {
      OnlyDeletionsTouchParts(w, step);
      hide CompletionOk, PartsOk, CompletionNext, SameUploads;
      UploadsKeepParts(w.db.sessions, w.db.parts, w.disk.chunks, CompletionNext(w, step).db.sessions);
    }
  }

  lemma OnlyDeletionsTouchParts(w: World, step: CompletionStep)
    requires CompletionEnabled(w, step) && !step.DeleteMissing?
    ensures CompletionNext(w, step).db.parts == w.db.parts
  {
    hide ClaimCompletion, RenewCompletionLease, RelinquishCompletion, IsPartRead, CompleteParts, Readable,
      CommitCompletion, CompletionOutcome;
    if step.Commit? { CommitTouches(w, step.token, step.file); }
  }

  lemma CompletionKeeps(w: World, step: CompletionStep)
    requires Inv(w) && CompletionEnabled(w, step)
    ensures Inv(CompletionNext(w, step))
  {
    var after := CompletionNext(w, step);
    CompletionLedger(w, step);
    CompletionFrame(w, step);
    CompletionUploads(w, step);
    hide CompletionNext, LedgerOk, SessionsOk, PublishedOnce, PartsOk, FrozenOk, CompletersOk, StorageOk, AttemptsOk,
      NewestKnown, ReadsOk,
      SameUploads, CompletionEnabled;
    CompletionRows(w, step);
    CompletionParts(w, step);
    UploadsKeepReads(w.clock, w.db.sessions, w.actors, after.db.sessions, after.actors);
  }
}
