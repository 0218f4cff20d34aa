/** What the stored bytes are worth: contents of published files, and the deletion outbox, over every run. */
module Integrity {
  import opened Wrappers
  import opened UploadParts
  import opened Tables
  import opened Machine
  import opened Ledger
  import opened Invariants
  import opened OneShotSteps
  import opened SessionSteps
  import opened CompletionSteps
  import opened OutboxSteps
  import opened Preservation
  import opened Safety

  // ----- The part list behind a publication

  /** While a session is COMPLETING no part row appears or changes; one disappears only as a reported missing pair. */
  lemma PartsWhileCompleting(w: World, step: Step, key: PartKey)
    requires Enabled(w, step) && key.session in w.db.sessions && w.db.sessions[key.session].status == Completing
    ensures key in Next(w, step).db.parts ==> key in w.db.parts && w.db.parts[key] == Next(w, step).db.parts[key]
    ensures key in w.db.parts && key !in Next(w, step).db.parts ==>
              && step.OnCompletion? && step.c.DeleteMissing? && step.c.token in w.actors.completers
              && w.actors.completers[step.c.token]
                   == Completer(key.session, Repairing(PartRef(key.number, w.db.parts[key].storedName)))
  {
    hide AccountNext, OneShotNext, SessionNext, CompletionNext, OutboxNext, AccountEnabled, OneShotEnabled,
      OutboxEnabled,
      SessionEnabled, CompletionEnabled;
    match step
    case OnAccount(a) => AccountFrame(w, a);
    case OnOneShot(o) => OneShotFrame(w, o);
    case OnSession(s) => SessionLeavesHeldParts(w, s, key);
    case OnCompletion(c) =>
      if c.DeleteMissing? { DeletesOnePair(w, c.token, key); } else { OnlyDeletionsTouchParts(w, c); }
    case OnOutbox(x) => OutboxParts(w, x);
  }

  lemma SessionLeavesHeldParts(w: World, step: SessionStep, key: PartKey)
    requires SessionEnabled(w, step) && key.session in w.db.sessions && w.db.sessions[key.session].status == Completing
    ensures key in SessionNext(w, step).db.parts <==> key in w.db.parts
    ensures key in w.db.parts ==> SessionNext(w, step).db.parts[key] == w.db.parts[key]
  {
    hide PartAccepted, CreateSession, ReleaseSession, RecoverStaleCompletion;
  }

  lemma DeletesOnePair(w: World, t: Id, key: PartKey)
    requires CompletionEnabled(w, DeleteMissing(t))
    ensures t in w.actors.completers && w.actors.completers[t].phase.Repairing?
    ensures var after, c := CompletionNext(w, DeleteMissing(t)).db.parts, w.actors.completers[t];
      && (key in after ==> key in w.db.parts && after[key] == w.db.parts[key])
      && (key in w.db.parts && key !in after ==>
            c == Completer(key.session, Repairing(PartRef(key.number, w.db.parts[key].storedName))))
  {
  }

  lemma OutboxParts(w: World, step: OutboxStep)
    requires OutboxEnabled(w, step)
    ensures OutboxNext(w, step).db.parts == w.db.parts
  {
    hide ClaimFileDeletion, SettleDone, SettleFailed, DeadLetterExhausted, RequeueDead, PruneFinished;
  }

  /** Between two moments at which one completer holds the session, its part rows only disappear. */
  lemma {:induction false} HeldPartsOnlyShrink(worlds: seq<World>, steps: seq<Step>, i: nat, j: nat, t: Id,
      key: PartKey)
    requires IsRun(worlds, steps) && i <= j < |worlds| && t in worlds[i].actors.completers
    requires worlds[i].actors.completers[t].session == key.session && HoldsToken(worlds[j].db.sessions, key.session, t)
    ensures key in worlds[j].db.parts ==>
      key in worlds[i].db.parts && worlds[i].db.parts[key] == worlds[j].db.parts[key]
  {
    hide Next, Enabled, Init;
    if i < j {
      HeldWithoutInterruption(worlds, steps, i, j - 1, j, t);
      HeldPartsOnlyShrink(worlds, steps, i, j - 1, t, key);
      PartsWhileCompleting(worlds[j - 1], steps[j - 1], key);
    }
  }

  ghost predicate FrozeAt(worlds: seq<World>, steps: seq<Step>, k: nat, t: Id, parts: seq<Part>)
    requires IsRun(worlds, steps)
  {
    && k < |steps| && steps[k].OnCompletion? && steps[k].c.Freeze? && steps[k].c.token == t && steps[k].c.rows == parts
    && t in worlds[k].actors.completers && IsPartRead(worlds[k].db, worlds[k].actors.completers[t].session, parts)
  }

  /** A list being assembled was read from the tables by its own completer, after its claim. */
  lemma {:induction false} ListWasRead(worlds: seq<World>, steps: seq<Step>, j: nat, t: Id) returns (k: nat)
    requires IsRun(worlds, steps) && j < |worlds| && t in worlds[j].actors.completers
      && HasParts(worlds[j].actors.completers[t].phase)
    ensures k < j && FrozeAt(worlds, steps, k, t, worlds[j].actors.completers[t].phase.parts)
  {
    hide Next, Enabled, IsPartRead;
    if j == 0 { assert false; }
    var w, step := worlds[j - 1], steps[j - 1];
    assert worlds[j] == Next(w, step) && Enabled(w, step);
    if step.OnCompletion? && step.c.Freeze? && step.c.token == t {
      k := j - 1;
      FreezeReads(w, step);
    } else {
      StepKeepsList(w, step, t);
      k := ListWasRead(worlds, steps, j - 1, t);
    }
  }

  lemma FreezeReads(w: World, step: Step)
    requires step.OnCompletion? && step.c.Freeze? && Enabled(w, step)
    ensures step.c.token in w.actors.completers
      && IsPartRead(w.db, w.actors.completers[step.c.token].session, step.c.rows)
    ensures step.c.token in Next(w, step).actors.completers
    ensures HasParts(Next(w, step).actors.completers[step.c.token].phase) ==>
              Next(w, step).actors.completers[step.c.token].phase.parts == step.c.rows
  {
    hide IsPartRead, CompleteParts;
  }

  /** Only its own freeze gives a completer a part list. */
  lemma StepKeepsList(w: World, step: Step, t: Id)
    requires Enabled(w, step) && t in Next(w, step).actors.completers
      && HasParts(Next(w, step).actors.completers[t].phase)
    requires !(step.OnCompletion? && step.c.Freeze? && step.c.token == t)
    ensures t in w.actors.completers && HasParts(w.actors.completers[t].phase)
    ensures w.actors.completers[t].phase.parts == Next(w, step).actors.completers[t].phase.parts
  {
    hide AccountNext, OneShotNext, SessionNext, CompletionNext, OutboxNext, AccountEnabled, OneShotEnabled,
      OutboxEnabled,
      SessionEnabled, CompletionEnabled;
    match step
    case OnAccount(a) => AccountFrame(w, a);
    case OnOneShot(o) => OneShotFrame(w, o);
    case OnSession(s) => SessionFrame(w, s);
    case OnCompletion(c) => CompletionKeepsList(w, c, t);
    case OnOutbox(x) => OutboxRows(w, x);
  }

  /** Whoever has a part list afterwards, except possibly `freezer`, had the same one before. */
  predicate ListsKept(completers: Completers, completers': Completers, freezer: Option<Id>) {
    forall t :: t in completers' && HasParts(completers'[t].phase) && freezer != Some(t) ==>
      t in completers && HasParts(completers[t].phase) && completers[t].phase.parts == completers'[t].phase.parts
  }

  lemma PhaseKeepsLists(w: World, token: Id, phase: Phase, freezer: Option<Id>)
    requires token in w.actors.completers
    requires HasParts(phase) && freezer != Some(token) ==>
               HasParts(w.actors.completers[token].phase) && w.actors.completers[token].phase.parts == phase.parts
    ensures ListsKept(w.actors.completers, w.WithPhase(token, phase).actors.completers, freezer)
  {
  }

  lemma ClaimKeepsLists(w: World, token: Id, id: Id, leaseMs: nat)
    ensures ListsKept(w.actors.completers, ClaimNext(w, token, id, leaseMs).actors.completers, None)
  {
    hide ClaimCompletion;
  }

  lemma FreezeKeepsLists(w: World, token: Id, rows: seq<Part>, name: Name)
    requires token in w.actors.completers
    ensures ListsKept(w.actors.completers, FreezeNext(w, token, rows, name).actors.completers, Some(token))
  {
    hide ListsKept, CompleteParts;
    PhaseKeepsLists(w, token, Assembling(rows, name, [], 0), Some(token));
    PhaseKeepsLists(w, token, GivingBack(None), Some(token));
  }

  lemma ReadPartKeepsLists(w: World, token: Id)
    requires InPhase(w, token, ReadPart(token))
    ensures ListsKept(w.actors.completers, ReadPartNext(w, token).actors.completers, None)
  {
    hide ListsKept, Readable;
    PhaseKeepsLists(w, token, ReadPartNext(w, token).actors.completers[token].phase, None);
  }

  lemma FinishKeepsLists(w: World, token: Id, checksumMatches: bool)
    requires CompletionEnabled(w, FinishAssembly(token, checksumMatches))
    ensures ListsKept(w.actors.completers, FinishNext(w, token, checksumMatches).actors.completers, None)
  {
    hide ListsKept;
    PhaseKeepsLists(w, token, FinishNext(w, token, checksumMatches).actors.completers[token].phase, None);
  }

  lemma CommitKeepsLists(w: World, token: Id, file: Id)
    requires CompletionEnabled(w, Commit(token, file))
    ensures ListsKept(w.actors.completers, CommitNext(w, token, file).actors.completers, None)
  {
    hide ListsKept, CommitCompletion, CompletionOutcome;
    PhaseKeepsLists(w, token, CommitNext(w, token, file).actors.completers[token].phase, None);
  }

  lemma CompletionKeepsList(w: World, step: CompletionStep, t: Id)
    requires CompletionEnabled(w, step) && t in CompletionNext(w, step).actors.completers
    requires HasParts(CompletionNext(w, step).actors.completers[t].phase) && !(step.Freeze? && step.token == t)
    ensures t in w.actors.completers && HasParts(w.actors.completers[t].phase)
    ensures w.actors.completers[t].phase.parts == CompletionNext(w, step).actors.completers[t].phase.parts
  {
    hide ClaimNext, FreezeNext, ReadPartNext, FinishNext, CommitNext, RenewCompletionLease, RelinquishCompletion,
      DeletePartRow, IsPartRead, CompleteParts, Readable;
    match step
    case Claim(token, id, leaseMs) => ClaimKeepsLists(w, token, id, leaseMs);
    case Freeze(token, rows, name) => FreezeKeepsLists(w, token, rows, name);
    case ReadPart(token) => ReadPartKeepsLists(w, token);
    case FinishAssembly(token, checksumMatches) => FinishKeepsLists(w, token, checksumMatches);
    case Commit(token, file) => CommitKeepsLists(w, token, file);
    case _ =>
  }

  // ----- The final checksum

  /** Only a finish whose checksum matched makes a completer ready, with the list, name and bytes it had assembled. */
  predicate Finishes(w: World, step: Step, t: Id, ready: Phase) {
    && step == OnCompletion(FinishAssembly(t, true)) && t in w.actors.completers && ready.ReadyToCommit?
    && w.actors.completers[t].phase == Assembling(ready.parts, ready.name, ready.bytes, |ready.parts|)
  }

  lemma ReadyOnlyByFinish(w: World, step: Step, t: Id)
    requires Enabled(w, step) && t in Next(w, step).actors.completers
    requires Next(w, step).actors.completers[t].phase.ReadyToCommit?
    ensures t in w.actors.completers
    ensures w.actors.completers[t].phase == Next(w, step).actors.completers[t].phase
         || Finishes(w, step, t, Next(w, step).actors.completers[t].phase)
  {
    hide AccountNext, OneShotNext, SessionNext, CompletionNext, OutboxNext, AccountEnabled, OneShotEnabled,
      OutboxEnabled, SessionEnabled, CompletionEnabled;
    match step
    case OnAccount(a) => AccountFrame(w, a);
    case OnOneShot(o) => OneShotFrame(w, o);
    case OnSession(s) => SessionFrame(w, s);
    case OnCompletion(c) => CompletionReadyOnlyByFinish(w, c, t);
    case OnOutbox(x) => OutboxRows(w, x);
  }

  /** Whoever is ready afterwards was ready before, unless this step is its finish. */
  predicate NoneGetsReady(completers: Completers, completers': Completers) {
    forall t :: t in completers' && completers'[t].phase.ReadyToCommit? ==>
      t in completers && completers[t].phase == completers'[t].phase
  }

  lemma PhaseMakesNoneReady(w: World, token: Id, phase: Phase)
    requires token in w.actors.completers && !phase.ReadyToCommit?
    ensures NoneGetsReady(w.actors.completers, w.WithPhase(token, phase).actors.completers)
  {
  }

  lemma ClaimMakesNoneReady(w: World, token: Id, id: Id, leaseMs: nat)
    ensures NoneGetsReady(w.actors.completers, ClaimNext(w, token, id, leaseMs).actors.completers)
  {
    hide ClaimCompletion;
  }

  lemma CommitMakesNoneReady(w: World, token: Id, file: Id)
    requires CompletionEnabled(w, Commit(token, file))
    ensures NoneGetsReady(w.actors.completers, CommitNext(w, token, file).actors.completers)
  {
    hide NoneGetsReady, CommitCompletion, CompletionOutcome;
    PhaseMakesNoneReady(w, token, CommitNext(w, token, file).actors.completers[token].phase);
  }

  lemma FreezeMakesNoneReady(w: World, token: Id, rows: seq<Part>, name: Name)
    requires token in w.actors.completers
    ensures NoneGetsReady(w.actors.completers, FreezeNext(w, token, rows, name).actors.completers)
  {
    hide NoneGetsReady, CompleteParts;
    PhaseMakesNoneReady(w, token, FreezeNext(w, token, rows, name).actors.completers[token].phase);
  }

  lemma ReadPartMakesNoneReady(w: World, token: Id)
    requires InPhase(w, token, ReadPart(token))
    ensures NoneGetsReady(w.actors.completers, ReadPartNext(w, token).actors.completers)
  {
    hide NoneGetsReady, Readable;
    PhaseMakesNoneReady(w, token, ReadPartNext(w, token).actors.completers[token].phase);
  }

  lemma GiveBackMakesNoneReady(w: World, token: Id, databaseAnswers: bool)
    requires InPhase(w, token, GiveBack(token, databaseAnswers))
    ensures NoneGetsReady(w.actors.completers, GiveBackNext(w, token, databaseAnswers).actors.completers)
  {
    hide NoneGetsReady, RelinquishCompletion;
    PhaseMakesNoneReady(w, token, GiveBackNext(w, token, databaseAnswers).actors.completers[token].phase);
  }

  lemma RepairMakesNoneReady(w: World, token: Id)
    requires InPhase(w, token, DeleteMissing(token))
    ensures NoneGetsReady(w.actors.completers, DeleteMissingNext(w, token).actors.completers)
  {
    hide NoneGetsReady, DeletePartRow;
    PhaseMakesNoneReady(w, token, Stopped);
  }

  lemma FinishChecks(w: World, token: Id, checksumMatches: bool, t: Id)
    requires CompletionEnabled(w, FinishAssembly(token, checksumMatches))
    requires t in FinishNext(w, token, checksumMatches).actors.completers
    requires FinishNext(w, token, checksumMatches).actors.completers[t].phase.ReadyToCommit?
    ensures var ready := FinishNext(w, token, checksumMatches).actors.completers[t].phase;
      t in w.actors.completers && (w.actors.completers[t].phase == ready
        || Finishes(w, OnCompletion(FinishAssembly(token, checksumMatches)), t, ready))
  {
  }

  lemma CompletionReadyOnlyByFinish(w: World, step: CompletionStep, t: Id)
    requires CompletionEnabled(w, step) && t in CompletionNext(w, step).actors.completers
    requires CompletionNext(w, step).actors.completers[t].phase.ReadyToCommit?
    ensures t in w.actors.completers
    ensures w.actors.completers[t].phase == CompletionNext(w, step).actors.completers[t].phase
         || Finishes(w, OnCompletion(step), t, CompletionNext(w, step).actors.completers[t].phase)
  {
    hide ClaimNext, CommitNext, FinishNext, FreezeNext, ReadPartNext, GiveBackNext, DeleteMissingNext, Finishes,
      RenewCompletionLease, IsPartRead;
    match step
    case Claim(token, id, leaseMs) => ClaimMakesNoneReady(w, token, id, leaseMs);
    case Commit(token, file) => CommitMakesNoneReady(w, token, file);
    case Freeze(token, rows, name) => FreezeMakesNoneReady(w, token, rows, name);
    case ReadPart(token) => ReadPartMakesNoneReady(w, token);
    case GiveBack(token, databaseAnswers) => GiveBackMakesNoneReady(w, token, databaseAnswers);
    case DeleteMissing(token) => RepairMakesNoneReady(w, token);
    case FinishAssembly(token, checksumMatches) => FinishChecks(w, token, checksumMatches, t);
    case _ =>
  }

  /** A completer that is ready to commit finished its assembly earlier, and the final checksum matched. */
  lemma {:induction false} AssemblyWasChecked(worlds: seq<World>, steps: seq<Step>, j: nat, t: Id) returns (m: nat)
    requires IsRun(worlds, steps) && j < |worlds| && t in worlds[j].actors.completers
    requires worlds[j].actors.completers[t].phase.ReadyToCommit?
    ensures m < j && Finishes(worlds[m], steps[m], t, worlds[j].actors.completers[t].phase)
  {
    hide Next, Enabled, Finishes;
    if j == 0 { assert false; }
    var w, step := worlds[j - 1], steps[j - 1];
    assert worlds[j] == Next(w, step) && Enabled(w, step);
    ReadyOnlyByFinish(w, step, t);
    if Finishes(w, step, t, worlds[j].actors.completers[t].phase) {
      m := j - 1;
    } else {
      m := AssemblyWasChecked(worlds, steps, j - 1, t);
    }
  }

  /**
   A checksum that differs ends the attempt: nothing is stored, no table changes, and the session is handed back next.
   */
  lemma MismatchIsHandedBack(w: World, t: Id)
    requires Enabled(w, OnCompletion(FinishAssembly(t, false)))
    ensures var after := Next(w, OnCompletion(FinishAssembly(t, false)));
      && t in after.actors.completers && after.actors.completers[t].phase == GivingBack(None)
      && after.disk == w.disk && after.db == w.db
  {
  }

  /** Of complete assemblies exactly those whose checksum matches become ready, with their object stored. */
  lemma ReadyExactlyIfChecked(w: World, t: Id, checksumMatches: bool)
    requires Inv(w) && Enabled(w, OnCompletion(FinishAssembly(t, checksumMatches)))
    ensures t in w.actors.completers
    ensures var before := w.actors.completers[t].phase;
      var after := Next(w, OnCompletion(FinishAssembly(t, checksumMatches)));
      && before.Assembling? && t in after.actors.completers
      && (after.actors.completers[t].phase.ReadyToCommit? <==> checksumMatches)
      && (checksumMatches ==> after.disk.objects == w.disk.objects[before.name := before.bytes])
  {
    AssemblySizeMatches(w, t);
    hide Inv;
  }

  /**
   The story behind every published upload: its completer read a complete part list after its own claim, assembled
   it and found the final checksum to match, held the session at every moment from that read to the commit, and
   every row still present is one it assembled.
   */
  lemma PublicationStory(worlds: seq<World>, steps: seq<Step>, j: nat, t: Id, file: Id) returns (k: nat, m: nat)
    requires IsRun(worlds, steps) && j < |steps| && steps[j] == OnCompletion(Commit(t, file))
    requires t in worlds[j].actors.completers
      && HoldsToken(worlds[j].db.sessions, worlds[j].actors.completers[t].session, t)
    ensures var c := worlds[j].actors.completers[t];
      && c.phase.ReadyToCommit? && k < m < j
      && FrozeAt(worlds, steps, k, t, c.phase.parts) && Finishes(worlds[m], steps[m], t, c.phase)
      && c.session in worlds[j].db.sessions
      && BuiltFrom(worlds[j].db.sessions[c.session].layout, worlds[j].disk.chunks, c.phase.parts, c.phase.bytes)
      && Accounts(worlds[j].db.parts, c.session, c.phase.parts)
      && forall n :: k <= n <= j ==> HoldsToken(worlds[n].db.sessions, c.session, t)
  {
    var w := worlds[j];
    var c := w.actors.completers[t];
    assert Enabled(w, steps[j]);
    assert c.phase.ReadyToCommit?;
    hide Next, Enabled, Init, HoldsToken, FrozeAt;
    m := AssemblyWasChecked(worlds, steps, j, t);
    k := ListWasRead(worlds, steps, m, t);
    ReachableOk(worlds, steps, j);
    CompleterInSession(w, t);
    ListIsCurrent(w, t);
    FrozeKnown(worlds, steps, k, t, c.phase.parts);
    CompleterStays(worlds, steps, k, j, t);
    forall n | k <= n <= j ensures HoldsToken(worlds[n].db.sessions, c.session, t) {
      HeldWithoutInterruption(worlds, steps, k, n, j, t);
    }
  }

  lemma FrozeKnown(worlds: seq<World>, steps: seq<Step>, k: nat, t: Id, parts: seq<Part>)
    requires IsRun(worlds, steps) && FrozeAt(worlds, steps, k, t, parts)
    ensures k < |steps| && t in worlds[k].actors.completers
  {
  }

  lemma ListIsCurrent(w: World, t: Id)
    requires Inv(w) && t in w.actors.completers && HasParts(w.actors.completers[t].phase)
    requires HoldsToken(w.db.sessions, w.actors.completers[t].session, t)
    ensures Accounts(w.db.parts, w.actors.completers[t].session, w.actors.completers[t].phase.parts)
  {
    hide LedgerOk, SessionsOk, PublishedOnce, PartsOk, CompletersOk, StorageOk, AttemptsOk, NewestKnown, ReadsOk;
  }

  /** The byte count of an assembly that read every part never differs from the declared upload size. */
  lemma AssemblySizeMatches(w: World, t: Id)
    requires Inv(w) && t in w.actors.completers && w.actors.completers[t].phase.Assembling?
    requires w.actors.completers[t].phase.next == |w.actors.completers[t].phase.parts|
    ensures w.actors.completers[t].session in w.db.sessions
    ensures |w.actors.completers[t].phase.bytes| == w.db.sessions[w.actors.completers[t].session].layout.size
  {
    hide Inv;
    var c := w.actors.completers[t];
    CompleterInSession(w, t);
    CompleterLayout(w, t);
    var parts := c.phase.parts;
    assert parts[..|parts|] == parts;
    AssembledSize(w.db.sessions[c.session].layout, parts, Contents(parts, w.disk.chunks));
  }

  lemma CompleterLayout(w: World, t: Id)
    requires Inv(w) && t in w.actors.completers && w.actors.completers[t].session in w.db.sessions
    ensures w.db.sessions[w.actors.completers[t].session].layout.Valid()
  {
    hide LedgerOk, PublishedOnce, PartsOk, FrozenOk, CompletersOk, StorageOk, AttemptsOk, NewestKnown, ReadsOk, CeilDiv;
    var id := w.actors.completers[t].session;
    assert SessionOk(id, w.db.sessions[id], w.db.files, w.actors.completers);
  }

  /**
   At every later moment the published file has the declared size, and while it is ACTIVE its object can be
   read and is the concatenation of a complete part list.
   */
  lemma PublishedContent(worlds: seq<World>, steps: seq<Step>, i: nat, t: Id)
    requires IsRun(worlds, steps) && i < |worlds| && t in worlds[i].actors.completers
    requires worlds[i].actors.completers[t].phase.PublishedAs?
    ensures var w, c := worlds[i], worlds[i].actors.completers[t];
      && c.session in w.db.sessions && w.db.sessions[c.session].fileId == Some(c.phase.file)
      && BuiltFrom(w.db.sessions[c.session].layout, w.disk.chunks, c.phase.parts, c.phase.bytes)
      && c.phase.file in w.db.files
      && w.db.files[c.phase.file].owner == w.db.sessions[c.session].owner
      && w.db.files[c.phase.file].size == |c.phase.bytes|
      && (w.db.files[c.phase.file].status == ActiveFile ==>
            var name := w.db.files[c.phase.file].storedName;
            name in w.disk.objects && w.disk.objects[name] == c.phase.bytes)
  {
    hide Inv, IsRun;
    var w := worlds[i];
    var c := w.actors.completers[t];
    ReachableOk(worlds, steps, i);
    CompleterInSession(w, t);
    PublicationRecorded(w, t);
    FileObjects(w, c.phase.file);
    PublishedObject(w, t);
  }

  lemma PublicationRecorded(w: World, t: Id)
    requires Inv(w) && t in w.actors.completers && w.actors.completers[t].phase.PublishedAs?
    ensures var c := w.actors.completers[t];
      && c.session in w.db.sessions && w.db.sessions[c.session].fileId == Some(c.phase.file)
      && c.phase.file in w.db.files
      && w.db.files[c.phase.file].owner == w.db.sessions[c.session].owner
      && w.db.files[c.phase.file].size == w.db.sessions[c.session].layout.size
  {
    hide LedgerOk, PartsOk, FrozenOk, CompletersOk, StorageOk, AttemptsOk, NewestKnown, ReadsOk, CeilDiv;
    var id := w.actors.completers[t].session;
    assert SessionOk(id, w.db.sessions[id], w.db.files, w.actors.completers);
  }

  lemma FileObjects(w: World, f: Id)
    requires Inv(w) && f in w.db.files
    ensures FileOk(f, w.db.files[f], w.db.jobs, w.disk)
  {
    hide LedgerOk, SessionsOk, PublishedOnce, PartsOk, FrozenOk, CompletersOk, AttemptsOk, NewestKnown, ReadsOk;
    hide JobsOk, WorkersOk, AssembledOk, FileOk;
  }

  lemma PublishedObject(w: World, t: Id)
    requires Inv(w) && t in w.actors.completers
    ensures ObjectOk(t, w.actors.completers[t].phase, w.db.files, w.disk)
  {
    hide LedgerOk, SessionsOk, PublishedOnce, PartsOk, FrozenOk, CompletersOk, AttemptsOk, NewestKnown, ReadsOk;
    hide JobsOk, WorkersOk, FilesOk, ObjectOk;
  }

  // ----- Files and their deletion

  /** Nobody ever removes the object of an ACTIVE file, and no deleted object is forgotten. */
  lemma NoObjectIsLost(worlds: seq<World>, steps: seq<Step>, i: nat, f: Id)
    requires IsRun(worlds, steps) && i < |worlds| && f in worlds[i].db.files
    ensures var file, w := worlds[i].db.files[f], worlds[i];
      && (file.status == ActiveFile ==>
        file.storedName in w.disk.objects && |w.disk.objects[file.storedName]| == file.size)
      && (file.status == DeletedFile && file.storedName in w.disk.objects ==>
            f in w.db.jobs && (w.db.jobs[f].status == Queued || w.db.jobs[f].status == Dead))
  {
    hide Inv, IsRun;
    ReachableOk(worlds, steps, i);
    FileObjects(worlds[i], f);
  }

  /** File rows are never removed; they only ever turn from ACTIVE to DELETED. */
  ghost predicate FilesFollow(files: Files, files': Files) {
    forall f :: f in files ==> f in files' && (files'[f] == files[f] || files'[f] == files[f].(status := DeletedFile))
  }

  /** No step brings back the object of an existing file. */
  ghost predicate ObjectsFollow(files: Files, disk: Disk, disk': Disk) {
    forall f :: f in files && files[f].storedName !in disk.objects ==> files[f].storedName !in disk'.objects
  }

  lemma OneShotFollows(w: World, step: OneShotStep)
    requires OneShotEnabled(w, step) && FilesOk(w.db.files, w.db.jobs, w.disk)
    ensures FilesFollow(w.db.files, OneShotNext(w, step).db.files)
    ensures ObjectsFollow(w.db.files, w.disk, OneShotNext(w, step).disk)
  {
    OneShotFiles(w, step);
    hide CreateReservation, RenewReservation, CommitOneShot, CommitUndeclared, ReleaseReservation, OneShotOutcome,
      UndeclaredOutcome;
  }

  lemma CompletionFollows(w: World, step: CompletionStep)
    requires CompletionEnabled(w, step) && FilesOk(w.db.files, w.db.jobs, w.disk)
    requires step.FinishAssembly? ==>
               step.token in w.actors.completers
                 && ObjectOk(step.token, w.actors.completers[step.token].phase, w.db.files, w.disk)
    ensures FilesFollow(w.db.files, CompletionNext(w, step).db.files)
    ensures ObjectsFollow(w.db.files, w.disk, CompletionNext(w, step).disk)
  {
    hide ClaimCompletion, RenewCompletionLease, RelinquishCompletion, DeletePartRow, CompletionOutcome,
      IsPartRead, CompleteParts, Readable, FitsPlan;
    match step
    case Commit(token, file) => hide CommitCompletion, FilesOk; CommitAddsFile(w, token, file);
    case FinishAssembly(_, _) => hide CommitCompletion;
    case _ => hide CommitCompletion, FilesOk, ObjectOk;
  }

  lemma CommitAddsFile(w: World, token: Id, file: Id)
    requires CompletionEnabled(w, Commit(token, file))
    ensures var c := w.actors.completers[token];
      var after :=
        CommitCompletion(w.db, w.db.sessions[c.session].owner, c.session, token, file, c.phase.name, |c.phase.bytes|);
      FilesFollow(w.db.files, after.files)
  {
    hide FitsPlan;
  }

  lemma OutboxFollows(w: World, step: OutboxStep)
    requires OutboxEnabled(w, step)
    ensures FilesFollow(w.db.files, OutboxNext(w, step).db.files)
    ensures ObjectsFollow(w.db.files, w.disk, OutboxNext(w, step).disk)
  {
    hide ClaimFileDeletion, SettleDone, SettleFailed, DeadLetterExhausted, RequeueDead, PruneFinished;
  }

  lemma StepFollowsFiles(w: World, step: Step)
    requires Inv(w) && Enabled(w, step)
    ensures FilesFollow(w.db.files, Next(w, step).db.files)
    ensures ObjectsFollow(w.db.files, w.disk, Next(w, step).disk)
  {
    assert FilesOk(w.db.files, w.db.jobs, w.disk);
    if step.OnCompletion? && step.c.FinishAssembly? { PublishedObject(w, step.c.token); }
    hide Inv, ObjectOk, FilesOk, AccountNext, OneShotNext, SessionNext, CompletionNext, OutboxNext,
      AccountEnabled, OneShotEnabled, SessionEnabled, CompletionEnabled, OutboxEnabled;
    match step
    case OnAccount(a) => AccountFrame(w, a);
    case OnOneShot(o) => OneShotFollows(w, o);
    case OnSession(s) => SessionFrame(w, s);
    case OnCompletion(c) => CompletionFollows(w, c);
    case OnOutbox(x) => OutboxFollows(w, x);
  }

  /** A deleted file stays deleted, and bytes once gone stay gone. */
  lemma {:induction false} DeletionIsFinal(worlds: seq<World>, steps: seq<Step>, i: nat, j: nat, f: Id)
    requires IsRun(worlds, steps) && i <= j < |worlds| && f in worlds[i].db.files
    ensures f in worlds[j].db.files
      && worlds[j].db.files[f].(status := worlds[i].db.files[f].status) == worlds[i].db.files[f]
    ensures worlds[i].db.files[f].status == DeletedFile ==> worlds[j].db.files[f].status == DeletedFile
    ensures worlds[i].db.files[f].storedName !in worlds[i].disk.objects ==>
      worlds[j].db.files[f].storedName !in worlds[j].disk.objects
  {
    hide Inv, Next, Enabled, Init;
    if i < j {
      DeletionIsFinal(worlds, steps, i, j - 1, f);
      ReachableOk(worlds, steps, j - 1);
      StepFollowsFiles(worlds[j - 1], steps[j - 1]);
    }
  }

  ghost predicate Refunds(w: World, step: Step, f: Id) {
    step.OnOutbox? && step.x.SoftDelete? && step.x.file == f && SoftDeleteFile(w.db, step.x.user, f, w.clock).Some?
  }

  /** Each file is refunded at most once over a whole run. */
  lemma RefundedOnce(worlds: seq<World>, steps: seq<Step>, i: nat, j: nat, f: Id)
    requires IsRun(worlds, steps) && i <= j < |steps|
    requires Refunds(worlds[i], steps[i], f) && Refunds(worlds[j], steps[j], f)
    ensures i == j
  {
    if i < j {
      assert worlds[i + 1] == Next(worlds[i], steps[i]);
      assert worlds[i + 1].db.files[f].status == DeletedFile;
      DeletionIsFinal(worlds, steps, i + 1, j, f);
    }
  }

  predicate IsDeleted(files: Files, f: Id) {
    f in files && files[f].status == DeletedFile
  }

  /** The only step that deletes a file is the one that refunds it. */
  lemma DeletionIsARefund(w: World, step: Step, f: Id)
    requires Enabled(w, step) && IsDeleted(Next(w, step).db.files, f) && !IsDeleted(w.db.files, f)
    ensures Refunds(w, step, f)
  {
    hide AccountNext, OneShotNext, SessionNext, CompletionNext, OutboxNext, AccountEnabled, OneShotEnabled,
      OutboxEnabled,
      SessionEnabled, CompletionEnabled;
    match step
    case OnAccount(a) => AccountFrame(w, a);
    case OnOneShot(o) => OneShotFiles(w, o);
    case OnSession(s) => SessionFrame(w, s);
    case OnCompletion(c) => CompletionDeletesNothing(w, c, f);
    case OnOutbox(x) => if x.SoftDelete? { SoftDeletesOne(w, x, f); } else { OutboxFrame(w, x); }
  }

  lemma CompletionDeletesNothing(w: World, step: CompletionStep, f: Id)
    requires CompletionEnabled(w, step)
    ensures IsDeleted(CompletionNext(w, step).db.files, f) ==> IsDeleted(w.db.files, f)
  {
    hide ClaimCompletion, RenewCompletionLease, RelinquishCompletion, DeletePartRow, CompletionOutcome,
      IsPartRead, CompleteParts, Readable, FitsPlan;
    match step
    case Commit(token, file) =>
      hide CommitCompletion;
      var c := w.actors.completers[token];
      CommitDeletesNothing(w.db, w.db.sessions[c.session].owner, c.session, token, file, c.phase.name, |c.phase.bytes|,
        f);
    case _ => hide CommitNext, CommitCompletion;
  }

  lemma CommitDeletesNothing(db: Db, user: Id, id: Id, token: Id, file: Id, name: Name, size: nat, f: Id)
    ensures IsDeleted(CommitCompletion(db, user, id, token, file, name, size).files, f) ==> IsDeleted(db.files, f)
  {
    hide FitsPlan;
  }

  lemma SoftDeletesOne(w: World, x: OutboxStep, f: Id)
    requires x.SoftDelete? && OutboxEnabled(w, x)
    requires IsDeleted(OutboxNext(w, x).db.files, f) && !IsDeleted(w.db.files, f)
    ensures Refunds(w, OnOutbox(x), f)
  {
  }

  /** And every deleted file has been refunded: with the lemma before, exactly once. */
  lemma {:induction false} DeletedWasRefunded(worlds: seq<World>, steps: seq<Step>, j: nat, f: Id) returns (i: nat)
    requires IsRun(worlds, steps) && j < |worlds| && IsDeleted(worlds[j].db.files, f)
    ensures i < j && Refunds(worlds[i], steps[i], f)
  {
    hide Init, Enabled, Next, Refunds, IsDeleted;
    NothingDeletedYet(worlds[0], f);
    i := j - 1;
    var w, step := worlds[i], steps[i];
    assert Enabled(w, step) && worlds[j] == Next(w, step);
    if IsDeleted(w.db.files, f) {
      i := DeletedWasRefunded(worlds, steps, j - 1, f);
    } else {
      DeletionIsARefund(w, step, f);
    }
  }

  lemma NothingDeletedYet(w: World, f: Id)
    requires Init(w)
    ensures !IsDeleted(w.db.files, f)
  {
  }

  /** A worker reported DONE only once the object was gone, and it is gone for good. */
  lemma DoneMeansGone(worlds: seq<World>, steps: seq<Step>, i: nat, j: nat, f: Id)
    requires IsRun(worlds, steps) && i <= j < |worlds| && f in worlds[i].db.jobs && worlds[i].db.jobs[f].status == Done
    ensures f in worlds[j].db.files && worlds[j].db.files[f].storedName == worlds[i].db.jobs[f].storedName
    ensures worlds[i].db.jobs[f].storedName !in worlds[j].disk.objects
  {
    ReachableOk(worlds, steps, i);
    DoneIsGone(worlds[i], f);
    hide IsRun, Inv;
    DeletionIsFinal(worlds, steps, i, j, f);
  }

  lemma DoneIsGone(w: World, f: Id)
    requires Inv(w) && f in w.db.jobs && w.db.jobs[f].status == Done
    ensures f in w.db.files && w.db.files[f].storedName == w.db.jobs[f].storedName
      && w.db.jobs[f].storedName !in w.disk.objects
  {
    hide LedgerOk, SessionsOk, PublishedOnce, PartsOk, FrozenOk, CompletersOk, AttemptsOk, NewestKnown, ReadsOk;
    hide FilesOk, WorkersOk, AssembledOk;
  }

  /** `storageUsed` falls only by the refund of a file that was ACTIVE, and by exactly its size. */
  lemma UsedFallsOnlyByRefund(w: World, step: Step, u: Id)
    requires Inv(w) && Enabled(w, step) && u in w.db.users && u in Next(w, step).db.users
    requires Next(w, step).db.users[u].storageUsed < w.db.users[u].storageUsed
    ensures step.OnOutbox? && step.x.SoftDelete? && Refunds(w, step, step.x.file) && step.x.user == u
    ensures var f := step.x.file;
      && f in w.db.files && w.db.files[f].owner == u && w.db.files[f].status == ActiveFile
      && Next(w, step).db.users[u].storageUsed == w.db.users[u].storageUsed - w.db.files[f].size
  {
    hide Inv, ReadsOk, LedgerOk, FitsPlan, AccountNext, OneShotNext, SessionNext, CompletionNext,
      AccountEnabled, OneShotEnabled, SessionEnabled, CompletionEnabled;
    LedgerPart(w);
    match step
    case OnAccount(a) => AccountUsed(w, a, u);
    case OnOneShot(o) => OneShotUsed(w, o, u);
    case OnSession(s) => SessionUsed(w, s, u);
    case OnCompletion(c) => CompletionUsed(w, c, u);
    case OnOutbox(x) =>
      if x.SoftDelete? {
        hide SoftDeleteFile;
        if SoftDeleteFile(w.db, x.user, x.file, w.clock).Some? { DeleteRefunds(w.db, x.user, x.file, w.clock); }
      } else {
        OutboxAccounts(w, x);
        hide OutboxNext;
      }
  }

  lemma AccountUsed(w: World, step: AccountStep, u: Id)
    requires AccountEnabled(w, step) && u in w.db.users
    ensures u in AccountNext(w, step).db.users
      && AccountNext(w, step).db.users[u].storageUsed == w.db.users[u].storageUsed
  {
    hide FitsPlan;
  }

  lemma OneShotUsed(w: World, step: OneShotStep, u: Id)
    requires OneShotEnabled(w, step) && u in w.db.users
    ensures u in OneShotNext(w, step).db.users
      && OneShotNext(w, step).db.users[u].storageUsed >= w.db.users[u].storageUsed
  {
    hide FitsPlan;
  }

  lemma SessionUsed(w: World, step: SessionStep, u: Id)
    requires SessionEnabled(w, step) && u in w.db.users
    ensures u in SessionNext(w, step).db.users
      && SessionNext(w, step).db.users[u].storageUsed == w.db.users[u].storageUsed
  {
    hide FitsPlan, PartAccepted;
  }

  lemma CompletionUsed(w: World, step: CompletionStep, u: Id)
    requires CompletionEnabled(w, step) && u in w.db.users
    ensures u in CompletionNext(w, step).db.users
      && CompletionNext(w, step).db.users[u].storageUsed >= w.db.users[u].storageUsed
  {
    hide FitsPlan, IsPartRead, CompleteParts, Readable;
  }
}
