/** Where stored bytes come from: every chunk and every object is what one step of the run wrote. */
module Provenance {
  import opened UploadParts
  import opened Tables
  import opened Machine
  import opened Invariants
  import opened OneShotSteps
  import opened SessionSteps
  import opened CompletionSteps
  import opened OutboxSteps
  import opened Preservation
  import opened Safety
  import opened Integrity

  // ----- Chunks

  lemma StepWritesChunk(w: World, step: Step, name: Name)
    requires Enabled(w, step) && name in Next(w, step).disk.chunks
    ensures (name in w.disk.chunks && w.disk.chunks[name] == Next(w, step).disk.chunks[name])
         || step == OnSession(WriteChunk(name, Next(w, step).disk.chunks[name]))
  {
    hide AccountNext, OneShotNext, SessionNext, CompletionNext, OutboxNext, AccountEnabled, OneShotEnabled,
      OutboxEnabled, SessionEnabled, CompletionEnabled;
    match step
    case OnAccount(a) => AccountFrame(w, a);
    case OnOneShot(o) => OneShotFrame(w, o);
    case OnSession(s) => SessionWritesChunk(w, s, name);
    case OnCompletion(c) => CompletionFrame(w, c);
    case OnOutbox(x) => OutboxKeepsChunks(w, x);
  }

  lemma SessionWritesChunk(w: World, step: SessionStep, name: Name)
    requires SessionEnabled(w, step) && name in SessionNext(w, step).disk.chunks
    ensures (name in w.disk.chunks && w.disk.chunks[name] == SessionNext(w, step).disk.chunks[name])
         || step == WriteChunk(name, SessionNext(w, step).disk.chunks[name])
  {
  }

  lemma OutboxKeepsChunks(w: World, x: OutboxStep)
    requires OutboxEnabled(w, x)
    ensures OutboxNext(w, x).disk.chunks == w.disk.chunks
  {
    if !x.SoftDelete? {
      OutboxFrame(w, x);
      hide OutboxNext;
    }
  }

  /** A stored chunk holds exactly the bytes of the step that wrote it. */
  lemma {:induction false} ChunkIsWhatWasWritten(worlds: seq<World>, steps: seq<Step>, i: nat, name: Name)
      returns (j: nat)
    requires IsRun(worlds, steps) && i < |worlds| && name in worlds[i].disk.chunks
    ensures j < i && steps[j] == OnSession(WriteChunk(name, worlds[i].disk.chunks[name]))
  {
    hide Enabled, Next;
    if i == 0 { assert false; }
    hide Init;
    StepWritesChunk(worlds[i - 1], steps[i - 1], name);
    if steps[i - 1] == OnSession(WriteChunk(name, worlds[i].disk.chunks[name])) {
      j := i - 1;
    } else {
      j := ChunkIsWhatWasWritten(worlds, steps, i - 1, name);
    }
  }

  /** Piece n of a published upload is what the client sent for that part. */
  lemma PublishedPartWasSent(worlds: seq<World>, steps: seq<Step>, i: nat, t: Id, n: nat) returns (j: nat)
    requires IsRun(worlds, steps) && i < |worlds| && t in worlds[i].actors.completers
    requires worlds[i].actors.completers[t].phase.PublishedAs? && n < |worlds[i].actors.completers[t].phase.parts|
    ensures var c, chunks := worlds[i].actors.completers[t], worlds[i].disk.chunks;
      && PartsStored(chunks, c.phase.parts) && c.phase.bytes == Concat(Contents(c.phase.parts, chunks))
      && j < i && steps[j] == OnSession(WriteChunk(c.phase.parts[n].storedName, Contents(c.phase.parts, chunks)[n]))
  {
    hide Inv, IsRun;
    ReachableOk(worlds, steps, i);
    CompleterInSession(worlds[i], t);
    var part := worlds[i].actors.completers[t].phase.parts[n];
    assert part in worlds[i].actors.completers[t].phase.parts;
    j := ChunkIsWhatWasWritten(worlds, steps, i, part.storedName);
  }

  // ----- Objects

  /** The step stores exactly these bytes under the name: an upload, or an assembly whose checksum matched. */
  ghost predicate Stores(w: World, step: Step, name: Name, bytes: Bytes) {
    || step == OnOneShot(WriteObject(name, bytes))
    || (step.OnCompletion? && step.c.FinishAssembly? && step.c.checksumMatches
        && step.c.token in w.actors.completers && w.actors.completers[step.c.token].phase.Assembling?
        && w.actors.completers[step.c.token].phase.name == name
        && w.actors.completers[step.c.token].phase.bytes == bytes)
  }

  predicate Unchanged(objects: map<Name, Bytes>, objects': map<Name, Bytes>, name: Name) {
    name in objects' ==> name in objects && objects'[name] == objects[name]
  }

  lemma StepStoresObject(w: World, step: Step, name: Name)
    requires Enabled(w, step) && name in Next(w, step).disk.objects
    ensures Unchanged(w.disk.objects, Next(w, step).disk.objects, name)
         || Stores(w, step, name, Next(w, step).disk.objects[name])
  {
    hide Stores, AccountNext, OneShotNext, SessionNext, CompletionNext, OutboxNext, AccountEnabled, OneShotEnabled,
      OutboxEnabled, SessionEnabled, CompletionEnabled;
    match step
    case OnAccount(a) => AccountFrame(w, a);
    case OnOneShot(o) => OneShotStoresObject(w, o, name);
    case OnSession(s) => SessionFrame(w, s);
    case OnCompletion(c) => CompletionStoresObject(w, c, name);
    case OnOutbox(x) => OutboxStoresNothing(w, x, name);
  }

  lemma OneShotStoresObject(w: World, step: OneShotStep, name: Name)
    requires OneShotEnabled(w, step) && name in OneShotNext(w, step).disk.objects
    ensures Unchanged(w.disk.objects, OneShotNext(w, step).disk.objects, name)
         || Stores(w, OnOneShot(step), name, OneShotNext(w, step).disk.objects[name])
  {
    hide OneShotOutcome, UndeclaredOutcome, CommitOneShot, CommitUndeclared, CreateReservation, RenewReservation,
      ReleaseReservation;
  }

  lemma FinishStoresObject(w: World, t: Id, checksumMatches: bool, name: Name)
    requires CompletionEnabled(w, FinishAssembly(t, checksumMatches))
    requires name in FinishNext(w, t, checksumMatches).disk.objects
    ensures Unchanged(w.disk.objects, FinishNext(w, t, checksumMatches).disk.objects, name)
         || Stores(w, OnCompletion(FinishAssembly(t, checksumMatches)), name,
                   FinishNext(w, t, checksumMatches).disk.objects[name])
  {
  }

  lemma CommitStoresNothing(w: World, t: Id, file: Id, name: Name)
    requires CompletionEnabled(w, Commit(t, file))
    ensures Unchanged(w.disk.objects, CommitNext(w, t, file).disk.objects, name)
  {
    hide CommitCompletion, CompletionOutcome;
  }

  lemma CompletionStoresObject(w: World, step: CompletionStep, name: Name)
    requires CompletionEnabled(w, step) && name in CompletionNext(w, step).disk.objects
    ensures Unchanged(w.disk.objects, CompletionNext(w, step).disk.objects, name)
         || Stores(w, OnCompletion(step), name, CompletionNext(w, step).disk.objects[name])
  {
    hide Stores, FinishNext, CommitNext, ClaimCompletion, RenewCompletionLease, RelinquishCompletion, DeletePartRow,
      IsPartRead, CompleteParts, Readable;
    match step
    case FinishAssembly(t, checksumMatches) => FinishStoresObject(w, t, checksumMatches, name);
    case Commit(t, file) => CommitStoresNothing(w, t, file, name);
    case _ =>
  }

  lemma OutboxStoresNothing(w: World, x: OutboxStep, name: Name)
    requires OutboxEnabled(w, x)
    ensures Unchanged(w.disk.objects, OutboxNext(w, x).disk.objects, name)
  {
    hide ClaimFileDeletion, SettleDone, SettleFailed, DeadLetterExhausted, RequeueDead, PruneFinished, SoftDeleteFile;
  }

  /** A stored object, and so the content of every ACTIVE file, is exactly what one upload or one assembly stored. */
  lemma {:induction false} ObjectIsWhatWasStored(worlds: seq<World>, steps: seq<Step>, i: nat, name: Name)
      returns (j: nat)
    requires IsRun(worlds, steps) && i < |worlds| && name in worlds[i].disk.objects
    ensures j < i && Stores(worlds[j], steps[j], name, worlds[i].disk.objects[name])
  {
    hide Enabled, Next, Stores;
    if i == 0 { assert false; }
    hide Init;
    var w, step := worlds[i - 1], steps[i - 1];
    StepStoresObject(w, step, name);
    if Stores(w, step, name, worlds[i].disk.objects[name]) {
      j := i - 1;
    } else {
      j := ObjectIsWhatWasStored(worlds, steps, i - 1, name);
    }
  }
}
