/** Leases on deletion jobs: who may settle, when two leases exclude each other, and how a requeue breaks that. */
module Leases {
  import opened Tables
  import opened Machine
  import opened Ledger
  import opened Invariants
  import opened OneShotSteps
  import opened SessionSteps
  import opened CompletionSteps
  import opened OutboxSteps
  import opened Preservation

  lemma ClaimsPart(w: World)
    requires Inv(w)
    ensures AttemptsOk(w.db.jobs, w.actors.workers, w.actors.requeues)
    ensures NewestKnown(w.db.jobs, w.actors.workers, w.actors.requeues)
    ensures StorageOk(w.db.files, w.db.jobs, w.disk, w.actors.completers, w.actors.workers)
  {
    hide LedgerOk, SessionsOk, PublishedOnce, PartsOk, FrozenOk, CompletersOk, StorageOk, AttemptsOk, NewestKnown,
      ReadsOk;
  }

  // ----- Settlements

  /** Worker l's claim is at most as recent as k's, both since the last requeue. */
  predicate NoLater(workers: Workers, k: Id, l: Id)
    requires k in workers
  {
    l in workers && workers[l].file == workers[k].file && workers[l].epoch == workers[k].epoch ==>
      workers[l].attempts <= workers[k].attempts
  }

  /** Since the last requeue a settlement changes its row exactly when it comes from the newest claim. */
  lemma OnlyTheNewestSettles(w: World, k: Id)
    requires Inv(w) && k in w.actors.workers
    requires var row := w.actors.workers[k];
      row.epoch == w.Epoch(row.file) && row.file in w.db.jobs && w.db.jobs[row.file].status == Queued
    ensures SettlementApplies(w.db, w.actors.workers[k].file, w.actors.workers[k].attempts)
       <==> forall l :: l in w.actors.workers ==> NoLater(w.actors.workers, k, l)
  {
    ClaimsPart(w);
    hide Inv, StorageOk;
    var row := w.actors.workers[k];
    if forall l :: l in w.actors.workers ==> NoLater(w.actors.workers, k, l) {
      var l :| l in w.actors.workers
        && IsClaim(w.actors.workers[l], row.file, EpochOf(w.actors.requeues, row.file), w.db.jobs[row.file].attempts);
      assert NoLater(w.actors.workers, k, l);
    }
  }

  /** Worker k claimed the same job under the same number as l, but before a requeue that l's claim came after. */
  predicate Outlived(workers: Workers, k: Id, l: Id) {
    && k in workers && l in workers && workers[k].file == workers[l].file
    && workers[k].epoch < workers[l].epoch && workers[k].attempts == workers[l].attempts
  }

  /** The attempt number is a fence between requeues only: against a leased row it fails exactly for such a worker. */
  lemma FenceFailsAcrossRequeue(w: World, k: Id, l: Id)
    requires Inv(w) && k in w.actors.workers && l in w.actors.workers && k != l
    requires w.actors.workers[k].file == w.actors.workers[l].file
    requires HoldsLease(w.actors.workers[l], w.db.jobs, w.actors.requeues)
    ensures SettlementApplies(w.db, w.actors.workers[k].file, w.actors.workers[k].attempts)
       <==> Outlived(w.actors.workers, k, l)
  {
    ClaimsPart(w);
    hide Inv, NewestKnown, StorageOk;
    var a, b := w.actors.workers[k], w.actors.workers[l];
    assert a.epoch == b.epoch && a.attempts == b.attempts ==> SameClaim(a, b);
  }

  // ----- One step and an unexpired lease

  predicate Holds(w: World, l: Id) {
    l in w.actors.workers && HoldsLease(w.actors.workers[l], w.db.jobs, w.actors.requeues)
  }

  predicate IsLive(w: World, l: Id) {
    l in w.actors.workers && Live(w.actors.workers[l], w.clock)
  }

  /** Another worker's late settlement of the same job, let through by a requeue. */
  predicate Robs(w: World, step: Step, l: Id) {
    step.OnOutbox? && step.x.Settle? && Outlived(w.actors.workers, step.x.worker, l)
  }

  /** Of all steps of all actors, an unexpired lease is lost exactly to its own settlement or to such a late one. */
  lemma LeaseIsLostOnlyTo(w: World, step: Step, l: Id)
    requires Inv(w) && Enabled(w, step) && Holds(w, l) && IsLive(w, l)
    ensures Holds(Next(w, step), l) <==> !((step.OnOutbox? && step.x.Settle? && step.x.worker == l) || Robs(w, step, l))
  {
    hide Inv, HoldsLease, Live, AccountNext, OneShotNext, SessionNext, CompletionNext, OutboxNext, AccountEnabled,
      OneShotEnabled,
      OutboxEnabled, SessionEnabled, CompletionEnabled;
    match step
    case OnAccount(a) => AccountFrame(w, a);
    case OnOneShot(o) => OneShotFrame(w, o);
    case OnSession(s) => SessionFrame(w, s);
    case OnCompletion(c) => CompletionFrame(w, c);
    case OnOutbox(x) =>
      if x.Settle? { SettlementAndLease(w, x, l); } else { OutboxKeepsLease(w, x, l); }
  }

  lemma SettlementAndLease(w: World, x: OutboxStep, l: Id)
    requires Inv(w) && OutboxEnabled(w, x) && x.Settle? && Holds(w, l)
    ensures Holds(OutboxNext(w, x), l) <==> x.worker != l && !Outlived(w.actors.workers, x.worker, l)
  {
    hide Inv, SettleNext;
    var k, row := x.worker, w.actors.workers[x.worker];
    if k != l && row.file == w.actors.workers[l].file { FenceFailsAcrossRequeue(w, k, l); }
    SettleShape(w, k, x.maxAttempts, x.backoff);
    SettleClears(w, k, x.maxAttempts, x.backoff);
    OwnSettlementApplies(w, l);
  }

  lemma SettleClears(w: World, k: Id, maxAttempts: nat, backoff: nat)
    requires OutboxEnabled(w, Settle(k, maxAttempts, backoff))
    ensures var after, row := SettleNext(w, k, maxAttempts, backoff), w.actors.workers[k];
      && after.actors.requeues == w.actors.requeues
      && (SettlementApplies(w.db, row.file, row.attempts) ==>
            row.file in after.db.jobs && after.db.jobs[row.file].lockedUntil.None?)
  {
  }

  lemma OwnSettlementApplies(w: World, l: Id)
    requires Holds(w, l)
    ensures SettlementApplies(w.db, w.actors.workers[l].file, w.actors.workers[l].attempts)
  {
  }

  lemma OutboxKeepsLease(w: World, x: OutboxStep, l: Id)
    requires OutboxEnabled(w, x) && !x.Settle? && Holds(w, l) && IsLive(w, l)
    ensures Holds(OutboxNext(w, x), l)
  {
    match x
    case ClaimJob(_, _, _) =>
      hide RemoveNext, RequeueNext, DeadLetterExhausted, PruneFinished, SoftDeleteFile, SettleNext;
    case Requeue => hide RemoveNext, ClaimJobNext, DeadLetterExhausted, PruneFinished, SoftDeleteFile, SettleNext;
    case _ => hide RequeueNext, ClaimJobNext, SettleNext;
  }

  /** A worker that does not hold its job's lease never comes to hold it. */
  lemma LostLeaseStaysLost(w: World, step: Step, l: Id)
    requires Inv(w) && Enabled(w, step) && l in w.actors.workers && !Holds(w, l)
    ensures l in Next(w, step).actors.workers && !Holds(Next(w, step), l)
  {
    hide Inv, HoldsLease, AccountNext, OneShotNext, SessionNext, CompletionNext, OutboxNext, AccountEnabled,
      OneShotEnabled,
      OutboxEnabled, SessionEnabled, CompletionEnabled;
    match step
    case OnAccount(a) => AccountFrame(w, a);
    case OnOneShot(o) => OneShotFrame(w, o);
    case OnSession(s) => SessionFrame(w, s);
    case OnCompletion(c) => CompletionFrame(w, c);
    case OnOutbox(x) => ClaimsPart(w); OutboxGivesNoLease(w, x, l);
  }

  lemma OutboxGivesNoLease(w: World, x: OutboxStep, l: Id)
    requires AttemptsOk(w.db.jobs, w.actors.workers, w.actors.requeues)
    requires StorageOk(w.db.files, w.db.jobs, w.disk, w.actors.completers, w.actors.workers)
    requires OutboxEnabled(w, x) && l in w.actors.workers && !Holds(w, l)
    ensures l in OutboxNext(w, x).actors.workers && !Holds(OutboxNext(w, x), l)
  {
    hide StorageOk, OutboxNext, AttemptsOk, JobsMove;
    var after := OutboxNext(w, x);
    if x.SoftDelete? {
      WorkerIsOk(w.db.files, w.db.jobs, w.disk, w.actors.completers, w.actors.workers, l);
      SoftDeleteAddsJob(w, x, w.actors.workers[l].file);
    } else if x.Settle? {
      SettlementGivesNoLease(w, x, l);
    } else {
      ClaimOf(w, l);
      OtherStatementsGiveNoLease(w, x, l);
    }
  }

  lemma SoftDeleteAddsJob(w: World, x: OutboxStep, f: Id)
    requires x.SoftDelete? && (f in w.db.files ==> w.db.files[f].status == DeletedFile)
    ensures OutboxNext(w, x).actors == w.actors
    ensures f in OutboxNext(w, x).db.jobs <==> f in w.db.jobs
    ensures f in w.db.jobs ==> OutboxNext(w, x).db.jobs[f] == w.db.jobs[f]
  {
  }

  lemma SettlementGivesNoLease(w: World, x: OutboxStep, l: Id)
    requires OutboxEnabled(w, x) && x.Settle? && l in w.actors.workers && !Holds(w, l)
    ensures l in OutboxNext(w, x).actors.workers && !Holds(OutboxNext(w, x), l)
  {
    hide SettleNext;
    SettleShape(w, x.worker, x.maxAttempts, x.backoff);
    SettleClears(w, x.worker, x.maxAttempts, x.backoff);
    SettleTouches(w, x.worker, x.maxAttempts, x.backoff);
  }

  /** A claim is no newer than its job's row. */
  lemma ClaimOf(w: World, l: Id)
    requires AttemptsOk(w.db.jobs, w.actors.workers, w.actors.requeues) && l in w.actors.workers
    ensures NoNewer(w, w.actors.workers[l])
  {
  }

  predicate NoNewer(w: World, row: Worker) {
    && row.epoch <= w.Epoch(row.file)
    && (row.file in w.db.jobs && row.epoch == w.Epoch(row.file) ==> row.attempts <= w.db.jobs[row.file].attempts)
  }

  lemma ClaimGivesNoLease(w: World, worker: Id, file: Id, leaseMs: nat, l: Id)
    requires worker !in w.actors.workers && l in w.actors.workers && !Holds(w, l) && NoNewer(w, w.actors.workers[l])
    ensures var after := ClaimJobNext(w, worker, file, leaseMs); l in after.actors.workers && !Holds(after, l)
  {
  }

  lemma OtherStatementsGiveNoLease(w: World, x: OutboxStep, l: Id)
    requires OutboxEnabled(w, x) && !x.Settle? && !x.SoftDelete? && l in w.actors.workers && !Holds(w, l)
    requires NoNewer(w, w.actors.workers[l])
    ensures l in OutboxNext(w, x).actors.workers && !Holds(OutboxNext(w, x), l)
  {
    match x
    case ClaimJob(worker, file, leaseMs) =>
      hide ClaimJobNext, Holds, NoNewer;
      ClaimGivesNoLease(w, worker, file, leaseMs, l);
    case Requeue => hide RemoveNext, ClaimJobNext, DeadLetterExhausted, PruneFinished, SoftDeleteFile, SettleNext;
    case _ => hide RequeueNext, ClaimJobNext, SettleNext, SoftDeleteFile;
  }

  // ----- Leases over a run

  /** Workers keep their claim; settling is final, and a new one has just claimed its job. */
  predicate WorkerFollows(w: World, after: World, l: Id) {
    && (l in w.actors.workers ==>
          && l in after.actors.workers
          && after.actors.workers[l] == w.actors.workers[l].(state := after.actors.workers[l].state)
          && (w.actors.workers[l].state == Settled ==> after.actors.workers[l].state == Settled))
    && (l !in w.actors.workers && l in after.actors.workers ==>
          Holds(after, l) && after.actors.workers[l].epoch == after.Epoch(after.actors.workers[l].file))
  }

  lemma OutboxFollowsWorker(w: World, x: OutboxStep, l: Id)
    requires OutboxEnabled(w, x)
    ensures WorkerFollows(w, OutboxNext(w, x), l)
    ensures x.Settle? && x.worker == l ==> OutboxNext(w, x).actors.workers[l].state == Settled
  {
    match x
    case ClaimJob(_, _, _) =>
      hide RemoveNext, RequeueNext, DeadLetterExhausted, PruneFinished, SoftDeleteFile, SettleNext;
    case Settle(_, _, _) => hide RemoveNext, RequeueNext, ClaimJobNext, SettleDone, SettleFailed, SoftDeleteFile;
    case _ => hide ClaimJobNext, SettleNext, SoftDeleteFile, Holds;
  }

  lemma StepFollowsWorker(w: World, step: Step, l: Id)
    requires Enabled(w, step)
    ensures WorkerFollows(w, Next(w, step), l) && Next(w, step).clock >= w.clock
    ensures step.OnOutbox? && step.x.Settle? && step.x.worker == l ==> Next(w, step).actors.workers[l].state == Settled
    ensures forall f :: Next(w, step).Epoch(f) >= w.Epoch(f)
  {
    hide WorkerFollows, OneShotNext, SessionNext, CompletionNext, OutboxNext, OneShotEnabled, OutboxEnabled,
      SessionEnabled, CompletionEnabled;
    SameWorkerFollows(w, Next(w, step), l);
    match step
    case OnAccount(a) => AccountFrame(w, a);
    case OnOneShot(o) => OneShotFrame(w, o);
    case OnSession(s) => SessionFrame(w, s);
    case OnCompletion(c) => CompletionFrame(w, c);
    case OnOutbox(x) => OutboxFollowsWorker(w, x, l); OutboxEpochs(w, x);
  }

  lemma SameWorkerFollows(w: World, after: World, l: Id)
    ensures after.actors.workers == w.actors.workers ==> WorkerFollows(w, after, l)
  {
  }

  lemma OutboxEpochs(w: World, x: OutboxStep)
    requires OutboxEnabled(w, x)
    ensures OutboxNext(w, x).clock == w.clock && forall f :: OutboxNext(w, x).Epoch(f) >= w.Epoch(f)
  {
    hide ClaimFileDeletion, SettleDone, SettleFailed, DeadLetterExhausted, RequeueDead, PruneFinished, SoftDeleteFile;
  }

  predicate WasRobbed(worlds: seq<World>, steps: seq<Step>, i: nat, l: Id)
    requires |worlds| == |steps| + 1 && i < |worlds|
  {
    exists j :: 0 <= j < i && Holds(worlds[j], l) && Robs(worlds[j], steps[j], l)
  }

  lemma RobbedSoFar(worlds: seq<World>, steps: seq<Step>, i: nat, l: Id)
    requires |worlds| == |steps| + 1 && 0 < i < |worlds|
    ensures WasRobbed(worlds, steps, i, l)
       <==> WasRobbed(worlds, steps, i - 1, l) || (Holds(worlds[i - 1], l) && Robs(worlds[i - 1], steps[i - 1], l))
  {
    hide Holds, Robs;
  }

  /** An unexpired, unsettled lease is the one its job's row records exactly if no late settlement took it away. */
  lemma {:induction false} HeldUnlessRobbed(worlds: seq<World>, steps: seq<Step>, i: nat, l: Id)
    requires IsRun(worlds, steps) && i < |worlds|
    ensures IsLive(worlds[i], l) ==> (Holds(worlds[i], l) <==> !WasRobbed(worlds, steps, i, l))
    ensures WasRobbed(worlds, steps, i, l) ==> l in worlds[i].actors.workers && worlds[i].actors.workers[l].epoch > 0
  {
    hide Inv, Enabled, Next, WasRobbed, HoldsLease;
    if i == 0 {
      NobodyYet(worlds, steps, l);
    } else {
      var w, step := worlds[i - 1], steps[i - 1];
      assert Enabled(w, step) && worlds[i] == Next(w, step);
      hide Init;
      HeldUnlessRobbed(worlds, steps, i - 1, l);
      ReachableOk(worlds, steps, i - 1);
      RobbedSoFar(worlds, steps, i, l);
      StepFollowsWorker(w, step, l);
      if Holds(w, l) {
        if IsLive(w, l) { LeaseIsLostOnlyTo(w, step, l); }
      } else if l in w.actors.workers {
        LostLeaseStaysLost(w, step, l);
      }
    }
  }

  lemma NobodyYet(worlds: seq<World>, steps: seq<Step>, l: Id)
    requires IsRun(worlds, steps)
    ensures l !in worlds[0].actors.workers && !WasRobbed(worlds, steps, 0, l)
  {
  }

  /** Two unexpired leases on one file are the same lease, unless a late settlement robbed one of them. */
  lemma LiveLeasesAreExclusive(worlds: seq<World>, steps: seq<Step>, i: nat, k: Id, l: Id)
    requires IsRun(worlds, steps) && i < |worlds| && IsLive(worlds[i], k) && IsLive(worlds[i], l)
    requires worlds[i].actors.workers[k].file == worlds[i].actors.workers[l].file
    ensures k == l || WasRobbed(worlds, steps, i, k) || WasRobbed(worlds, steps, i, l)
  {
    hide Inv, WasRobbed, Live;
    HeldUnlessRobbed(worlds, steps, i, k);
    HeldUnlessRobbed(worlds, steps, i, l);
    ReachableOk(worlds, steps, i);
    ClaimsPart(worlds[i]);
    hide IsRun, StorageOk, NewestKnown;
    if Holds(worlds[i], k) && Holds(worlds[i], l) {
      assert SameClaim(worlds[i].actors.workers[k], worlds[i].actors.workers[l]);
    }
  }

  /** On a job that was never requeued, leases exclude each other without exception. */
  lemma ExclusiveUntilRequeued(worlds: seq<World>, steps: seq<Step>, i: nat, k: Id, l: Id)
    requires IsRun(worlds, steps) && i < |worlds| && IsLive(worlds[i], k) && IsLive(worlds[i], l)
    requires worlds[i].actors.workers[k].file == worlds[i].actors.workers[l].file
    requires worlds[i].Epoch(worlds[i].actors.workers[k].file) == 0
    ensures k == l
  {
    hide Inv, WasRobbed, Live;
    LiveLeasesAreExclusive(worlds, steps, i, k, l);
    HeldUnlessRobbed(worlds, steps, i, k);
    HeldUnlessRobbed(worlds, steps, i, l);
    ReachableOk(worlds, steps, i);
    ClaimsPart(worlds[i]);
    hide IsRun, StorageOk, NewestKnown;
  }

  // ----- When a requeue is safe

  /** Every claim of this file from before its epoch `e` has been settled. */
  predicate OldClaimsSettled(w: World, f: Id, e: nat) {
    forall k :: k in w.actors.workers && w.actors.workers[k].file == f && w.actors.workers[k].epoch < e ==>
      w.actors.workers[k].state == Settled
  }

  lemma StepKeepsSettled(w: World, step: Step, f: Id, e: nat)
    requires Enabled(w, step) && OldClaimsSettled(w, f, e) && w.Epoch(f) >= e
    ensures OldClaimsSettled(Next(w, step), f, e) && Next(w, step).Epoch(f) >= e
  {
    hide Enabled, Next;
    var after := Next(w, step);
    forall k | k in after.actors.workers && after.actors.workers[k].file == f && after.actors.workers[k].epoch < e
      ensures after.actors.workers[k].state == Settled
    {
      StepFollowsWorker(w, step, k);
    }
    StepFollowsWorker(w, step, 0);
  }

  lemma {:induction false} SettledStay(worlds: seq<World>, steps: seq<Step>, a: nat, i: nat, f: Id, e: nat)
    requires IsRun(worlds, steps) && a <= i < |worlds| && OldClaimsSettled(worlds[a], f, e) && worlds[a].Epoch(f) >= e
    ensures OldClaimsSettled(worlds[i], f, e) && worlds[i].Epoch(f) >= e
  {
    hide Init, Enabled, Next, OldClaimsSettled;
    if a < i {
      SettledStay(worlds, steps, a, i - 1, f, e);
      StepKeepsSettled(worlds[i - 1], steps[i - 1], f, e);
    }
  }

  lemma {:induction false} SettledForGood(worlds: seq<World>, steps: seq<Step>, a: nat, i: nat, k: Id)
    requires IsRun(worlds, steps) && a <= i < |worlds| && k in worlds[a].actors.workers
    ensures k in worlds[i].actors.workers
    ensures worlds[a].actors.workers[k].state == Settled ==> worlds[i].actors.workers[k].state == Settled
    ensures worlds[i].actors.workers[k] == worlds[a].actors.workers[k].(state := worlds[i].actors.workers[k].state)
  {
    hide Init, Enabled, Next;
    if a < i {
      SettledForGood(worlds, steps, a, i - 1, k);
      StepFollowsWorker(worlds[i - 1], steps[i - 1], k);
    }
  }

  predicate AllSettled(w: World, f: Id) {
    forall k :: k in w.actors.workers && w.actors.workers[k].file == f ==> w.actors.workers[k].state == Settled
  }

  lemma SettledCannotRob(w: World, step: Step, f: Id, e: nat, l: Id)
    requires Enabled(w, step) && OldClaimsSettled(w, f, e)
    requires l in w.actors.workers && w.actors.workers[l].file == f && w.actors.workers[l].epoch <= e
    ensures !Robs(w, step, l)
  {
  }

  /** A claim made after everything before it had settled is never robbed, until its job is requeued again. */
  lemma LateClaimIsNotRobbed(worlds: seq<World>, steps: seq<Step>, a: nat, i: nat, l: Id)
    requires IsRun(worlds, steps) && a <= i < |worlds| && IsLive(worlds[i], l)
    requires var f := worlds[i].actors.workers[l].file;
      AllSettled(worlds[a], f) && worlds[i].Epoch(f) == worlds[a].Epoch(f)
    ensures !WasRobbed(worlds, steps, i, l)
  {
    hide Init, Enabled, Next, Inv, HoldsLease, Robs, OldClaimsSettled, AttemptsOk, NewestKnown, StorageOk;
    var f := worlds[i].actors.workers[l].file;
    var e := worlds[a].Epoch(f);
    ReachableOk(worlds, steps, i);
    ClaimsPart(worlds[i]);
    ClaimOf(worlds[i], l);
    assert OldClaimsSettled(worlds[a], f, e) by { AllSettledIncludesOld(worlds[a], f, e); }
    forall j | 0 <= j < i && Holds(worlds[j], l) ensures !Robs(worlds[j], steps[j], l) {
      SettledForGood(worlds, steps, j, i, l);
      if j < a {
        SettledForGood(worlds, steps, j, a, l);
        SettledForGood(worlds, steps, a, i, l);
        assert false;
      }
      SettledStay(worlds, steps, a, j, f, e);
      SettledCannotRob(worlds[j], steps[j], f, e, l);
    }
  }

  lemma AllSettledIncludesOld(w: World, f: Id, e: nat)
    requires AllSettled(w, f)
    ensures OldClaimsSettled(w, f, e)
  {
  }

  /** So a requeue is safe once every claim of the job has settled: from then on its leases exclude each other. */
  lemma RequeueAfterSettlementIsSafe(worlds: seq<World>, steps: seq<Step>, a: nat, i: nat, k: Id, l: Id)
    requires IsRun(worlds, steps) && a <= i < |worlds| && IsLive(worlds[i], k) && IsLive(worlds[i], l)
    requires var f := worlds[i].actors.workers[k].file;
      f == worlds[i].actors.workers[l].file && AllSettled(worlds[a], f) && worlds[i].Epoch(f) == worlds[a].Epoch(f)
    ensures k == l
  {
    hide WasRobbed, AllSettled, Init, Next, Enabled, Live;
    LateClaimIsNotRobbed(worlds, steps, a, i, k);
    LateClaimIsNotRobbed(worlds, steps, a, i, l);
    LiveLeasesAreExclusive(worlds, steps, i, k, l);
  }
}
