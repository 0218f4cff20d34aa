/**
 How a requeue lets two unexpired leases cover one deletion job, with one configuration throughout: a first
 attempt stalls, the later ones fail until the job is parked, an operator requeues it, and then the stalled
 worker reports its failure.
 */
module LeaseRace {
  import opened Wrappers
  import opened Tables
  import opened Machine
  import opened Leases

  /** The settings of a deployment; the delay before a retry depends on the attempt that failed. */
  datatype Settings = Settings(maxAttempts: nat, leaseMs: nat, delay: nat -> nat)

  /** The step uses these settings, the delay being that of the settling worker's own attempt. */
  predicate Configured(w: World, step: Step, s: Settings) {
    step.OnOutbox? ==>
      match step.x
      case ClaimJob(_, _, leaseMs) => leaseMs == s.leaseMs
      case DeadLetter(maxAttempts) => maxAttempts == s.maxAttempts
      case Settle(worker, maxAttempts, backoff) =>
        worker in w.actors.workers && maxAttempts == s.maxAttempts
          && backoff == s.delay(w.actors.workers[worker].attempts)
      case _ => true
  }

  datatype Trace = Trace(worlds: seq<World>, steps: seq<Step>) {
    ghost predicate Valid(s: Settings) {
      IsRun(worlds, steps) && forall i :: 0 <= i < |steps| ==> Configured(worlds[i], steps[i], s)
    }

    function Last(): World
      requires |worlds| > 0
    {
      worlds[|worlds| - 1]
    }
  }

  lemma Extend(t: Trace, step: Step, s: Settings) returns (longer: Trace)
    requires |t.worlds| > 0 && t.Valid(s) && Enabled(t.Last(), step) && Configured(t.Last(), step, s)
    ensures longer.Valid(s) && |longer.worlds| > 0 && longer.Last() == Next(t.Last(), step)
  {
    hide Init, Enabled, Next, Configured;
    longer := Trace(t.worlds + [Next(t.Last(), step)], t.steps + [step]);
    forall i | 0 <= i < |longer.steps|
      ensures Enabled(longer.worlds[i], longer.steps[i])
        && longer.worlds[i + 1] == Next(longer.worlds[i], longer.steps[i])
      ensures Configured(longer.worlds[i], longer.steps[i], s)
    {
      if i < |t.steps| {
        assert longer.worlds[i] == t.worlds[i] && longer.worlds[i + 1] == t.worlds[i + 1];
      }
    }
  }

  // ----- The job of file 0 while its first worker is stalled

  /** Worker 0 still runs the first attempt of the only job; workers below `count` are the only ones. */
  predicate Stalled(w: World, count: nat) {
    && w.db.jobs.Keys == {0} && w.db.jobs[0].status == Queued
    && 0 in w.actors.workers && w.actors.workers[0].file == 0 && w.actors.workers[0].attempts == 1
    && w.actors.workers[0].state == Running
    && forall k :: k in w.actors.workers ==> k < count
  }

  predicate DueAfter(w: World, attempts: nat) {
    0 in w.db.jobs && IsDue(w.db.jobs[0], w.clock) && w.db.jobs[0].attempts == attempts
  }

  predicate ParkedWith(w: World, attempts: nat) {
    && w.db.jobs.Keys == {0} && w.db.jobs[0].status == Dead && w.db.jobs[0].attempts == attempts
  }

  /** The reaper finds nothing to do before the last attempt. */
  lemma ReaperIdles(w: World, maxAttempts: nat)
    requires w.db.jobs.Keys == {0} && w.db.jobs[0].attempts < maxAttempts
    ensures OutboxNext(w, DeadLetter(maxAttempts)) == w
  {
    assert DeadLetterExhausted(w.db, maxAttempts, w.clock).jobs == w.db.jobs;
  }

  /** A fresh worker claims the due job. */
  lemma Claims(w: World, k: Id, leaseMs: nat, attempts: nat)
    requires Stalled(w, k) && DueAfter(w, attempts)
    ensures var after := OutboxNext(w, ClaimJob(k, 0, leaseMs));
      && Stalled(after, k + 1) && after.db.jobs[0].attempts == attempts + 1 && after.clock == w.clock
      && k in after.actors.workers && after.actors.workers[k].file == 0 && after.actors.workers[k].state == Running
      && after.actors.workers[k].attempts == attempts + 1 && after.actors.workers[k].leaseUntil == w.clock + leaseMs
      && after.actors.workers.Keys == w.actors.workers.Keys + {k}
      && forall l :: l in w.actors.workers ==> after.actors.workers[l] == w.actors.workers[l]
  {
  }

  /** A worker fails to remove the bytes and says so; its number is still the row's. */
  lemma Fails(w: World, k: Id, maxAttempts: nat, delay: nat)
    requires k in w.actors.workers && w.actors.workers[k].state == Running && w.actors.workers[k].file == 0
    requires w.db.jobs.Keys == {0} && w.db.jobs[0].status == Queued
      && w.db.jobs[0].attempts == w.actors.workers[k].attempts
    ensures var failed := OutboxNext(w, RemoveBytes(k, false));
      && OutboxEnabled(w, RemoveBytes(k, false)) && OutboxEnabled(failed, Settle(k, maxAttempts, delay))
      && k in failed.actors.workers && failed.actors.workers[k].attempts == w.actors.workers[k].attempts
      && var after := OutboxNext(failed, Settle(k, maxAttempts, delay));
      && after.clock == w.clock && after.db.jobs.Keys == {0} && after.db.jobs[0].attempts == w.db.jobs[0].attempts
      && after.db.jobs[0].status == (if w.db.jobs[0].attempts >= maxAttempts then Dead else Queued)
      && after.db.jobs[0].lockedUntil.None? && after.db.jobs[0].nextAttemptAt == w.clock + delay
      && after.actors.workers.Keys == w.actors.workers.Keys
      && forall l :: l in w.actors.workers && l != k ==> after.actors.workers[l] == w.actors.workers[l]
  {
  }

  lemma Waits(w: World, delay: nat)
    requires w.db.jobs.Keys == {0} && w.db.jobs[0].status == Queued
    requires w.db.jobs[0].lockedUntil.None? && w.db.jobs[0].nextAttemptAt <= w.clock + delay
    ensures var after := AccountNext(w, Tick(w.clock + delay));
      && after.db == w.db && after.actors == w.actors && after.clock == w.clock + delay
      && DueAfter(after, w.db.jobs[0].attempts)
  {
  }

  lemma Requeued(w: World, attempts: nat)
    requires ParkedWith(w, attempts)
    ensures var after := OutboxNext(w, Requeue);
      && after.db.jobs.Keys == {0} && after.db.jobs[0].status == Queued && DueAfter(after, 0)
      && after.actors.workers == w.actors.workers && after.clock == w.clock
  {
  }

  // ----- The run

  lemma StoredByte() returns (w: World, written: World, stored: World)
    ensures Init(w)
    ensures OneShotEnabled(w, WriteObject(0, [1])) && written == OneShotNext(w, WriteObject(0, [1]))
    ensures OneShotEnabled(written, CommitMeasured(0, 0, 0)) && stored == OneShotNext(written, CommitMeasured(0, 0, 0))
    ensures stored.db.files == map[0 := File(0, 0, 1, ActiveFile)] && 0 in stored.db.users && stored.db.jobs == map[]
    ensures stored.actors.workers == map[] && stored.clock == 0
  {
    var users := map[0 := User(ActiveUser, Some(0), 0, 0)];
    var db := Db(map[0 := Plan(10, true)], users, map[], map[], map[], map[], map[]);
    w := World(0, db, Disk(map[], {}, map[], map[]), Actors(map[], map[], map[], map[], map[], map[]));
    written := OneShotNext(w, WriteObject(0, [1]));
    stored := OneShotNext(written, CommitMeasured(0, 0, 0));
    assert stored.db.files == map[0 := File(0, 0, 1, ActiveFile)];
  }

  lemma DeletionIsDue(stored: World)
    requires stored.db.files == map[0 := File(0, 0, 1, ActiveFile)] && 0 in stored.db.users && stored.db.jobs == map[]
    requires stored.actors.workers == map[]
    ensures var deleted := OutboxNext(stored, SoftDelete(0, 0));
      && deleted.db.jobs == map[0 := Job(0, Queued, 0, stored.clock, None, None)]
      && deleted.actors == stored.actors && deleted.clock == stored.clock
  {
  }

  /** The first worker to claim the only job; nobody else has. */
  lemma FirstClaim(w: World, leaseMs: nat, created: Time)
    requires w.db.jobs == map[0 := Job(0, Queued, 0, created, None, None)] && w.actors.workers == map[]
      && created <= w.clock
    ensures var claimed := OutboxNext(w, ClaimJob(0, 0, leaseMs));
      && OutboxEnabled(w, ClaimJob(0, 0, leaseMs)) && claimed.clock == w.clock
      && claimed.db.jobs == map[0 := Job(0, Queued, 1, created, Some(w.clock + leaseMs), None)]
      && claimed.actors.workers.Keys == {0} && claimed.actors.workers[0].file == 0
      && claimed.actors.workers[0].attempts == 1 && claimed.actors.workers[0].state == Running
  {
  }

  lemma LeaseLapses(claimed: World, leaseMs: nat, created: Time)
    requires claimed.db.jobs == map[0 := Job(0, Queued, 1, created, Some(claimed.clock + leaseMs), None)]
    requires claimed.actors.workers.Keys == {0} && claimed.actors.workers[0].file == 0 && created <= claimed.clock
    requires claimed.actors.workers[0].attempts == 1 && claimed.actors.workers[0].state == Running
    ensures var late := AccountNext(claimed, Tick(claimed.clock + leaseMs)); Stalled(late, 1) && DueAfter(late, 1)
  {
  }

  /** One byte uploaded, its file deleted, the deletion claimed, and the lease lapsed while the worker stalls. */
  lemma StalledAttempt(s: Settings) returns (t: Trace)
    ensures |t.worlds| > 0 && t.Valid(s) && Stalled(t.Last(), 1) && DueAfter(t.Last(), 1)
  {
    hide OneShotNext, OutboxNext, OneShotEnabled, Stalled, DueAfter, Init;
    var w, written, stored := StoredByte();
    DeletionIsDue(stored);
    var deleted := OutboxNext(stored, SoftDelete(0, 0));
    FirstClaim(deleted, s.leaseMs, stored.clock);
    LeaseLapses(OutboxNext(deleted, ClaimJob(0, 0, s.leaseMs)), s.leaseMs, stored.clock);
    t := Trace([w], []);
    t := Extend(t, OnOneShot(WriteObject(0, [1])), s);
    t := Extend(t, OnOneShot(CommitMeasured(0, 0, 0)), s);
    t := Extend(t, OnOutbox(SoftDelete(0, 0)), s);
    t := Extend(t, OnOutbox(ClaimJob(0, 0, s.leaseMs)), s);
    t := Extend(t, OnAccount(Tick(t.Last().clock + s.leaseMs)), s);
  }

  /** A sweep claims the job and fails: the reaper idles, the claim succeeds, the removal does not. */
  lemma FailedSweep(t: Trace, n: nat, k: Id, s: Settings) returns (longer: Trace)
    requires |t.worlds| > 0 && t.Valid(s) && Stalled(t.Last(), k) && DueAfter(t.Last(), n) && n < s.maxAttempts && k > 0
    ensures |longer.worlds| > 0 && longer.Valid(s) && longer.Last().db.jobs.Keys == {0}
    ensures var w := longer.Last();
      && w.db.jobs[0].attempts == n + 1 && w.db.jobs[0].status == (if n + 1 >= s.maxAttempts then Dead else Queued)
      && w.db.jobs[0].lockedUntil.None? && w.db.jobs[0].nextAttemptAt == w.clock + s.delay(n + 1)
      && w.actors.workers.Keys == t.Last().actors.workers.Keys + {k}
      && 0 in t.Last().actors.workers && w.actors.workers[0] == t.Last().actors.workers[0]
  {
    hide OutboxNext, Init;
    var w := t.Last();
    ReaperIdles(w, s.maxAttempts);
    longer := Extend(t, OnOutbox(DeadLetter(s.maxAttempts)), s);
    Claims(w, k, s.leaseMs, n);
    longer := Extend(longer, OnOutbox(ClaimJob(k, 0, s.leaseMs)), s);
    var claimed := longer.Last();
    Fails(claimed, k, s.maxAttempts, s.delay(n + 1));
    longer := Extend(longer, OnOutbox(RemoveBytes(k, false)), s);
    longer := Extend(longer, OnOutbox(Settle(k, s.maxAttempts, s.delay(n + 1))), s);
  }

  predicate StillRunning(w: World, count: nat) {
    && 0 in w.actors.workers && w.actors.workers[0].file == 0 && w.actors.workers[0].attempts == 1
    && w.actors.workers[0].state == Running
    && forall k :: k in w.actors.workers ==> k < count
  }

  /** Every attempt but the first fails and waits out its delay, until the last one parks the job. */
  lemma {:induction false} UntilParked(t: Trace, n: nat, s: Settings) returns (longer: Trace)
    requires |t.worlds| > 0 && t.Valid(s) && 1 <= n < s.maxAttempts && Stalled(t.Last(), n) && DueAfter(t.Last(), n)
    ensures |longer.worlds| > 0 && longer.Valid(s)
    ensures ParkedWith(longer.Last(), s.maxAttempts) && StillRunning(longer.Last(), s.maxAttempts)
    decreases s.maxAttempts - n
  {
    hide Init, IsDue;
    longer := FailedSweep(t, n, n, s);
    if n + 1 < s.maxAttempts {
      Waits(longer.Last(), s.delay(n + 1));
      longer := Extend(longer, OnAccount(Tick(longer.Last().clock + s.delay(n + 1))), s);
      longer := UntilParked(longer, n + 1, s);
    }
  }

  /** After the requeue a fresh worker claims the job, again under number one. */
  lemma ClaimedAgain(t: Trace, k: Id, s: Settings) returns (longer: Trace)
    requires |t.worlds| > 0 && t.Valid(s) && ParkedWith(t.Last(), s.maxAttempts) && StillRunning(t.Last(), k)
    requires s.maxAttempts >= 2
    ensures |longer.worlds| > 0 && longer.Valid(s)
    ensures var w := longer.Last();
      && Stalled(w, k + 1) && w.db.jobs[0].attempts == 1 && k in w.actors.workers
      && w.actors.workers[k].file == 0 && w.actors.workers[k].state == Running
      && w.actors.workers[k].leaseUntil == w.clock + s.leaseMs
  {
    hide OutboxNext, Init, IsDue;
    Requeued(t.Last(), s.maxAttempts);
    longer := Extend(t, OnOutbox(Requeue), s);
    var requeued := longer.Last();
    ReaperIdles(requeued, s.maxAttempts);
    longer := Extend(longer, OnOutbox(DeadLetter(s.maxAttempts)), s);
    Claims(requeued, k, s.leaseMs, 0);
    longer := Extend(longer, OnOutbox(ClaimJob(k, 0, s.leaseMs)), s);
  }

  /** The stalled worker reports its failure, the job is free again after the delay, and another worker claims it. */
  lemma RobbedAndClaimed(t: Trace, l: Id, s: Settings) returns (longer: Trace)
    requires |t.worlds| > 0 && t.Valid(s) && s.maxAttempts >= 2 && s.delay(1) < s.leaseMs && l > 0
    requires var w := t.Last();
      && Stalled(w, l + 1) && w.db.jobs[0].attempts == 1 && l in w.actors.workers
      && w.actors.workers[l].file == 0 && w.actors.workers[l].state == Running
      && w.actors.workers[l].leaseUntil == w.clock + s.leaseMs
    ensures |longer.worlds| > 0 && longer.Valid(s)
    ensures var w := longer.Last();
      && IsLive(w, l) && IsLive(w, l + 1) && w.actors.workers[l].file == w.actors.workers[l + 1].file
  {
    hide OutboxNext, Init;
    Fails(t.Last(), 0, s.maxAttempts, s.delay(1));
    longer := Extend(t, OnOutbox(RemoveBytes(0, false)), s);
    longer := Extend(longer, OnOutbox(Settle(0, s.maxAttempts, s.delay(1))), s);
    var freed := longer.Last();
    Waits(freed, s.delay(1));
    longer := Extend(longer, OnAccount(Tick(freed.clock + s.delay(1))), s);
    var due := longer.Last();
    ReaperIdles(due, s.maxAttempts);
    longer := Extend(longer, OnOutbox(DeadLetter(s.maxAttempts)), s);
    SecondClaim(due, l + 1, s.leaseMs);
    longer := Extend(longer, OnOutbox(ClaimJob(l + 1, 0, s.leaseMs)), s);
  }

  lemma SecondClaim(w: World, m: Id, leaseMs: nat)
    requires DueAfter(w, 1) && m !in w.actors.workers && leaseMs > 0
    ensures var after := OutboxNext(w, ClaimJob(m, 0, leaseMs));
      && IsLive(after, m) && after.actors.workers[m].file == 0 && after.clock == w.clock
      && forall l :: l in w.actors.workers ==>
        l in after.actors.workers && after.actors.workers[l] == w.actors.workers[l]
  {
  }

  /** With any settings whose first delay is shorter than a lease, a requeue can lead to two unexpired leases. */
  lemma ExclusionFailsAcrossRequeue(s: Settings) returns (t: Trace, l: Id, m: Id)
    requires s.maxAttempts >= 2 && s.delay(1) < s.leaseMs
    ensures |t.worlds| > 0 && t.Valid(s) && l != m
    ensures IsLive(t.Last(), l) && IsLive(t.Last(), m)
    ensures t.Last().actors.workers[l].file == t.Last().actors.workers[m].file
  {
    hide IsLive, Stalled, DueAfter, ParkedWith, StillRunning;
    t := StalledAttempt(s);
    t := UntilParked(t, 1, s);
    t := ClaimedAgain(t, s.maxAttempts, s);
    l, m := s.maxAttempts, s.maxAttempts + 1;
    t := RobbedAndClaimed(t, l, s);
  }

  const MAX_ATTEMPTS: nat := 8
  const LEASE_MS: nat := 120000
  const BASE_BACKOFF_MS: nat := 30000
  const MAX_BACKOFF_MS: nat := 3600000

  function Exponential(attempts: nat): nat {
    if attempts <= 1 then BASE_BACKOFF_MS else Min(MAX_BACKOFF_MS, 2 * Exponential(attempts - 1))
  }

  /** The delays the jitter of plus or minus a fifth allows. */
  ghost predicate IsBackoff(delay: nat -> nat) {
    forall n: nat :: 8 * Exponential(n) <= 10 * delay(n) <= 12 * Exponential(n)
  }

  /** The default settings are among them, whatever the jitter. */
  lemma DefaultsAllowTwoLeases(delay: nat -> nat) returns (t: Trace, l: Id, m: Id)
    requires IsBackoff(delay)
    ensures |t.worlds| > 0 && t.Valid(Settings(MAX_ATTEMPTS, LEASE_MS, delay)) && l != m
    ensures IsLive(t.Last(), l) && IsLive(t.Last(), m)
    ensures t.Last().actors.workers[l].file == t.Last().actors.workers[m].file
  {
    assert 10 * delay(1) <= 12 * Exponential(1);
    hide IsRun, IsLive;
    t, l, m := ExclusionFailsAcrossRequeue(Settings(MAX_ATTEMPTS, LEASE_MS, delay));
  }
}
