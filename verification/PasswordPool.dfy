/**
 The password hashing pool: a fixed number of lazily created worker threads, a bounded waiting queue, and
 promises that are settled by an answer, a lost worker, a timeout, a full queue or the closing of the pool.
 What a worker thread does is an event: it answers, or it is lost.
 */
module PasswordPool {
  import opened Wrappers

  type TaskId = int

  /** `worker` numbers the thread; `task` is what it is working on. */
  datatype Slot = Slot(worker: nat, task: Option<TaskId>)
  datatype Verdict = Resolved | HashingFailed | QueueFull | WaitTimeout | WorkerLost | PoolClosed
  datatype Stats = Stats(started: nat, completed: nat, rejectedQueueFull: nat, rejectedWaitTimeout: nat,
      workerFailures: nat)

  function Busy(workers: seq<Slot>): nat {
    if workers == [] then 0 else Busy(workers[..|workers| - 1]) + if workers[|workers| - 1].task.Some? then 1 else 0
  }

  predicate InFlight(workers: seq<Slot>, id: TaskId) {
    exists i :: 0 <= i < |workers| && workers[i].task == Some(id)
  }

  function Ids(queue: seq<TaskId>): set<TaskId> {
    set id | id in queue
  }

  predicate Increasing(ids: seq<TaskId>) {
    forall i, j :: 0 <= i < j < |ids| ==> ids[i] < ids[j]
  }

  // ----- What always holds

  /** Every submitted task is in exactly one place: settled, waiting, or with one worker. */
  ghost predicate Placed(nextId: nat, settled: map<TaskId, Verdict>, queue: seq<TaskId>, workers: seq<Slot>) {
    && (forall id :: 1 <= id <= nextId ==> id in settled || id in queue || InFlight(workers, id))
    && (forall id :: id in settled ==> 1 <= id <= nextId && id !in queue && !InFlight(workers, id))
    && (forall id :: id in queue ==> 1 <= id <= nextId && !InFlight(workers, id))
    && (forall id :: InFlight(workers, id) ==> 1 <= id <= nextId)
    && (forall i, j :: 0 <= i < j < |workers| && workers[i].task.Some? ==> workers[i].task != workers[j].task)
  }

  /** Tasks reach a worker in the order they were submitted. */
  predicate FirstComeFirstServed(dispatched: seq<TaskId>, queue: seq<TaskId>, nextId: nat) {
    && Increasing(dispatched) && Increasing(queue)
    && (forall i, j :: 0 <= i < |dispatched| && 0 <= j < |queue| ==> dispatched[i] < queue[j])
    && (forall i :: 0 <= i < |dispatched| ==> dispatched[i] <= nextId)
  }

  predicate Balanced(nextId: nat, stats: Stats, queue: seq<TaskId>, workers: seq<Slot>) {
    && nextId == stats.started + |queue| + stats.rejectedQueueFull + stats.rejectedWaitTimeout
    && stats.started == stats.completed + stats.workerFailures + Busy(workers)
  }

  predicate ThreadsOk(workers: seq<Slot>, size: nat, nextWorker: nat) {
    && |workers| <= size
    && (forall i :: 0 <= i < |workers| ==> workers[i].worker < nextWorker)
    && (forall i, j :: 0 <= i < j < |workers| ==> workers[i].worker != workers[j].worker)
  }

  /** Nobody waits while a worker is free. */
  predicate Saturated(queue: seq<TaskId>, workers: seq<Slot>, size: nat) {
    queue != [] ==> |workers| == size && forall i :: 0 <= i < |workers| ==> workers[i].task.Some?
  }

  // ----- Moving tasks

  lemma {:induction false} BusyConcat(a: seq<Slot>, b: seq<Slot>)
    ensures Busy(a + b) == Busy(a) + Busy(b)
  {
    if b == [] {
      assert a + b == a;
    } else {
      assert (a + b)[..|a + b| - 1] == a + b[..|b| - 1];
      BusyConcat(a, b[..|b| - 1]);
    }
  }

  lemma BusyOne(slot: Slot)
    ensures Busy([slot]) == if slot.task.Some? then 1 else 0
  {
    assert [slot][..0] == [];
  }

  lemma BusySplit(workers: seq<Slot>, i: nat)
    requires i < |workers|
    ensures Busy(workers) == Busy(workers[..i]) + Busy(workers[i + 1..]) + if workers[i].task.Some? then 1 else 0
  {
    BusyOne(workers[i]);
    assert workers == workers[..i] + ([workers[i]] + workers[i + 1..]);
    hide Busy;
    BusyConcat(workers[..i], [workers[i]] + workers[i + 1..]);
    BusyConcat([workers[i]], workers[i + 1..]);
  }

  lemma BusyWrite(workers: seq<Slot>, i: nat, slot: Slot)
    requires i < |workers|
    ensures Busy(workers[i := slot])
      == Busy(workers) + (if slot.task.Some? then 1 else 0) - (if workers[i].task.Some? then 1 else 0)
  {
    var after := workers[i := slot];
    assert after[..i] == workers[..i] && after[i + 1..] == workers[i + 1..];
    hide Busy;
    BusySplit(workers, i);
    BusySplit(after, i);
  }

  lemma BusyRemove(workers: seq<Slot>, i: nat)
    requires i < |workers|
    ensures Busy(workers[..i] + workers[i + 1..]) == Busy(workers) - (if workers[i].task.Some? then 1 else 0)
  {
    hide Busy;
    BusySplit(workers, i);
    BusyConcat(workers[..i], workers[i + 1..]);
  }

  lemma {:induction false} BusyBounds(workers: seq<Slot>)
    ensures Busy(workers) <= |workers|
    ensures Busy(workers) == |workers| <==> forall i :: 0 <= i < |workers| ==> workers[i].task.Some?
  {
    if workers != [] { BusyBounds(workers[..|workers| - 1]); }
  }

  /** The head of the queue moves to an idle worker. */
  lemma DispatchKeeps(nextId: nat, settled: map<TaskId, Verdict>, queue: seq<TaskId>, workers: seq<Slot>, i: nat)
    requires Placed(nextId, settled, queue, workers) && Increasing(queue) && queue != [] && i < |workers|
      && workers[i].task.None?
    ensures Placed(nextId, settled, queue[1..], workers[i := workers[i].(task := Some(queue[0]))])
  {
    var after, rest := workers[i := workers[i].(task := Some(queue[0]))], queue[1..];
    assert after[i].task == Some(queue[0]);
    assert queue[0] in queue;
    forall id ensures InFlight(after, id) <==> InFlight(workers, id) || id == queue[0] {
      if InFlight(workers, id) {
        var k :| 0 <= k < |workers| && workers[k].task == Some(id);
        assert after[k].task == Some(id);
      }
    }
    hide InFlight;
    assert forall id :: id in queue <==> id == queue[0] || id in rest;
    assert queue[0] !in rest;
  }

  /** A worker gives up its task, which is settled in the same step; the worker stays or is removed. */
  lemma SettleKeeps(nextId: nat, settled: map<TaskId, Verdict>, queue: seq<TaskId>, workers: seq<Slot>, i: nat,
      verdict: Verdict)
    requires Placed(nextId, settled, queue, workers) && i < |workers| && workers[i].task.Some?
    ensures workers[i].task.value !in settled
    ensures Placed(nextId, settled[workers[i].task.value := verdict], queue, workers[i := workers[i].(task := None)])
  {
    var id := workers[i].task.value;
    var after := workers[i := workers[i].(task := None)];
    assert InFlight(workers, id);
    forall k ensures InFlight(after, k) <==> InFlight(workers, k) && k != id {
      if InFlight(workers, k) && k != id {
        var n :| 0 <= n < |workers| && workers[n].task == Some(k);
        assert after[n].task == Some(k);
      }
    }
    hide InFlight;
  }

  lemma RemoveIdleKeeps(nextId: nat, settled: map<TaskId, Verdict>, queue: seq<TaskId>, workers: seq<Slot>, i: nat)
    requires Placed(nextId, settled, queue, workers) && i < |workers| && workers[i].task.None?
    ensures Placed(nextId, settled, queue, workers[..i] + workers[i + 1..])
  {
    var after := workers[..i] + workers[i + 1..];
    forall id ensures InFlight(after, id) <==> InFlight(workers, id) {
      if InFlight(workers, id) {
        var k :| 0 <= k < |workers| && workers[k].task == Some(id);
        assert after[if k < i then k else k - 1].task == Some(id);
      }
    }
    hide InFlight;
  }

  lemma SpawnKeeps(nextId: nat, settled: map<TaskId, Verdict>, queue: seq<TaskId>, workers: seq<Slot>, slot: Slot)
    requires Placed(nextId, settled, queue, workers) && slot.task.None?
    ensures Placed(nextId, settled, queue, workers + [slot])
  {
    forall id ensures InFlight(workers + [slot], id) <==> InFlight(workers, id) {
      if InFlight(workers, id) {
        var k :| 0 <= k < |workers| && workers[k].task == Some(id);
        assert (workers + [slot])[k].task == Some(id);
      }
    }
    hide InFlight;
  }

  /** A new task joins the queue, or is settled at once. */
  lemma SubmitKeeps(nextId: nat, settled: map<TaskId, Verdict>, queue: seq<TaskId>, workers: seq<Slot>,
      dispatched: seq<TaskId>, stats: Stats)
    requires Placed(nextId, settled, queue, workers) && FirstComeFirstServed(dispatched, queue, nextId)
      && Balanced(nextId, stats, queue, workers)
    ensures nextId + 1 !in settled
    ensures Placed(nextId + 1, settled, queue + [nextId + 1], workers)
    ensures FirstComeFirstServed(dispatched, queue + [nextId + 1], nextId + 1)
      && Balanced(nextId + 1, stats, queue + [nextId + 1], workers)
    ensures Placed(nextId + 1, settled[nextId + 1 := QueueFull], queue, workers)
      && FirstComeFirstServed(dispatched, queue, nextId + 1)
    ensures Balanced(nextId + 1, stats.(rejectedQueueFull := stats.rejectedQueueFull + 1), queue, workers)
  {
    hide InFlight, Busy;
    assert forall j :: 0 <= j < |queue| ==> queue[j] in queue;
  }

  lemma UnqueueKeeps(nextId: nat, settled: map<TaskId, Verdict>, queue: seq<TaskId>, workers: seq<Slot>, at: nat,
      verdict: Verdict)
    requires Placed(nextId, settled, queue, workers) && Increasing(queue) && at < |queue|
    ensures queue[at] !in settled
    ensures Placed(nextId, settled[queue[at] := verdict], queue[..at] + queue[at + 1..], workers)
  {
    hide InFlight;
    RestOf(queue, at);
  }

  lemma RestOf(queue: seq<TaskId>, at: nat)
    requires Increasing(queue) && at < |queue|
    ensures var rest := queue[..at] + queue[at + 1..];
      && queue[at] in queue && Increasing(rest)
      && forall id :: id in rest <==> id in queue && id != queue[at]
  {
    var rest := queue[..at] + queue[at + 1..];
    assert forall k :: 0 <= k < |rest| ==> rest[k] == queue[if k < at then k else k + 1];
    forall id ensures id in rest <==> id in queue && id != queue[at] {
      if id in queue && id != queue[at] {
        var k :| 0 <= k < |queue| && queue[k] == id;
        assert rest[if k < at then k else k - 1] == id;
      }
      if id in rest {
        var k :| 0 <= k < |rest| && rest[k] == id;
      }
    }
  }

  class PasswordHasher {
    const size: nat
    const limit: nat
    var workers: seq<Slot>
    var queue: seq<TaskId>
    var timers: set<TaskId>
    var nextId: nat
    var nextWorker: nat
    var closed: bool
    var stats: Stats
    var settled: map<TaskId, Verdict>
    ghost var dispatched: seq<TaskId>

    /** What holds at every moment, also between an enqueue and its dispatch. */
    ghost predicate Consistent()
      reads this
    {
      && size >= 1
      && Placed(nextId, settled, queue, workers)
      && FirstComeFirstServed(dispatched, queue, nextId)
      && ThreadsOk(workers, size, nextWorker)
      && (!closed ==> Balanced(nextId, stats, queue, workers))
      && (closed ==> queue == [] && workers == [])
    }

    ghost predicate Valid()
      reads this
    {
      && Consistent() && Saturated(queue, workers, size)
      && |queue| <= limit && timers == Ids(queue)
    }

    /** A concurrency below one is raised to one, a negative queue length to zero. */
    constructor (concurrency: int, maxQueue: int)
      ensures Valid() && !closed && nextId == 0 && settled == map[] && queue == []
      ensures size == (if concurrency < 1 then 1 else concurrency) && limit == if maxQueue < 0 then 0 else maxQueue
    {
      size := if concurrency < 1 then 1 else concurrency;
      limit := if maxQueue < 0 then 0 else maxQueue;
      workers, queue, timers, nextId, nextWorker, closed := [], [], {}, 0, 0, false;
      stats, settled, dispatched := Stats(0, 0, 0, 0, 0), map[], [];
    }

    /** Settles a promise, which nothing may do twice. */
    method Settle(id: TaskId, verdict: Verdict)
      requires id !in settled
      modifies this`settled
      ensures settled == old(settled)[id := verdict]
    {
      settled := settled[id := verdict];
    }

    /** An idle worker, created on demand; None only when all `size` workers are busy. */
    method IdleSlot() returns (found: Option<nat>)
      requires Consistent() && !closed
      modifies this`workers, this`nextWorker
      ensures Consistent() && Busy(workers) == old(Busy(workers))
      ensures workers == old(workers) || workers == old(workers) + [Slot(old(nextWorker), None)]
      ensures found.Some? ==> found.value < |workers| <= size && workers[found.value].task.None? && Busy(workers) < size
      ensures found.None? ==> Busy(workers) == |workers| == size
    {
      hide Placed, FirstComeFirstServed, Busy;
      for i := 0 to |workers|
        invariant forall k :: 0 <= k < i ==> workers[k].task.Some?
      {
        if workers[i].task.None? {
          BusyBounds(workers);
          return Some(i);
        }
      }
      BusyBounds(workers);
      if |workers| == size {
        return None;
      }
      SpawnKeeps(nextId, settled, queue, workers, Slot(nextWorker, None));
      BusyConcat(workers, [Slot(nextWorker, None)]);
      BusyOne(Slot(nextWorker, None));
      BusyBounds(workers + [Slot(nextWorker, None)]);
      assert (workers + [Slot(nextWorker, None)])[|workers|].task.None?;
      workers := workers + [Slot(nextWorker, None)];
      nextWorker := nextWorker + 1;
      return Some(|workers| - 1);
    }

    /** The first waiting task goes to an idle worker, and its timer is cleared. */
    method TakeHead(slot: nat)
      requires Consistent() && !closed && queue != [] && slot < |workers| && workers[slot].task.None?
      modifies this`workers, this`queue, this`timers, this`stats, this`dispatched
      ensures Consistent() && Busy(workers) == old(Busy(workers)) + 1
      ensures queue == old(queue)[1..] && dispatched == old(dispatched) + [old(queue)[0]]
      ensures timers == old(timers) - {old(queue)[0]} && stats == old(stats).(started := old(stats).started + 1)
    {
      hide Placed, Busy;
      DispatchKeeps(nextId, settled, queue, workers, slot);
      BusyWrite(workers, slot, workers[slot].(task := Some(queue[0])));
      HeadInRange(nextId, settled, queue, workers);
      var task := queue[0];
      queue := queue[1..];
      timers := timers - {task};
      workers := workers[slot := workers[slot].(task := Some(task))];
      stats := stats.(started := stats.started + 1);
      dispatched := dispatched + [task];
    }

    /** Hands the queue, head first, to every worker that can be had: min(waiting, size - busy) tasks. */
    method Pump()
      requires Consistent() && !closed
      modifies this`workers, this`nextWorker, this`queue, this`timers, this`stats, this`dispatched
      ensures Consistent() && Saturated(queue, workers, size)
      ensures var k := Min(|old(queue)|, size - old(Busy(workers)));
        && 0 <= k <= |old(queue)| && queue == old(queue)[k..] && dispatched == old(dispatched) + old(queue)[..k]
        && stats == old(stats).(started := old(stats).started + k)
      ensures timers == old(timers) - Ids(old(queue)[..|old(queue)| - |queue|])
    {
      hide Placed, Balanced, Busy, FirstComeFirstServed;
      ghost var k := 0;
      BusyBounds(workers);
      while |queue| > 0
        invariant Consistent() && k <= |old(queue)| && queue == old(queue)[k..]
        invariant dispatched == old(dispatched) + old(queue)[..k]
        invariant stats == old(stats).(started := old(stats).started + k)
        invariant timers == old(timers) - Ids(old(queue)[..k])
        invariant Busy(workers) == old(Busy(workers)) + k <= size
        decreases |queue|
      {
        var slot := IdleSlot();
        if slot.None? {
          BusyBounds(workers);
          break;
        }
        TakeHead(slot.value);
        k := k + 1;
        BusyBounds(workers);
      }
    }

    /** Takes a task unless the pool is closed, or every worker is busy and the queue is full. */
    method Submit() returns (answer: Result<TaskId, Verdict>)
      requires Valid()
      modifies this
      ensures Valid() && closed == old(closed)
      ensures if old(closed) then answer == Err(PoolClosed) && nextId == old(nextId) && settled == old(settled)
              else answer == Ok(nextId) && nextId == old(nextId) + 1 && nextId !in old(settled)
      ensures !closed ==>
              if old(Busy(workers)) < size then
                old(queue) == [] && queue == [] && dispatched == old(dispatched) + [nextId] && settled == old(settled)
                && stats == old(stats).(started := old(stats).started + 1)
              else if |old(queue)| >= limit then
                queue == old(queue) && dispatched == old(dispatched) && settled == old(settled)[nextId := QueueFull]
                && stats == old(stats).(rejectedQueueFull := old(stats).rejectedQueueFull + 1)
              else
                queue == old(queue) + [nextId] && dispatched == old(dispatched) && settled == old(settled)
                  && stats == old(stats)
    {
      hide Placed, Busy, FirstComeFirstServed, Balanced, ThreadsOk;
      if closed {
        return Err(PoolClosed);
      }
      IdleMeansEmpty(queue, workers, size);
      BusyBounds(workers);
      var slot := IdleSlot();
      SubmitKeeps(nextId, settled, queue, workers, dispatched, stats);
      nextId := nextId + 1;
      answer := Ok(nextId);
      if slot.None? && |queue| >= limit {
        stats := stats.(rejectedQueueFull := stats.rejectedQueueFull + 1);
        Settle(nextId, QueueFull);
        return;
      }
      queue := queue + [nextId];
      if slot.None? {
        timers := timers + {nextId};
      }
      ghost var pushed := queue;
      Pump();
      assert slot.None? ==> pushed[..0] == [];
      assert slot.Some? ==> pushed[..1] == [nextId];
      assert slot.None? ==> timers == Ids(queue);
    }

    /** Nothing but idle threads differs from before. */
    twostate predicate Unmoved()
      reads this
    {
      && queue == old(queue) && settled == old(settled) && stats == old(stats)
      && dispatched == old(dispatched) && nextId == old(nextId) && closed == old(closed)
    }

    /** A freed place goes to the longest waiting task. */
    twostate predicate HeadDispatched()
      reads this
    {
      if old(queue) == [] then queue == [] && dispatched == old(dispatched)
      else queue == old(queue)[1..] && dispatched == old(dispatched) + [old(queue)[0]]
    }

    /** A worker's message; it counts only if that worker still works on that very task. */
    method Answer(worker: nat, id: TaskId, ok: bool)
      requires Valid()
      modifies this
      ensures Valid()
      ensures !WorksOn(old(workers), worker, id) ==> Unmoved() && workers == old(workers)
      ensures WorksOn(old(workers), worker, id) ==>
              && id !in old(settled) && settled == old(settled)[id := if ok then Resolved else HashingFailed]
              && HeadDispatched() && nextId == old(nextId) && closed == old(closed)
              && stats == old(stats).(completed := old(stats).completed + 1, started := old(stats).started +
                if old(queue) == [] then 0 else 1)
    {
      hide Placed, Busy, FirstComeFirstServed, Balanced, IndexOf;
      var at := IndexOf(workers, worker);
      WorksOnIndex(workers, worker, id, size, nextWorker);
      if at.None? || workers[at.value].task != Some(id) {
        return;
      }
      var slot := workers[at.value];
      FreedKeeps(at.value, if ok then Resolved else HashingFailed);
      workers := workers[at.value := slot.(task := None)];
      stats := stats.(completed := stats.completed + 1);
      Settle(id, if ok then Resolved else HashingFailed);
      Refill();
    }

    /** Pumps after one worker was freed. */
    method Refill()
      requires Consistent() && !closed && |queue| <= limit && timers == Ids(queue)
      requires queue != [] ==> Busy(workers) == size - 1
      modifies this`workers, this`nextWorker, this`queue, this`timers, this`stats, this`dispatched
      ensures Valid() && HeadDispatched()
      ensures stats == old(stats).(started := old(stats).started + if old(queue) == [] then 0 else 1)
    {
      hide Placed, Busy, Balanced;
      ghost var waiting := queue;
      if queue != [] { IdsTail(queue); }
      BusyBounds(workers);
      Pump();
      assert waiting != [] ==> waiting[..1] == [waiting[0]];
      assert waiting[..0] == [];
    }

    /** A worker thread died: it is replaced on demand, and what it was working on is refused. */
    method Lost(worker: nat)
      requires Valid()
      modifies this
      ensures Valid() && nextId == old(nextId) && closed == old(closed)
      ensures var at := IndexOf(old(workers), worker);
        if at.None? || old(workers)[at.value].task.None? then Unmoved() else
          && var id := old(workers)[at.value].task.value;
          && id !in old(settled) && settled == old(settled)[id := WorkerLost]
          && HeadDispatched()
          && stats == old(stats).(workerFailures := old(stats).workerFailures + 1, started := old(stats).started +
            if old(queue) == [] then 0 else 1)
    {
      hide Placed, Busy, FirstComeFirstServed, Balanced, IndexOf;
      var at := IndexOf(workers, worker);
      IdleMeansEmpty(queue, workers, size);
      if at.None? {
        BusyBounds(workers);
        ghost var waiting := queue;
        if !closed {
          Pump();
          assert waiting[..0] == [];
        }
        return;
      }
      var slot := workers[at.value];
      if slot.task.Some? {
        FreedKeeps(at.value, WorkerLost);
        workers := workers[at.value := slot.(task := None)];
        stats := stats.(workerFailures := stats.workerFailures + 1);
        Settle(slot.task.value, WorkerLost);
      } else {
        BusyBelow(workers, at.value);
      }
      RemoveIdleKeeps(nextId, settled, queue, workers, at.value);
      BusyRemoved(at.value);
      workers := workers[..at.value] + workers[at.value + 1..];
      Refill();
    }

    /** A waiting task's timer fired: it leaves the queue and is refused. */
    method TimeOut(id: TaskId)
      requires Valid() && id in timers
      modifies this
      ensures Valid() && id in old(queue) && id !in old(settled) && settled == old(settled)[id := WaitTimeout]
      ensures dispatched == old(dispatched) && nextId == old(nextId) && closed == old(closed) && workers == old(workers)
      ensures forall k :: k in queue <==> k in old(queue) && k != id
      ensures stats == old(stats).(rejectedWaitTimeout := old(stats).rejectedWaitTimeout + 1)
    {
      hide Placed, Busy;
      var at := Position(queue, id);
      UnqueueKeeps(nextId, settled, queue, workers, at, WaitTimeout);
      RestOf(queue, at);
      queue := queue[..at] + queue[at + 1..];
      timers := timers - {id};
      stats := stats.(rejectedWaitTimeout := stats.rejectedWaitTimeout + 1);
      Settle(id, WaitTimeout);
    }

    /** Closing settles everything that was left, and nothing twice. */
    method Close()
      requires Valid()
      modifies this
      ensures Valid() && closed && queue == [] && workers == [] && nextId == old(nextId)
      ensures dispatched == old(dispatched) && stats == old(stats)
      ensures forall id :: 1 <= id <= nextId ==>
                id in settled && settled[id] == if id in old(settled) then old(settled)[id] else PoolClosed
    {
      hide Busy, Balanced, Placed;
      closed := true;
      var waiting, slots := queue, workers;
      queue, timers, workers := [], {}, [];
      for k := 0 to |waiting|
        invariant Placed(nextId, settled, waiting[k..], slots)
        invariant Increasing(waiting[k..])
        invariant forall id :: id in old(settled) ==> id in settled && settled[id] == old(settled)[id]
        invariant forall id :: id in settled && id !in old(settled) ==> settled[id] == PoolClosed
        modifies this`settled
      {
        UnqueueKeeps(nextId, settled, waiting[k..], slots, 0, PoolClosed);
        assert waiting[k..][..0] + waiting[k..][1..] == waiting[k + 1..];
        Settle(waiting[k], PoolClosed);
      }
      for k := 0 to |slots|
        invariant Placed(nextId, settled, [], slots[k..])
        invariant forall id :: id in old(settled) ==> id in settled && settled[id] == old(settled)[id]
        invariant forall id :: id in settled && id !in old(settled) ==> settled[id] == PoolClosed
        modifies this`settled
      {
        var left, idle := slots[k..], slots[k..];
        if slots[k].task.Some? {
          idle := left[0 := left[0].(task := None)];
          SettleKeeps(nextId, settled, [], left, 0, PoolClosed);
          Settle(slots[k].task.value, PoolClosed);
        }
        RemoveIdleKeeps(nextId, settled, [], idle, 0);
        assert idle[..0] + idle[1..] == slots[k + 1..];
      }
      assert slots[|slots|..] == [];
      NothingLeft(nextId, settled);
    }

    /** Settling what a busy slot works on keeps each task in one place, and frees one worker. */
    lemma FreedKeeps(at: nat, verdict: Verdict)
      requires Valid() && at < |workers| && workers[at].task.Some?
      ensures var freed := workers[at := workers[at].(task := None)];
        && workers[at].task.value !in settled && !closed
        && Placed(nextId, settled[workers[at].task.value := verdict], queue, freed)
        && Busy(freed) == Busy(workers) - 1 && ThreadsOk(freed, size, nextWorker)
        && Balanced(nextId, stats.(completed := stats.completed + 1), queue, freed)
        && Balanced(nextId, stats.(workerFailures := stats.workerFailures + 1), queue, freed)
        && (queue != [] ==> Busy(workers) == size)
    {
      SettleKeeps(nextId, settled, queue, workers, at, verdict);
      BusyWrite(workers, at, workers[at].(task := None));
      BusyBounds(workers);
      hide Placed, Busy;
    }

    lemma BusyRemoved(at: nat)
      requires at < |workers| && workers[at].task.None? && ThreadsOk(workers, size, nextWorker)
      ensures var rest := workers[..at] + workers[at + 1..];
        && Busy(rest) == Busy(workers) && ThreadsOk(rest, size, nextWorker)
        && (Balanced(nextId, stats, queue, workers) ==> Balanced(nextId, stats, queue, rest))
    {
      BusyRemove(workers, at);
      hide Busy;
    }
  }

  lemma NothingLeft(nextId: nat, settled: map<TaskId, Verdict>)
    requires Placed(nextId, settled, [], [])
    ensures forall id :: 1 <= id <= nextId ==> id in settled
  {
  }

  lemma IdsTail(queue: seq<TaskId>)
    requires Increasing(queue) && queue != []
    ensures Ids(queue[1..]) == Ids(queue) - Ids(queue[..1])
  {
    assert queue == [queue[0]] + queue[1..];
    assert queue[..1] == [queue[0]];
  }

  lemma BusyBelow(workers: seq<Slot>, i: nat)
    requires i < |workers| && workers[i].task.None?
    ensures Busy(workers) < |workers|
  {
    BusyBounds(workers);
  }

  /** The slot of a thread, if it is still part of the pool. */
  function IndexOf(workers: seq<Slot>, worker: nat): (r: Option<nat>)
    ensures r.Some? ==> r.value < |workers| && workers[r.value].worker == worker
    ensures r.None? ==> forall i :: 0 <= i < |workers| ==> workers[i].worker != worker
  {
    if workers == [] then None
    else if workers[|workers| - 1].worker == worker then Some(|workers| - 1)
    else IndexOf(workers[..|workers| - 1], worker)
  }

  predicate WorksOn(workers: seq<Slot>, worker: nat, id: TaskId) {
    exists i :: 0 <= i < |workers| && workers[i] == Slot(worker, Some(id))
  }

  lemma WorksOnIndex(workers: seq<Slot>, worker: nat, id: TaskId, size: nat, nextWorker: nat)
    requires ThreadsOk(workers, size, nextWorker)
    ensures WorksOn(workers, worker, id) <==>
              IndexOf(workers, worker).Some? && workers[IndexOf(workers, worker).value].task == Some(id)
  {
    hide IndexOf;
    if IndexOf(workers, worker).Some? {
      var k := IndexOf(workers, worker).value;
      if workers[k].task == Some(id) { assert workers[k] == Slot(worker, Some(id)); }
    }
  }

  lemma IdleMeansEmpty(queue: seq<TaskId>, workers: seq<Slot>, size: nat)
    requires Saturated(queue, workers, size)
    ensures Busy(workers) < size ==> queue == []
  {
    BusyBounds(workers);
  }

  lemma HeadInRange(nextId: nat, settled: map<TaskId, Verdict>, queue: seq<TaskId>, workers: seq<Slot>)
    requires Placed(nextId, settled, queue, workers) && queue != []
    ensures 1 <= queue[0] <= nextId
  {
    assert queue[0] in queue;
  }

}
