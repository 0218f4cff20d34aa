/** Fixed-window throttling: the process-local window and the shared table row, and what either admits. */
module Throttle {
  import opened Wrappers

  type Key = string
  /** Milliseconds. */
  type Time = int

  datatype Window = Window(count: nat, resetAt: Time)
  datatype Decision = Decision(allowed: bool, remaining: nat, retryAfterSeconds: int)

  const GRACE_MS: int := 60000

  /** Milliseconds as whole seconds, rounded up. */
  function CeilSeconds(ms: int): int {
    -((-ms) / 1000)
  }

  function Live(w: Option<Window>, now: Time): Option<Window> {
    if w.Some? && w.value.resetAt > now then w else None
  }

  /** A row whose window has passed starts again at one. */
  function Counted(w: Option<Window>, now: Time, windowSeconds: int): Window {
    match Live(w, now)
    case None => Window(1, now + windowSeconds * 1000)
    case Some(current) => current.(count := current.count + 1)
  }

  function LocalDecision(w: Option<Window>, now: Time, limit: nat, windowSeconds: int): Decision {
    match Live(w, now)
    case None => Decision(true, Max(0, limit - 1), windowSeconds)
    case Some(current) =>
      Decision(current.count + 1 <= limit, Max(0, limit - (current.count + 1)),
        Max(1, CeilSeconds(current.resetAt - now)))
  }

  function SharedDecision(w: Option<Window>, now: Time, limit: nat, windowSeconds: int): Decision {
    var row := Counted(w, now, windowSeconds);
    Decision(row.count <= limit, Max(0, limit - row.count), Min(windowSeconds, Max(1, CeilSeconds(row.resetAt - now))))
  }

  class Counters {
    var local: map<Key, Window>
    var shared: map<Key, Window>

    constructor ()
      ensures local == map[] && shared == map[]
    {
      local, shared := map[], map[];
    }

    static function Row(table: map<Key, Window>, key: Key): Option<Window> {
      if key in table then Some(table[key]) else None
    }

    /** An expired entry is dropped on the read; the first call of a window is always allowed. */
    method LocalCheck(bucket: Key, limit: nat, windowSeconds: int, now: Time) returns (decision: Decision)
      requires windowSeconds >= 1
      modifies this`local
      ensures local == old(local)[bucket := Counted(Row(old(local), bucket), now, windowSeconds)]
      ensures decision == LocalDecision(Row(old(local), bucket), now, limit, windowSeconds)
    {
      if bucket in local && local[bucket].resetAt <= now {
        local := local - {bucket};
      }
      if bucket !in local {
        local := local[bucket := Window(1, now + windowSeconds * 1000)];
        return Decision(true, Max(0, limit - 1), windowSeconds);
      }
      var count := local[bucket].count + 1;
      local := local[bucket := local[bucket].(count := count)];
      return Decision(count <= limit, Max(0, limit - count), Max(1, CeilSeconds(local[bucket].resetAt - now)));
    }

    /** One atomic upsert. */
    method SharedCheck(key: Key, limit: nat, windowSeconds: int, now: Time) returns (decision: Decision)
      requires windowSeconds >= 1
      modifies this`shared
      ensures shared == old(shared)[key := Counted(Row(old(shared), key), now, windowSeconds)]
      ensures decision == SharedDecision(Row(old(shared), key), now, limit, windowSeconds)
    {
      var row := if key !in shared || shared[key].resetAt <= now then Window(1, now + windowSeconds * 1000)
                 else shared[key].(count := shared[key].count + 1);
      shared := shared[key := row];
      return Decision(row.count <= limit, Max(0, limit - row.count),
        Min(windowSeconds, Max(1, CeilSeconds(row.resetAt - now))));
    }

    /** Deletes any batch of rows that ended more than a minute ago. */
    method Prune(batch: set<Key>, now: Time)
      requires forall k :: k in batch ==> k in shared && shared[k].resetAt < now - GRACE_MS
      modifies this`shared
      ensures shared == old(shared) - batch
    {
      shared := shared - batch;
    }
  }

  // ----- One bucket over time

  /** A window never reaches further than one length ahead of the call that began it. */
  predicate Sane(w: Option<Window>, now: Time, windowSeconds: int) {
    w.Some? ==> w.value.count >= 1 && w.value.resetAt <= now + windowSeconds * 1000
  }

  /** The two stores decide alike exactly when the limit admits anything or a window is running. */
  lemma DecisionsAgree(w: Option<Window>, now: Time, limit: nat, windowSeconds: int)
    requires windowSeconds >= 1 && Sane(w, now, windowSeconds)
    ensures LocalDecision(w, now, limit, windowSeconds) == SharedDecision(w, now, limit, windowSeconds)
       <==> limit >= 1 || Live(w, now).Some?
    ensures Sane(Some(Counted(w, now, windowSeconds)), now, windowSeconds)
  {
  }

  datatype Call = Check(at: Time) | Prune(at: Time)

  predicate InOrder(calls: seq<Call>) {
    forall i, j :: 0 <= i < j < |calls| ==> calls[i].at <= calls[j].at
  }

  /** Pruning removes the row only if it ended more than a minute ago. */
  function Pruned(w: Option<Window>, now: Time): Option<Window> {
    if w.Some? && w.value.resetAt < now - GRACE_MS then None else w
  }

  function SharedAfter(calls: seq<Call>, windowSeconds: int): Option<Window> {
    if calls == [] then None else
      var w, last := SharedAfter(calls[..|calls| - 1], windowSeconds), calls[|calls| - 1];
      if last.Prune? then Pruned(w, last.at) else Some(Counted(w, last.at, windowSeconds))
  }

  /** The local window sees the same checks, and no pruning. */
  function LocalAfter(calls: seq<Call>, windowSeconds: int): Option<Window> {
    if calls == [] then None else
      var w, last := LocalAfter(calls[..|calls| - 1], windowSeconds), calls[|calls| - 1];
      if last.Prune? then w else Some(Counted(w, last.at, windowSeconds))
  }

  lemma {:induction false} StoresAgree(calls: seq<Call>, windowSeconds: int, now: Time)
    requires windowSeconds >= 1 && InOrder(calls) && (calls != [] ==> calls[|calls| - 1].at <= now)
    ensures Live(SharedAfter(calls, windowSeconds), now) == Live(LocalAfter(calls, windowSeconds), now)
    ensures Sane(LocalAfter(calls, windowSeconds), now, windowSeconds)
  {
    if calls != [] {
      var init, last := calls[..|calls| - 1], calls[|calls| - 1];
      StoresAgree(init, windowSeconds, last.at);
    }
  }

  /** After any history of checks and prunings both stores give the next caller the same answer. */
  lemma SameAnswers(calls: seq<Call>, limit: nat, windowSeconds: int, now: Time)
    requires windowSeconds >= 1 && limit >= 1 && InOrder(calls) && (calls != [] ==> calls[|calls| - 1].at <= now)
    ensures SharedDecision(SharedAfter(calls, windowSeconds), now, limit, windowSeconds)
         == LocalDecision(LocalAfter(calls, windowSeconds), now, limit, windowSeconds)
  {
    StoresAgree(calls, windowSeconds, now);
    DecisionsAgree(LocalAfter(calls, windowSeconds), now, limit, windowSeconds);
  }

  /** How many checks of [from, from + window) were allowed. */
  function AdmittedIn(calls: seq<Call>, limit: nat, windowSeconds: int, from: Time): nat {
    if calls == [] then 0 else
      var init, last := calls[..|calls| - 1], calls[|calls| - 1];
      var here := last.Check? && from <= last.at < from + windowSeconds * 1000
                  && SharedDecision(SharedAfter(init, windowSeconds), last.at, limit, windowSeconds).allowed;
      AdmittedIn(init, limit, windowSeconds, from) + if here then 1 else 0
  }

  /** How many a half-open interval may have seen by the time `last`, given the row's current window. */
  predicate Bounded(w: Option<Window>, last: Time, admitted: nat, limit: nat, length: int, from: Time) {
    && (last < from ==> admitted == 0)
    && admitted <= Max(0, 2 * limit - 1)
    && (w.Some? ==>
          var start := w.value.resetAt - length;
          && start <= last
          && w.value.count >= 1
          && (start < from ==> admitted <= Max(0, Min(w.value.count, limit) - 1))
          && (from <= start < from + length ==> admitted <= Max(0, limit - 1 + Min(w.value.count, limit))))
    && (w.None? ==> admitted <= Max(0, limit - 1) || last >= from + length)
  }

  lemma {:induction false} BoundedAfter(calls: seq<Call>, limit: nat, windowSeconds: int, from: Time)
    requires windowSeconds >= 1 && InOrder(calls) && calls != []
    ensures Bounded(SharedAfter(calls, windowSeconds), calls[|calls| - 1].at,
      AdmittedIn(calls, limit, windowSeconds, from),
                    limit, windowSeconds * 1000, from)
  {
    var init, last := calls[..|calls| - 1], calls[|calls| - 1];
    if init != [] {
      BoundedAfter(init, limit, windowSeconds, from);
    }
  }

  /** No interval of one window length admits twice the limit. */
  lemma BelowTwiceTheLimit(calls: seq<Call>, limit: nat, windowSeconds: int, from: Time)
    requires windowSeconds >= 1 && InOrder(calls)
    ensures AdmittedIn(calls, limit, windowSeconds, from) <= Max(0, 2 * limit - 1)
  {
    if calls != [] { BoundedAfter(calls, limit, windowSeconds, from); }
  }

  function Burst(at: Time, n: nat): seq<Call> {
    seq(n, i => Check(at))
  }

  lemma OneMoreAdmitted(calls: seq<Call>, at: Time, limit: nat, windowSeconds: int, from: Time)
    requires from <= at < from + windowSeconds * 1000
    requires var w := SharedAfter(calls, windowSeconds); w.Some? && w.value.resetAt > at && w.value.count < limit
    ensures var w := SharedAfter(calls, windowSeconds).value;
      SharedAfter(calls + [Check(at)], windowSeconds) == Some(w.(count := w.count + 1))
    ensures AdmittedIn(calls + [Check(at)], limit, windowSeconds, from)
      == AdmittedIn(calls, limit, windowSeconds, from) + 1
  {
    assert (calls + [Check(at)])[..|calls|] == calls;
  }

  lemma {:induction false} BurstAdmits(calls: seq<Call>, at: Time, n: nat, limit: nat, windowSeconds: int, from: Time)
    requires windowSeconds >= 1 && from <= at < from + windowSeconds * 1000
    requires var w := SharedAfter(calls, windowSeconds); w.Some? && w.value.resetAt > at && w.value.count + n <= limit
    ensures var w := SharedAfter(calls, windowSeconds).value;
      SharedAfter(calls + Burst(at, n), windowSeconds) == Some(w.(count := w.count + n))
    ensures AdmittedIn(calls + Burst(at, n), limit, windowSeconds, from)
      == AdmittedIn(calls, limit, windowSeconds, from) + n
  {
    if n == 0 {
      assert calls + Burst(at, 0) == calls;
    } else {
      BurstAdmits(calls, at, n - 1, limit, windowSeconds, from);
      hide SharedAfter, AdmittedIn;
      OneMoreAdmitted(calls + Burst(at, n - 1), at, limit, windowSeconds, from);
      assert calls + Burst(at, n) == calls + Burst(at, n - 1) + [Check(at)];
    }
  }

  lemma NothingYet(limit: nat, windowSeconds: int, from: Time)
    ensures SharedAfter([], windowSeconds).None? && AdmittedIn([], limit, windowSeconds, from) == 0
  {
  }

  /** A check that finds no running window opens one, and is admitted. */
  lemma WindowOpens(calls: seq<Call>, at: Time, limit: nat, windowSeconds: int, from: Time)
    requires limit >= 1 && Live(SharedAfter(calls, windowSeconds), at).None?
    ensures SharedAfter(calls + [Check(at)], windowSeconds) == Some(Window(1, at + windowSeconds * 1000))
    ensures AdmittedIn(calls + [Check(at)], limit, windowSeconds, from)
         == AdmittedIn(calls, limit, windowSeconds, from) + if from <= at < from + windowSeconds * 1000 then 1 else 0
  {
    assert (calls + [Check(at)])[..|calls|] == calls;
  }

  /** One less is reached: most of a window's calls just before it ends, and a whole window's just after. */
  lemma BoundIsReached(limit: nat, windowSeconds: int) returns (calls: seq<Call>, from: Time)
    requires windowSeconds >= 1 && limit >= 1
    ensures InOrder(calls) && AdmittedIn(calls, limit, windowSeconds, from) == 2 * limit - 1
  {
    hide SharedAfter, AdmittedIn;
    var length := windowSeconds * 1000;
    from := length - 1;
    NothingYet(limit, windowSeconds, from);
    WindowOpens([], 0, limit, windowSeconds, from);
    var first := [] + [Check(0)];
    BurstAdmits(first, length - 1, limit - 1, limit, windowSeconds, from);
    var late := first + Burst(length - 1, limit - 1);
    WindowOpens(late, length, limit, windowSeconds, from);
    var again := late + [Check(length)];
    BurstAdmits(again, length, limit - 1, limit, windowSeconds, from);
    calls := again + Burst(length, limit - 1);
  }

  // ----- What a caller is told

  /** Whole seconds, rounded up: the least number of seconds that is not too short. */
  lemma CeilSecondsIsLeast(ms: int, seconds: int)
    ensures ms <= seconds * 1000 <==> CeilSeconds(ms) <= seconds
  {
  }

  /** In either store: waiting the told time outlasts the running window, and a second less would not. */
  lemma RetryAfterOutlastsTheWindow(w: Option<Window>, now: Time, limit: nat, windowSeconds: int)
    requires windowSeconds >= 1 && Sane(w, now, windowSeconds) && Live(w, now).Some?
    ensures LocalDecision(w, now, limit, windowSeconds).retryAfterSeconds
         == SharedDecision(w, now, limit, windowSeconds).retryAfterSeconds
    ensures var seconds := LocalDecision(w, now, limit, windowSeconds).retryAfterSeconds;
      Live(w, now + seconds * 1000).None? && (seconds > 1 ==> Live(w, now + (seconds - 1) * 1000).Some?)
  {
  }

  /** `remaining` is the number of further calls that will still be admitted in this window. */
  lemma RemainingIsWhatIsLeft(calls: seq<Call>, at: Time, limit: nat, windowSeconds: int, n: nat)
    requires windowSeconds >= 1
    requires Live(SharedAfter(calls + [Check(at)], windowSeconds), at).Some?
    ensures var told := SharedDecision(SharedAfter(calls, windowSeconds), at, limit, windowSeconds).remaining;
      var later := SharedAfter(calls + [Check(at)] + Burst(at, n), windowSeconds);
      SharedDecision(later, at, limit, windowSeconds).allowed <==> n < told
  {
    var counted := calls + [Check(at)];
    assert counted[..|calls|] == calls;
    BurstCounts(counted, at, n, windowSeconds);
  }

  lemma {:induction false} BurstCounts(calls: seq<Call>, at: Time, n: nat, windowSeconds: int)
    requires Live(SharedAfter(calls, windowSeconds), at).Some?
    ensures SharedAfter(calls + Burst(at, n), windowSeconds)
         == Some(SharedAfter(calls, windowSeconds).value.(count := SharedAfter(calls, windowSeconds).value.count + n))
  {
    if n == 0 {
      assert calls + Burst(at, 0) == calls;
    } else {
      BurstCounts(calls, at, n - 1, windowSeconds);
      assert (calls + Burst(at, n))[..|calls| + n - 1] == calls + Burst(at, n - 1);
    }
  }
}
