/**
 Row locks of the quota transactions. Each transaction takes its locks one after the other, the User row first,
 waits in a queue where it must, and keeps what it has until it ends.
 */
module LockOrder {
  import opened Wrappers

  type Id = nat

  datatype Row = UserRow(user: Id) | SessionRow(session: Id) | ReservationRow(reservation: Id)
  datatype Mode = Shared | Exclusive
  datatype Lock = Lock(row: Row, mode: Mode)

  /** The transactions over these rows. */
  datatype Operation =
    | CommitCompletion(user: Id, session: Id)
    | ReleaseSession(user: Id, session: Id)
    | RecoverStaleCompletion(user: Id, session: Id)
    | InsertPart(user: Id, session: Id)
    | ClaimCompletion(session: Id)
    | RenewCompletionLease(session: Id)
    | RelinquishCompletion(session: Id)
    | CreateReservation(user: Id)
    | CommitReservation(user: Id, reservation: Id)
    | ReleaseReservation(user: Id, reservation: Id)
    | RenewReservation(reservation: Id)
    | ChangeAccount(user: Id)

  function Locks(op: Operation): seq<Lock> {
    match op
    case CommitCompletion(u, s) => [Lock(UserRow(u), Exclusive), Lock(SessionRow(s), Exclusive)]
    case ReleaseSession(u, s) => [Lock(UserRow(u), Exclusive), Lock(SessionRow(s), Exclusive)]
    case RecoverStaleCompletion(u, s) => [Lock(UserRow(u), Exclusive), Lock(SessionRow(s), Exclusive)]
    case InsertPart(u, s) => [Lock(UserRow(u), Shared), Lock(SessionRow(s), Shared)]
    case ClaimCompletion(s) => [Lock(SessionRow(s), Exclusive)]
    case RenewCompletionLease(s) => [Lock(SessionRow(s), Exclusive)]
    case RelinquishCompletion(s) => [Lock(SessionRow(s), Exclusive)]
    case CreateReservation(u) => [Lock(UserRow(u), Exclusive)]
    case CommitReservation(u, r) => [Lock(UserRow(u), Exclusive), Lock(ReservationRow(r), Exclusive)]
    case ReleaseReservation(u, r) => [Lock(UserRow(u), Exclusive), Lock(ReservationRow(r), Exclusive)]
    case RenewReservation(r) => [Lock(ReservationRow(r), Exclusive)]
    case ChangeAccount(u) => [Lock(UserRow(u), Exclusive)]
  }

  function Rank(row: Row): nat {
    if row.UserRow? then 0 else 1
  }

  /** Locks are taken in strictly rising rank, so no row is locked twice and no shared lock is upgraded. */
  predicate Ordered(locks: seq<Lock>) {
    forall i, j :: 0 <= i < j < |locks| ==> Rank(locks[i].row) < Rank(locks[j].row)
  }

  lemma OperationsAreOrdered(op: Operation)
    ensures Ordered(Locks(op))
  {
  }

  // ----- Transactions at work

  /** Holds the first `granted` locks; a waiting one queues for the next. */
  datatype Txn = Txn(locks: seq<Lock>, granted: nat, waiting: bool)
  datatype State = State(txns: map<Id, Txn>, queues: map<Row, seq<Id>>) {
    function Queue(row: Row): seq<Id> { if row in queues then queues[row] else [] }
  }

  predicate Conflict(a: Mode, b: Mode) {
    a == Exclusive || b == Exclusive
  }

  predicate Holds(s: State, t: Id, row: Row, mode: Mode) {
    t in s.txns
      && exists i :: 0 <= i < s.txns[t].granted && i < |s.txns[t].locks| && s.txns[t].locks[i] == Lock(row, mode)
  }

  /** Somebody else holds the row in a conflicting mode. */
  predicate Blocked(s: State, t: Id, lock: Lock) {
    exists h :: h in s.txns && h != t && HoldsAgainst(s, h, lock)
  }

  predicate HoldsAgainst(s: State, h: Id, lock: Lock) {
    (Conflict(lock.mode, Shared) && Holds(s, h, lock.row, Shared)) || Holds(s, h, lock.row, Exclusive)
  }

  predicate CanAsk(s: State, t: Id) {
    t in s.txns && !s.txns[t].waiting && s.txns[t].granted < |s.txns[t].locks|
  }

  predicate Waits(s: State, t: Id) {
    t in s.txns && s.txns[t].waiting && s.txns[t].granted < |s.txns[t].locks|
  }

  function Wanted(s: State, t: Id): Lock
    requires Waits(s, t)
  {
    s.txns[t].locks[s.txns[t].granted]
  }

  datatype Step = Begin(t: Id, op: Operation) | Ask(t: Id) | Grant(t: Id) | End(t: Id)

  predicate Enabled(s: State, step: Step) {
    match step
    case Begin(t, _) => t !in s.txns
    case Ask(t) => CanAsk(s, t)
    case Grant(t) => Waits(s, t) && MayGo(s, t)
    case End(t) => t in s.txns
  }

  /** First in its queue, and nobody holds the row against it. */
  predicate MayGo(s: State, t: Id)
    requires Waits(s, t)
  {
    var q := s.Queue(Wanted(s, t).row);
    q != [] && q[0] == t && !Blocked(s, t, Wanted(s, t))
  }

  function Remove(q: seq<Id>, t: Id): seq<Id> {
    if q == [] then [] else Remove(q[..|q| - 1], t) + if q[|q| - 1] == t then [] else [q[|q| - 1]]
  }

  function Next(s: State, step: Step): State
    requires Enabled(s, step)
  {
    match step
    case Begin(t, op) => s.(txns := s.txns[t := Txn(Locks(op), 0, false)])
    case Ask(t) =>
      var txn := s.txns[t];
      var lock := txn.locks[txn.granted];
      if s.Queue(lock.row) == [] && !Blocked(s, t, lock) then s.(txns := s.txns[t := txn.(granted := txn.granted + 1)])
      else State(s.txns[t := txn.(waiting := true)], s.queues[lock.row := s.Queue(lock.row) + [t]])
    case Grant(t) =>
      var txn, row := s.txns[t], Wanted(s, t).row;
      State(s.txns[t := txn.(granted := txn.granted + 1, waiting := false)], s.queues[row := s.Queue(row)[1..]])
    case End(t) =>
      // Commit, rollback, or a wait that is cancelled.
      if Waits(s, t) then
        var row := Wanted(s, t).row;
        State(s.txns - {t}, s.queues[row := Remove(s.Queue(row), t)])
      else s.(txns := s.txns - {t})
  }

  // ----- What always holds

  predicate TxnOk(s: State, t: Id)
    requires t in s.txns
  {
    var txn := s.txns[t];
    && Ordered(txn.locks) && txn.granted <= |txn.locks|
    && (txn.waiting ==> txn.granted < |txn.locks| && t in s.Queue(txn.locks[txn.granted].row))
  }

  /** Exactly the waiting transactions stand in the queue of the row they want, each once. */
  predicate QueueOk(s: State, row: Row) {
    && (forall i :: 0 <= i < |s.Queue(row)| ==> Waits(s, s.Queue(row)[i]) && Wanted(s, s.Queue(row)[i]).row == row)
    && Distinct(s.Queue(row))
  }

  ghost predicate Inv(s: State) {
    && (forall t :: t in s.txns ==> TxnOk(s, t))
    && (forall row :: QueueOk(s, row))
  }

  lemma {:induction false} RemoveHolds(q: seq<Id>, t: Id)
    ensures forall x :: x in Remove(q, t) <==> x in q && x != t
  {
    if q != [] {
      RemoveHolds(q[..|q| - 1], t);
      assert q == q[..|q| - 1] + [q[|q| - 1]];
    }
  }

  predicate Distinct(q: seq<Id>) {
    forall i, j :: 0 <= i < j < |q| ==> q[i] != q[j]
  }

  lemma {:induction false} RemoveKeepsDistinct(q: seq<Id>, t: Id)
    requires Distinct(q)
    ensures Distinct(Remove(q, t))
  {
    if q != [] {
      var init := q[..|q| - 1];
      RemoveKeepsDistinct(init, t);
      RemoveHolds(init, t);
      var kept := Remove(init, t);
      forall i | 0 <= i < |kept| ensures kept[i] != q[|q| - 1] { assert kept[i] in kept; }
    }
  }

  /** A queue is still in order when its members have not changed. */
  lemma QueueStays(s: State, after: State, row: Row)
    requires QueueOk(s, row) && Distinct(after.Queue(row))
    requires forall x :: x in after.Queue(row) ==> x in s.Queue(row) && x in after.txns && after.txns[x] == s.txns[x]
    ensures QueueOk(after, row)
  {
    hide Distinct;
    var q := after.Queue(row);
    forall i | 0 <= i < |q| ensures Waits(after, q[i]) && Wanted(after, q[i]).row == row {
      assert q[i] in q;
      var k :| 0 <= k < |s.Queue(row)| && s.Queue(row)[k] == q[i];
      assert Waits(s, s.Queue(row)[k]);
    }
  }

  lemma QueueMembers(s: State, row: Row)
    requires QueueOk(s, row)
    ensures forall x :: x in s.Queue(row) ==> Waits(s, x) && Wanted(s, x).row == row
  {
  }

  lemma BeginKeeps(s: State, t: Id, op: Operation)
    requires Inv(s) && Enabled(s, Begin(t, op))
    ensures Inv(Next(s, Begin(t, op)))
  {
    OperationsAreOrdered(op);
    hide Locks, Ordered;
    var after := Next(s, Begin(t, op));
    forall row ensures QueueOk(after, row) {
      QueueMembers(s, row);
      QueueStays(s, after, row);
    }
    forall x | x in after.txns ensures TxnOk(after, x) { assert x in s.txns ==> TxnOk(s, x); }
  }

  lemma AskKeeps(s: State, t: Id)
    requires Inv(s) && Enabled(s, Ask(t))
    ensures Inv(Next(s, Ask(t)))
  {
    hide Blocked, Ordered;
    var after := Next(s, Ask(t));
    assert TxnOk(s, t);
    forall row ensures QueueOk(after, row) {
      assert QueueOk(s, row);
      QueueMembers(s, row);
      if after.Queue(row) == s.Queue(row) { QueueStays(s, after, row); } else { JoinsQueue(s, t); }
    }
    forall x | x in after.txns ensures TxnOk(after, x) { assert TxnOk(s, x); }
  }

  lemma JoinsQueue(s: State, t: Id)
    requires CanAsk(s, t)
    requires var row := s.txns[t].locks[s.txns[t].granted].row; QueueOk(s, row) && t !in s.Queue(row)
    ensures var txn := s.txns[t];
      var row := txn.locks[txn.granted].row;
      QueueOk(State(s.txns[t := txn.(waiting := true)], s.queues[row := s.Queue(row) + [t]]), row)
  {
    var row := s.txns[t].locks[s.txns[t].granted].row;
    QueueMembers(s, row);
    var after := State(s.txns[t := s.txns[t].(waiting := true)], s.queues[row := s.Queue(row) + [t]]);
    var q := s.Queue(row);
    assert after.Queue(row) == q + [t] && Waits(after, t) && Wanted(after, t).row == row;
    forall i | 0 <= i < |q| ensures Waits(after, q[i]) && Wanted(after, q[i]).row == row {
      assert q[i] in q;
    }
  }

  lemma GrantKeeps(s: State, t: Id)
    requires Inv(s) && Enabled(s, Grant(t))
    ensures Inv(Next(s, Grant(t)))
  {
    hide Blocked, Ordered;
    var after := Next(s, Grant(t));
    var q := s.Queue(Wanted(s, t).row);
    assert TxnOk(s, t) && QueueOk(s, Wanted(s, t).row);
    assert q == [t] + q[1..];
    forall row ensures QueueOk(after, row) {
      assert QueueOk(s, row);
      QueueMembers(s, row);
      assert t in s.Queue(row) ==> row == Wanted(s, t).row;
      QueueStays(s, after, row);
    }
    forall x | x in after.txns ensures TxnOk(after, x) { assert TxnOk(s, x); }
  }

  lemma EndKeeps(s: State, t: Id)
    requires Inv(s) && Enabled(s, End(t))
    ensures Inv(Next(s, End(t)))
  {
    hide Ordered;
    var after := Next(s, End(t));
    assert TxnOk(s, t);
    forall row ensures QueueOk(after, row) {
      assert QueueOk(s, row);
      QueueMembers(s, row);
      RemoveHolds(s.Queue(row), t);
      RemoveKeepsDistinct(s.Queue(row), t);
      QueueStays(s, after, row);
    }
    forall x | x in after.txns ensures TxnOk(after, x) {
      assert TxnOk(s, x);
      if Waits(s, t) { RemoveHolds(s.Queue(Wanted(s, t).row), t); }
    }
  }

  lemma StepKeeps(s: State, step: Step)
    requires Inv(s) && Enabled(s, step)
    ensures Inv(Next(s, step))
  {
    hide Inv, Next, Enabled;
    match step
    case Begin(t, op) => BeginKeeps(s, t, op);
    case Ask(t) => AskKeeps(s, t);
    case Grant(t) => GrantKeeps(s, t);
    case End(t) => EndKeeps(s, t);
  }

  predicate IsRun(states: seq<State>, steps: seq<Step>) {
    && |states| == |steps| + 1 && states[0] == State(map[], map[])
    && forall i :: 0 <= i < |steps| ==> Enabled(states[i], steps[i]) && states[i + 1] == Next(states[i], steps[i])
  }

  lemma {:induction false} ReachableOk(states: seq<State>, steps: seq<Step>, i: nat)
    requires IsRun(states, steps) && i < |states|
    ensures Inv(states[i])
  {
    if i == 0 {
      forall row ensures QueueOk(states[0], row) { }
    } else {
      hide Inv, Next, Enabled;
      ReachableOk(states, steps, i - 1);
      StepKeeps(states[i - 1], steps[i - 1]);
    }
  }

  // ----- Waiting never closes a cycle

  predicate Ahead(q: seq<Id>, b: Id, a: Id) {
    exists i, j :: 0 <= i < j < |q| && q[i] == b && q[j] == a
  }

  /** `a` cannot go on before `b` moves: `b` holds the row against it, or stands before it in the queue. */
  predicate WaitsFor(s: State, a: Id, b: Id) {
    Waits(s, a) && a != b && (HoldsAgainst(s, b, Wanted(s, a)) || Ahead(s.Queue(Wanted(s, a).row), b, a))
  }

  /** Waiting for a row of higher rank, or for the same rank nearer to the head of a queue. */
  predicate Later(s: State, a: Id, b: Id)
    requires Inv(s) && Waits(s, a) && Waits(s, b)
  {
    var ra, rb := Wanted(s, a).row, Wanted(s, b).row;
    assert TxnOk(s, a) && TxnOk(s, b);
    Rank(ra) < Rank(rb) || (Rank(ra) == Rank(rb) && Position(s.Queue(rb), b) < Position(s.Queue(ra), a))
  }

  lemma EdgeGoesLater(s: State, a: Id, b: Id)
    requires Inv(s) && WaitsFor(s, a, b) && Waits(s, b)
    ensures Later(s, a, b)
  {
    var row := Wanted(s, a).row;
    assert TxnOk(s, a) && TxnOk(s, b) && QueueOk(s, row);
  }

  /** In no reachable state is there a cycle of transactions that wait for one another. */
  lemma NoCycle(states: seq<State>, steps: seq<Step>, k: nat, path: seq<Id>)
    requires IsRun(states, steps) && k < |states| && |path| >= 2
    requires forall i :: 0 <= i < |path| - 1 ==> WaitsFor(states[k], path[i], path[i + 1])
    ensures path[0] != path[|path| - 1]
  {
    ReachableOk(states, steps, k);
    hide Inv, IsRun;
    if path[0] == path[|path| - 1] {
      assert Waits(states[k], path[0]) by { assert WaitsFor(states[k], path[0], path[1]); }
      PathGoesLater(states[k], path);
      assert false;
    }
  }

  lemma {:induction false} PathGoesLater(s: State, path: seq<Id>)
    requires Inv(s) && |path| >= 2 && Waits(s, path[|path| - 1])
    requires forall i :: 0 <= i < |path| - 1 ==> WaitsFor(s, path[i], path[i + 1])
    ensures Waits(s, path[0]) && Later(s, path[0], path[|path| - 1])
    decreases |path|
  {
    hide Inv;
    assert WaitsFor(s, path[0], path[1]);
    if |path| == 2 {
      EdgeGoesLater(s, path[0], path[1]);
    } else {
      var rest := path[1..];
      forall i | 0 <= i < |rest| - 1 ensures WaitsFor(s, rest[i], rest[i + 1]) {
        assert WaitsFor(s, path[i + 1], path[i + 2]);
      }
      PathGoesLater(s, path[1..]);
      EdgeGoesLater(s, path[0], path[1]);
    }
  }

  lemma {:induction false} HasLatest(s: State, waiting: set<Id>) returns (last: Id)
    requires Inv(s) && waiting != {} && forall t :: t in waiting ==> Waits(s, t)
    ensures last in waiting && forall t :: t in waiting ==> !Later(s, last, t)
    decreases |waiting|
  {
    var some :| some in waiting;
    if waiting == {some} { return some; }
    var other := HasLatest(s, waiting - {some});
    last := if Later(s, other, some) then some else other;
    hide Inv, Position;
    forall t | t in waiting ensures !Later(s, last, t) {
      if t != some { assert !Later(s, other, t); }
    }
  }

  /** Whenever transactions are under way, one of them can go on: it is not waiting, or it can be granted its lock. */
  lemma SomebodyCanMove(states: seq<State>, steps: seq<Step>, k: nat) returns (t: Id)
    requires IsRun(states, steps) && k < |states| && states[k].txns != map[]
    ensures t in states[k].txns && (!states[k].txns[t].waiting || Enabled(states[k], Grant(t)))
  {
    var s := states[k];
    ReachableOk(states, steps, k);
    hide IsRun;
    if t0 :| t0 in s.txns && !s.txns[t0].waiting { return t0; }
    var some :| some in s.txns;
    forall x | x in s.txns ensures Waits(s, x) { assert TxnOk(s, x); }
    t := HasLatest(s, s.txns.Keys);
    LatestMayGo(s, t);
  }

  lemma LatestMayGo(s: State, t: Id)
    requires Inv(s) && Waits(s, t)
    requires forall x :: x in s.txns ==> Waits(s, x) && !Later(s, t, x)
    ensures MayGo(s, t)
  {
    var lock := Wanted(s, t);
    var q := s.Queue(lock.row);
    assert TxnOk(s, t) && QueueOk(s, lock.row);
    assert q[0] == t;
    if Blocked(s, t, lock) {
      var h :| h in s.txns && h != t && HoldsAgainst(s, h, lock);
      EdgeGoesLater(s, t, h);
    }
  }

  lemma BlockedAskWaits(s: State, t: Id, h: Id)
    requires CanAsk(s, t) && h != t
    requires var lock := s.txns[t].locks[s.txns[t].granted]; lock.mode == Exclusive && Holds(s, h, lock.row, Shared)
    ensures var txn := s.txns[t];
      var row := txn.locks[txn.granted].row;
      Next(s, Ask(t)) == State(s.txns[t := txn.(waiting := true)], s.queues[row := s.Queue(row) + [t]])
  {
    var lock := s.txns[t].locks[s.txns[t].granted];
    assert HoldsAgainst(s, h, lock);
    assert Blocked(s, t, lock);
  }

  /**
   Why creations take the User row shared only when they never write it: had two transactions read it shared to
   write it later, four steps would leave both waiting for good.
   */
  lemma UpgradesDeadlock(user: Id) returns (states: seq<State>)
    ensures |states| == 5
    ensures var upgrade := Txn([Lock(UserRow(user), Shared), Lock(UserRow(user), Exclusive)], 0, false);
      states[0] == State(map[0 := upgrade, 1 := upgrade], map[])
    ensures forall i :: 0 <= i < 4 ==> Enabled(states[i], Ask(i % 2)) && states[i + 1] == Next(states[i], Ask(i % 2))
    ensures WaitsFor(states[4], 0, 1) && WaitsFor(states[4], 1, 0)
    ensures forall t :: Waits(states[4], t) ==> !MayGo(states[4], t)
  {
    var row := UserRow(user);
    var locks := [Lock(row, Shared), Lock(row, Exclusive)];
    var begun, reader, waiter := Txn(locks, 0, false), Txn(locks, 1, false), Txn(locks, 1, true);
    assert locks[0] == Lock(row, Shared);
    var s0 := State(map[0 := begun, 1 := begun], map[]);
    var s1 := State(map[0 := reader, 1 := begun], map[]);
    var s2 := State(map[0 := reader, 1 := reader], map[]);
    var s3 := State(map[0 := waiter, 1 := reader], map[row := [0]]);
    var s4 := State(map[0 := waiter, 1 := waiter], map[row := [0, 1]]);
    assert s2.txns[1].locks[0] == Lock(row, Shared) && s3.txns[0].locks[0] == Lock(row, Shared);
    assert Holds(s2, 1, row, Shared) && Holds(s3, 0, row, Shared);
    BlockedAskWaits(s2, 0, 1);
    BlockedAskWaits(s3, 1, 0);
    assert s1 == Next(s0, Ask(0)) && s2 == Next(s1, Ask(1));
    assert s3 == Next(s2, Ask(0)) by { assert s2.Queue(row) + [0] == [0] && s3.txns == s2.txns[0 := waiter]; }
    assert s4 == Next(s3, Ask(1)) by { assert s3.Queue(row) + [1] == [0, 1] && s4.txns == s3.txns[1 := waiter]; }
    hide Next, Enabled;
    assert s4.txns[0].locks[0] == Lock(row, Shared) && s4.txns[1].locks[0] == Lock(row, Shared);
    assert Holds(s4, 0, row, Shared) && Holds(s4, 1, row, Shared);
    assert HoldsAgainst(s4, 0, locks[1]) && HoldsAgainst(s4, 1, locks[1]);
    states := [s0, s1, s2, s3, s4];
    assert states[0] == s0 && states[1] == s1 && states[2] == s2 && states[3] == s3 && states[4] == s4;
  }

  // ----- What the locks exclude

  predicate Clash(s: State, a: Id, b: Id, row: Row) {
    a != b && Holds(s, a, row, Exclusive) && (Holds(s, b, row, Shared) || Holds(s, b, row, Exclusive))
  }

  ghost predicate NoClash(s: State) {
    forall a, b, row :: !Clash(s, a, b, row)
  }

  lemma FewerLocksClashLess(s: State, after: State)
    requires NoClash(s) && forall t, row, mode :: Holds(after, t, row, mode) ==> Holds(s, t, row, mode)
    ensures NoClash(after)
  {
    hide Holds;
    forall a, b, row ensures !Clash(after, a, b, row) { assert !Clash(s, a, b, row); }
  }

  predicate Advances(s: State, t: Id, after: State) {
    && t in s.txns && s.txns[t].granted < |s.txns[t].locks|
    && t in after.txns && after.txns == s.txns[t := after.txns[t]]
    && after.txns[t].locks == s.txns[t].locks && after.txns[t].granted == s.txns[t].granted + 1
  }

  lemma AdvanceAddsOne(s: State, t: Id, after: State, a: Id, row: Row, mode: Mode)
    requires Advances(s, t, after) && Holds(after, a, row, mode)
    ensures Holds(s, a, row, mode) || (a == t && s.txns[t].locks[s.txns[t].granted] == Lock(row, mode))
  {
    var i :| 0 <= i < after.txns[a].granted && i < |after.txns[a].locks| && after.txns[a].locks[i] == Lock(row, mode);
    assert a in s.txns && s.txns[a].locks[i] == Lock(row, mode);
  }

  lemma NobodyAgainst(s: State, t: Id, lock: Lock)
    requires !Blocked(s, t, lock)
    ensures forall h :: h != t && HoldsAgainst(s, h, lock) ==> h !in s.txns
    ensures forall h, row, mode :: Holds(s, h, row, mode) ==> h in s.txns
  {
  }

  /** Taking a lock that nobody holds against us clashes with nobody. */
  lemma AdvanceKeepsNoClash(s: State, t: Id, after: State)
    requires NoClash(s) && Advances(s, t, after) && !Blocked(s, t, s.txns[t].locks[s.txns[t].granted])
    ensures NoClash(after)
  {
    var lock := s.txns[t].locks[s.txns[t].granted];
    NobodyAgainst(s, t, lock);
    forall a, row, mode | Holds(after, a, row, mode)
      ensures Holds(s, a, row, mode) || (a == t && lock == Lock(row, mode))
    {
      AdvanceAddsOne(s, t, after, a, row, mode);
    }
    hide Holds, Blocked, Advances;
    forall a, b, row ensures !Clash(after, a, b, row) { assert !Clash(s, a, b, row); }
  }

  lemma StepKeepsNoClash(s: State, step: Step)
    requires NoClash(s) && Enabled(s, step)
    ensures NoClash(Next(s, step))
  {
    hide NoClash, Blocked;
    var after := Next(s, step);
    if step.Grant? || (step.Ask? && !after.txns[step.t].waiting) {
      AdvanceKeepsNoClash(s, step.t, after);
    } else {
      FewerLocksClashLess(s, after);
    }
  }

  /** In no reachable state do two transactions hold one row in conflicting modes. */
  lemma {:induction false} LocksExclude(states: seq<State>, steps: seq<Step>, k: nat)
    requires IsRun(states, steps) && k < |states|
    ensures NoClash(states[k])
  {
    if k == 0 {
      forall a, b, row ensures !Clash(states[0], a, b, row) { }
    } else {
      hide NoClash, Enabled, Next;
      LocksExclude(states, steps, k - 1);
      StepKeepsNoClash(states[k - 1], steps[k - 1]);
    }
  }

  /** Two operations exclude each other when both need one row and one of them needs it exclusively. */
  predicate Excludes(a: Operation, b: Operation) {
    exists x, y :: x in Locks(a) && y in Locks(b) && x.row == y.row && Conflict(x.mode, y.mode)
  }

  /** Parts of one account are inserted side by side; everything that closes or claims their session excludes them. */
  lemma InsertionsExclude(user: Id, session: Id, other: Id)
    ensures !Excludes(InsertPart(user, session), InsertPart(user, other))
    ensures Excludes(InsertPart(user, session), ClaimCompletion(session))
    ensures Excludes(InsertPart(user, session), CommitCompletion(user, session))
    ensures Excludes(InsertPart(user, session), ReleaseSession(user, session))
    ensures Excludes(InsertPart(user, session), RecoverStaleCompletion(user, session))
    ensures Excludes(InsertPart(user, session), ChangeAccount(user))
  {
    var u, s := Lock(UserRow(user), Shared), Lock(SessionRow(session), Shared);
    var ux, sx := Lock(UserRow(user), Exclusive), Lock(SessionRow(session), Exclusive);
    assert u in Locks(InsertPart(user, session)) && s in Locks(InsertPart(user, session));
    assert sx in Locks(ClaimCompletion(session)) && sx in Locks(CommitCompletion(user, session));
    assert sx in Locks(ReleaseSession(user, session)) && sx in Locks(RecoverStaleCompletion(user, session));
    assert ux in Locks(ChangeAccount(user));
  }

  /** Whatever moves an account's counters excludes every change of that account, and every other such move. */
  lemma CounterMovesExclude(user: Id, session: Id, other: Id, a: Operation)
    requires a in {
      CommitCompletion(user, session), ReleaseSession(user, session), RecoverStaleCompletion(user, session),
      CreateReservation(user), CommitReservation(user, session), ReleaseReservation(user, session)}
    ensures Excludes(a, ChangeAccount(user)) && Excludes(a, CreateReservation(user))
    ensures Excludes(a, CommitCompletion(user, other)) && Excludes(a, ReleaseReservation(user, other))
  {
    var ux := Lock(UserRow(user), Exclusive);
    assert ux in Locks(a) && ux in Locks(ChangeAccount(user)) && ux in Locks(CreateReservation(user));
    assert ux in Locks(CommitCompletion(user, other)) && ux in Locks(ReleaseReservation(user, other));
  }

  /** The statements on the session row alone exclude one another and every transaction that writes that row. */
  lemma SessionStatementsExclude(user: Id, session: Id, a: Operation)
    requires a in {ClaimCompletion(session), RenewCompletionLease(session), RelinquishCompletion(session)}
    ensures Excludes(a, ClaimCompletion(session)) && Excludes(a, CommitCompletion(user, session))
    ensures Excludes(a, ReleaseSession(user, session)) && Excludes(a, RecoverStaleCompletion(user, session))
  {
    var sx := Lock(SessionRow(session), Exclusive);
    assert sx in Locks(a) && sx in Locks(ClaimCompletion(session)) && sx in Locks(CommitCompletion(user, session));
    assert sx in Locks(ReleaseSession(user, session)) && sx in Locks(RecoverStaleCompletion(user, session));
  }

  /** A heartbeat and the two ways a reservation ends exclude one another. */
  lemma ReservationStatementsExclude(user: Id, reservation: Id)
    ensures Excludes(RenewReservation(reservation), CommitReservation(user, reservation))
    ensures Excludes(RenewReservation(reservation), ReleaseReservation(user, reservation))
  {
    var rx := Lock(ReservationRow(reservation), Exclusive);
    assert rx in Locks(RenewReservation(reservation)) && rx in Locks(CommitReservation(user, reservation));
    assert rx in Locks(ReleaseReservation(user, reservation));
  }
}
