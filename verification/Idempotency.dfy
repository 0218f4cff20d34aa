/**
 All requests that share one (user, operation, key): the fast replay path, the transaction that claims,
 executes and records, expiry takeover, rollback and pruning, in any interleaving under one clock.
 */
module Idempotency {
  import opened Wrappers

  type Id = nat
  type Time = nat

  datatype Response = Response(status: nat, body: string)
  /** A committed record; the claim row of an unfinished transaction is visible to nobody else. */
  datatype Record = Record(fingerprint: string, response: Response, expiresAt: Time)

  datatype Answer = Executed(response: Response) | Replayed(response: Response) | Mismatch | InProgress | Failed

  /** `Begun` and `Locked` remember NOW(), which is the start of the transaction. */
  datatype Phase =
    | Arrived
    | Looked(known: Option<Record>)
    | InLine
    | Begun(txNow: Time)
    | Locked(txNow: Time)
    | Conflicted
    | Claimed
    | Answered(answer: Answer)
  datatype Request = Request(fingerprint: string, expiresAt: Time, phase: Phase)

  /** One committed execution. */
  datatype Entry = Entry(request: Id, record: Record, at: Time)

  /** `prunes` are deletions that have selected the record by this cutoff and may have to wait for its row. */
  datatype State = State(
    clock: Time, record: Option<Record>, holder: Option<Id>, requests: map<Id, Request>, prunes: map<Id, int>,
      log: seq<Entry>)
  {
    function WithPhase(r: Id, phase: Phase): State
      requires r in requests
    {
      this.(requests := requests[r := requests[r].(phase := phase)])
    }
    /** Ends the transaction of r: its advisory lock goes with it. */
    function Ended(r: Id, answer: Answer): State
      requires r in requests
    {
      WithPhase(r, Answered(answer)).(holder := if holder == Some(r) then None else holder)
    }
  }

  datatype Step =
    | Tick(to: Time)
    | Arrive(r: Id, fingerprint: string, ttl: nat)
    | Look(r: Id)
    | AnswerFast(r: Id)
    | Begin(r: Id)
    | Lock(r: Id)
    | LockTimeout(r: Id)
    | Claim(r: Id)
    | Reread(r: Id)
    | Commit(r: Id, response: Response)
    | Abort(r: Id)
    | SelectPrune(p: Id, grace: nat)
    | DeletePrune(p: Id)

  predicate In(s: State, r: Id) { r in s.requests }

  predicate Enabled(s: State, step: Step) {
    match step
    case Tick(to) => to >= s.clock
    case Arrive(r, _, _) => r !in s.requests
    case Look(r) => In(s, r) && s.requests[r].phase.Arrived?
    case AnswerFast(r) => In(s, r) && s.requests[r].phase.Looked?
    case Begin(r) => In(s, r) && s.requests[r].phase.InLine?
    case Lock(r) => In(s, r) && s.requests[r].phase.Begun? && s.holder.None?
    case LockTimeout(r) => In(s, r) && s.requests[r].phase.Begun? && s.holder.Some?
    case Claim(r) => In(s, r) && s.requests[r].phase.Locked?
    case Reread(r) => In(s, r) && s.requests[r].phase.Conflicted?
    case Commit(r, _) => In(s, r) && s.requests[r].phase.Claimed?
    case Abort(r) => In(s, r) && !s.requests[r].phase.Answered?
    case SelectPrune(p, grace) => p !in s.prunes && s.record.Some? && s.record.value.expiresAt < s.clock - grace
    case DeletePrune(p) => p in s.prunes
  }

  function Reply(request: Request, record: Record): Answer {
    if record.fingerprint != request.fingerprint then Mismatch else Replayed(record.response)
  }

  function Next(s: State, step: Step): State
    requires Enabled(s, step)
  {
    match step
    case Tick(to) => s.(clock := to)
    case Arrive(r, fingerprint, ttl) => s.(requests := s.requests[r := Request(fingerprint, s.clock + ttl, Arrived)])
    case Look(r) => s.WithPhase(r, Looked(s.record))
    case AnswerFast(r) =>
      var known := s.requests[r].phase.known;
      if known.Some? && known.value.expiresAt > s.clock then s.WithPhase(r, Answered(Reply(s.requests[r], known.value)))
      else s.WithPhase(r, InLine)
    case Begin(r) => s.WithPhase(r, Begun(s.clock))
    case Lock(r) => s.WithPhase(r, Locked(s.requests[r].phase.txNow)).(holder := Some(r))
    case LockTimeout(r) => s.WithPhase(r, Answered(InProgress))
    case Claim(r) =>
      // Inserts the claim, or takes over a record that had expired when this transaction began.
      if s.record.None? || s.record.value.expiresAt < s.requests[r].phase.txNow then s.WithPhase(r, Claimed)
      else s.WithPhase(r, Conflicted)
    case Reread(r) =>
      // The record may have been pruned since the conflict.
      s.Ended(r, if s.record.None? then Failed else Reply(s.requests[r], s.record.value))
    case Commit(r, response) =>
      var record := Record(s.requests[r].fingerprint, response, s.requests[r].expiresAt);
      s.Ended(r, Executed(response)).(record := Some(record), log := s.log + [Entry(r, record, s.clock)])
    case Abort(r) => s.Ended(r, Failed)
    case SelectPrune(p, grace) => s.(prunes := s.prunes[p := s.clock - grace])
    case DeletePrune(p) =>
      // Whatever was committed meanwhile, only a row whose expiry still lies before the cutoff is deleted.
      var expired := s.record.Some? && s.record.value.expiresAt < s.prunes[p];
      s.(record := if expired then None else s.record, prunes := s.prunes - {p})
  }

  predicate Init(s: State) {
    s == State(s.clock, None, None, map[], map[], [])
  }

  predicate IsRun(states: seq<State>, steps: seq<Step>) {
    && |states| == |steps| + 1 && Init(states[0])
    && forall i :: 0 <= i < |steps| ==> Enabled(states[i], steps[i]) && states[i + 1] == Next(states[i], steps[i])
  }

  // ----- What always holds

  predicate HasLock(phase: Phase) {
    phase.Locked? || phase.Conflicted? || phase.Claimed?
  }

  predicate Over(log: seq<Entry>, now: Time) {
    log == [] || log[|log| - 1].record.expiresAt < now
  }

  /** Executions are apart: each commits only after every earlier record had expired. */
  predicate LogOk(log: seq<Entry>, now: Time) {
    && (forall i :: 0 <= i < |log| ==> log[i].at <= now)
    && (forall i, j :: 0 <= i < j < |log| ==> log[i].at <= log[j].at && log[i].record.expiresAt < log[j].at)
  }

  /** The table holds the record of the last execution until it has expired. */
  predicate RecordOk(record: Option<Record>, log: seq<Entry>, now: Time) {
    if record.Some? then log != [] && log[|log| - 1].record == record.value else Over(log, now)
  }

  /** A record read earlier is the last execution's unless it has expired since. */
  predicate WasRecorded(log: seq<Entry>, now: Time, known: Record) {
    exists n :: 0 <= n < |log| && log[n].record == known && (n < |log| - 1 ==> known.expiresAt < now)
  }

  predicate Recorded(log: seq<Entry>, fingerprint: string, response: Response) {
    exists n :: 0 <= n < |log| && log[n].record.fingerprint == fingerprint && log[n].record.response == response
  }

  predicate RequestOk(s: State, r: Id, q: Request) {
    && (HasLock(q.phase) <==> s.holder == Some(r))
    && match q.phase
       case Looked(known) => known.Some? ==> WasRecorded(s.log, s.clock, known.value)
       case Begun(txNow) => txNow <= s.clock
       case Locked(txNow) => txNow <= s.clock
       case Claimed => Over(s.log, s.clock)
       case Answered(Executed(response)) => Recorded(s.log, q.fingerprint, response)
       case Answered(Replayed(response)) => Recorded(s.log, q.fingerprint, response)
       case _ => true
  }

  /** Every execution belongs to one request, which was told its result. */
  predicate EntriesOk(log: seq<Entry>, requests: map<Id, Request>) {
    && (forall i :: 0 <= i < |log| ==>
          log[i].request in requests && requests[log[i].request].phase == Answered(Executed(log[i].record.response))
          && requests[log[i].request].fingerprint == log[i].record.fingerprint
          && requests[log[i].request].expiresAt == log[i].record.expiresAt)
    && (forall i, j :: 0 <= i < j < |log| ==> log[i].request != log[j].request)
  }

  predicate RequestsOk(s: State) {
    && (s.holder.Some? ==> s.holder.value in s.requests)
    && forall r :: r in s.requests ==> RequestOk(s, r, s.requests[r])
  }

  predicate PrunesOk(s: State) {
    forall p :: p in s.prunes ==> s.prunes[p] <= s.clock
  }

  predicate Inv(s: State) {
    && LogOk(s.log, s.clock) && RecordOk(s.record, s.log, s.clock)
    && EntriesOk(s.log, s.requests) && RequestsOk(s) && PrunesOk(s)
  }

  /** The request the step belongs to, if it is one request's step. */
  function Subject(step: Step): Option<Id> {
    match step
    case Tick(_) => None
    case SelectPrune(_, _) => None
    case DeletePrune(_) => None
    case _ => Some(step.r)
  }

  lemma OtherRequestStays(s: State, step: Step, r: Id)
    requires Inv(s) && Enabled(s, step) && !step.Commit? && r in s.requests && Subject(step) != Some(r)
    ensures r in Next(s, step).requests && RequestOk(Next(s, step), r, Next(s, step).requests[r])
  {
    hide LogOk, EntriesOk, PrunesOk, RecordOk;
    assert RequestOk(s, r, s.requests[r]);
    assert Subject(step).Some? && step.r in s.requests ==> RequestOk(s, step.r, s.requests[step.r]);
    hide RequestsOk;
  }

  lemma OwnRequestStays(s: State, step: Step, r: Id)
    requires Inv(s) && Enabled(s, step) && !step.Commit? && Subject(step) == Some(r)
    ensures r in Next(s, step).requests && RequestOk(Next(s, step), r, Next(s, step).requests[r])
  {
    hide LogOk, EntriesOk, PrunesOk;
    assert r in s.requests ==> RequestOk(s, r, s.requests[r]);
    if step.Look? && s.record.Some? { assert s.log[|s.log| - 1].record == s.record.value; }
    assert r in s.requests || s.holder != Some(r);
    hide RequestsOk;
  }

  lemma RequestsStay(s: State, step: Step)
    requires Inv(s) && Enabled(s, step) && !step.Commit?
    ensures RequestsOk(Next(s, step))
  {
    hide LogOk, EntriesOk, PrunesOk, RecordOk, RequestOk;
    var after := Next(s, step);
    forall r | r in after.requests ensures RequestOk(after, r, after.requests[r]) {
      if Subject(step) == Some(r) { OwnRequestStays(s, step, r); } else { OtherRequestStays(s, step, r); }
    }
  }

  lemma CommitRequests(s: State, step: Step)
    requires Inv(s) && Enabled(s, step) && step.Commit?
    ensures RequestsOk(Next(s, step))
  {
    var after := Next(s, step);
    assert RequestOk(s, step.r, s.requests[step.r]);
    forall r | r in after.requests ensures RequestOk(after, r, after.requests[r]) {
      CommitKeeps(s, step, r);
    }
  }

  /** A commit extends the log, and nothing recorded before it is forgotten. */
  lemma CommitKeeps(s: State, step: Step, r: Id)
    requires Inv(s) && Enabled(s, step) && step.Commit? && r in s.requests
    ensures RequestOk(Next(s, step), r, Next(s, step).requests[r])
  {
    hide EntriesOk, RecordOk;
    var after := Next(s, step);
    var q := s.requests[r];
    assert RequestOk(s, r, q) && RequestOk(s, step.r, s.requests[step.r]);
    assert forall n :: 0 <= n < |s.log| ==> after.log[n] == s.log[n];
    assert after.log[|s.log|].record
      == Record(s.requests[step.r].fingerprint, step.response, s.requests[step.r].expiresAt);
    if r != step.r {
      match q.phase
      case Looked(known) =>
        if known.Some? {
          var n :| 0 <= n < |s.log| && s.log[n].record == known.value
            && (n < |s.log| - 1 ==> known.value.expiresAt < s.clock);
          assert after.log[n].record == known.value;
        }
      case Answered(answer) =>
        if answer.Executed? || answer.Replayed? {
          var n :| 0 <= n < |s.log| && s.log[n].record.fingerprint == q.fingerprint
            && s.log[n].record.response == answer.response;
          assert after.log[n] == s.log[n];
        }
      case _ =>
    }
  }

  lemma LogStays(s: State, step: Step)
    requires Inv(s) && Enabled(s, step)
    ensures LogOk(Next(s, step).log, Next(s, step).clock)
    ensures RecordOk(Next(s, step).record, Next(s, step).log, Next(s, step).clock)
  {
    hide EntriesOk;
    if step.Commit? { assert RequestOk(s, step.r, s.requests[step.r]); }
    hide RequestsOk;
  }

  lemma EntriesStay(s: State, step: Step)
    requires EntriesOk(s.log, s.requests) && Enabled(s, step)
    ensures EntriesOk(Next(s, step).log, Next(s, step).requests)
  {
  }

  lemma PrunesStay(s: State, step: Step)
    requires PrunesOk(s) && Enabled(s, step)
    ensures PrunesOk(Next(s, step))
  {
  }

  lemma StepKeeps(s: State, step: Step)
    requires Inv(s) && Enabled(s, step)
    ensures Inv(Next(s, step))
  {
    LogStays(s, step);
    EntriesStay(s, step);
    if step.Commit? { CommitRequests(s, step); } else { RequestsStay(s, step); }
    PrunesStay(s, step);
    hide LogOk, RecordOk, EntriesOk, RequestsOk, PrunesOk, Next, Enabled;
  }

  lemma {:induction false} ReachableOk(states: seq<State>, steps: seq<Step>, i: nat)
    requires IsRun(states, steps) && i < |states|
    ensures Inv(states[i])
  {
    if i > 0 {
      ReachableOk(states, steps, i - 1);
      hide Inv, Next, Enabled;
      StepKeeps(states[i - 1], steps[i - 1]);
    }
  }

  // ----- What callers get

  /**
   Over a whole run, one execution commits only after every earlier record has expired, and at most one per request.
   */
  lemma ExecutionsAreApart(states: seq<State>, steps: seq<Step>, k: nat, i: nat, j: nat)
    requires IsRun(states, steps) && k < |states| && i < j < |states[k].log|
    ensures states[k].log[j].at > states[k].log[i].record.expiresAt
    ensures states[k].log[i].request != states[k].log[j].request
  {
    ReachableOk(states, steps, k);
  }

  /** Until the record expires no other request even begins to execute. */
  lemma NobodyExecutesInWindow(states: seq<State>, steps: seq<Step>, k: nat, r: Id)
    requires IsRun(states, steps) && k < |states| && r in states[k].requests && !Over(states[k].log, states[k].clock)
    ensures !states[k].requests[r].phase.Claimed?
  {
    ReachableOk(states, steps, k);
    assert RequestOk(states[k], r, states[k].requests[r]);
  }

  /** What a request answered in this window may be told. */
  predicate AnswersFrom(record: Record, q: Request) {
    q.phase.Answered? &&
    match q.phase.answer
    case Executed(_) => false
    case Replayed(response) => q.fingerprint == record.fingerprint && response == record.response
    case Mismatch => q.fingerprint != record.fingerprint
    case _ => true
  }

  predicate Pending(s: State, r: Id) {
    r in s.requests ==> !s.requests[r].phase.Answered?
  }

  /** One step inside the window of the last execution: nothing executes, and an answer is that execution's. */
  lemma WindowStep(s: State, step: Step)
    requires Inv(s) && Enabled(s, step) && !Over(s.log, Next(s, step).clock)
    ensures Next(s, step).log == s.log
    ensures forall r :: r in Next(s, step).requests && Next(s, step).requests[r].phase.Answered? && Pending(s, r) ==>
              AnswersFrom(s.log[|s.log| - 1].record, Next(s, step).requests[r])
    ensures forall r :: r in s.requests && s.requests[r].phase.Answered? ==>
              r in Next(s, step).requests && Next(s, step).requests[r] == s.requests[r]
  {
    hide EntriesOk, LogOk;
    if step.Commit? { assert RequestOk(s, step.r, s.requests[step.r]); }
    if step.AnswerFast? { FastAnswerIsLast(s, step.r); }
  }

  /** The fast path replays only what is still the last execution. */
  lemma FastAnswerIsLast(s: State, r: Id)
    requires Inv(s) && r in s.requests && s.requests[r].phase.Looked?
    ensures var known := s.requests[r].phase.known;
      known.Some? && known.value.expiresAt > s.clock ==> s.log != [] && known.value == s.log[|s.log| - 1].record
  {
    assert RequestOk(s, r, s.requests[r]);
  }

  /**
   From a commit until its record expires: no second execution commits, and every request answered meanwhile
   got that execution's status and body, or a mismatch exactly when its payload differed, or no answer at all.
   This rests on `DeletePrune` looking at the expiry again; see `UncheckedPruneReopensTheWindow`.
   */
  lemma {:induction false} OneExecutionPerWindow(states: seq<State>, steps: seq<Step>, i: nat, j: nat)
    requires IsRun(states, steps) && i < |steps| && steps[i].Commit? && i + 1 <= j < |states|
    requires !Over(states[i + 1].log, states[j].clock)
    ensures states[j].log == states[i + 1].log && states[j].log != []
    ensures forall r ::
      r in states[j].requests && states[j].requests[r].phase.Answered? && Pending(states[i + 1], r) ==>
              AnswersFrom(states[j].log[|states[j].log| - 1].record, states[j].requests[r])
  {
    hide Inv, Enabled, Next, Over, AnswersFrom;
    if i + 1 == j {
      CommitLogs(states[i], steps[i]);
    } else {
      ClockStep(states[j - 1], steps[j - 1]);
      EarlierNotOver(states[i + 1].log, states[j - 1].clock, states[j].clock);
      OneExecutionPerWindow(states, steps, i, j - 1);
      ReachableOk(states, steps, j - 1);
      WindowStep(states[j - 1], steps[j - 1]);
    }
  }

  lemma CommitLogs(s: State, step: Step)
    requires Enabled(s, step) && step.Commit?
    ensures |Next(s, step).log| == |s.log| + 1 && Next(s, step).log[|s.log|].request == step.r
  {
  }

  /** Were the record deleted without a second look at its expiry, the holder of the lock would execute again. */
  lemma UncheckedPruneReopensTheWindow(s: State, r: Id)
    requires Inv(s) && !Over(s.log, s.clock) && r in s.requests && s.requests[r].phase.Locked?
    ensures s.record.Some? && !Next(s, Claim(r)).requests[r].phase.Claimed?
    ensures var pruned := s.(record := None);
      Enabled(pruned, Claim(r)) && Next(pruned, Claim(r)).requests[r].phase.Claimed? && !Inv(pruned)
  {
    assert RequestOk(s, r, s.requests[r]);
    hide RequestsOk, EntriesOk, LogOk;
  }

  lemma ClockStep(s: State, step: Step)
    requires Enabled(s, step)
    ensures Next(s, step).clock >= s.clock
  {
  }

  lemma EarlierNotOver(log: seq<Entry>, now: Time, later: Time)
    requires now <= later && !Over(log, later)
    ensures !Over(log, now)
  {
  }

  /**
   A request told of a mismatch, a conflict or a failure executed nothing, and what it was told never came from
   another payload.
   */
  lemma OnlyExecutedRequestsAreLogged(states: seq<State>, steps: seq<Step>, k: nat, r: Id)
    requires IsRun(states, steps) && k < |states| && r in states[k].requests && states[k].requests[r].phase.Answered?
    ensures var answer := states[k].requests[r].phase.answer;
      && (answer.Executed? || answer.Replayed? ==>
        Recorded(states[k].log, states[k].requests[r].fingerprint, answer.response))
      && (!answer.Executed? ==> forall n :: 0 <= n < |states[k].log| ==> states[k].log[n].request != r)
  {
    ReachableOk(states, steps, k);
    assert RequestOk(states[k], r, states[k].requests[r]);
  }

  // ----- How long a window is, and when it ends

  predicate ArrivedWith(s: State, r: Id, fingerprint: string, expiresAt: Time) {
    r in s.requests && s.requests[r].fingerprint == fingerprint && s.requests[r].expiresAt == expiresAt
  }

  lemma StepKeepsTerms(s: State, step: Step, r: Id, fingerprint: string, expiresAt: Time)
    requires Enabled(s, step) && ArrivedWith(s, r, fingerprint, expiresAt)
    ensures ArrivedWith(Next(s, step), r, fingerprint, expiresAt)
  {
  }

  lemma ArrivalSetsTerms(s: State, r: Id, fingerprint: string, ttl: nat)
    requires Enabled(s, Arrive(r, fingerprint, ttl))
    ensures ArrivedWith(Next(s, Arrive(r, fingerprint, ttl)), r, fingerprint, s.clock + ttl)
  {
  }

  lemma {:induction false} TermsStay(states: seq<State>, steps: seq<Step>, i: nat, j: nat, r: Id, fingerprint: string,
      ttl: nat)
    requires IsRun(states, steps) && i < j < |states| && steps[i] == Arrive(r, fingerprint, ttl)
    ensures ArrivedWith(states[j], r, fingerprint, states[i].clock + ttl)
  {
    hide Enabled, Next, Init, ArrivedWith;
    if j == i + 1 {
      ArrivalSetsTerms(states[i], r, fingerprint, ttl);
    } else {
      TermsStay(states, steps, i, j - 1, r, fingerprint, ttl);
      StepKeepsTerms(states[j - 1], steps[j - 1], r, fingerprint, states[i].clock + ttl);
    }
  }

  /** A record carries the fingerprint its request came with and expires its ttl after the request arrived. */
  lemma RecordsExpireByTtl(
      states: seq<State>, steps: seq<Step>, i: nat, j: nat, r: Id, fingerprint: string, ttl: nat, n: nat)
    requires IsRun(states, steps) && i < j < |states| && steps[i] == Arrive(r, fingerprint, ttl)
    requires n < |states[j].log| && states[j].log[n].request == r
    ensures states[j].log[n].record.expiresAt == states[i].clock + ttl
    ensures states[j].log[n].record.fingerprint == fingerprint
  {
    ReachableOk(states, steps, j);
    TermsStay(states, steps, i, j, r, fingerprint, ttl);
  }

  /** So until its ttl has run out since the request arrived, no other request's execution commits after it. */
  lemma NothingCommitsWithinTtl(
      states: seq<State>, steps: seq<Step>, i: nat, j: nat, r: Id, fingerprint: string, ttl: nat, n: nat)
    requires IsRun(states, steps) && i < j < |states| && steps[i] == Arrive(r, fingerprint, ttl)
    requires n < |states[j].log| && states[j].log[n].request == r && states[j].clock <= states[i].clock + ttl
    ensures n == |states[j].log| - 1
  {
    RecordsExpireByTtl(states, steps, i, j, r, fingerprint, ttl, n);
    ReachableOk(states, steps, j);
  }

  /** Every execution belongs to a request that arrived. */
  lemma {:induction false} EntryArrived(states: seq<State>, steps: seq<Step>, j: nat, r: Id) returns (i: nat)
    requires IsRun(states, steps) && j < |states| && r in states[j].requests
    ensures i < j && steps[i].Arrive? && steps[i].r == r
  {
    if j == 0 { assert false; }
    if r in states[j - 1].requests {
      i := EntryArrived(states, steps, j - 1, r);
    } else {
      NewRequestArrives(states[j - 1], steps[j - 1], r);
      i := j - 1;
    }
  }

  lemma NewRequestArrives(s: State, step: Step, r: Id)
    requires Enabled(s, step) && r !in s.requests && r in Next(s, step).requests
    ensures step.Arrive? && step.r == r
  {
  }

  /** A request that arrives while the last record is unexpired is answered from it at once. */
  lemma FastPathReplays(s: State, r: Id)
    requires Inv(s) && Enabled(s, Look(r)) && s.log != [] && s.log[|s.log| - 1].record.expiresAt > s.clock
    ensures var looked := Next(s, Look(r));
      && Enabled(looked, AnswerFast(r))
      && Next(looked, AnswerFast(r)).requests[r].phase
           == Answered(Reply(s.requests[r], s.log[|s.log| - 1].record))
  {
  }

  /** One that finds nothing unexpired is not answered there; it goes on to its transaction. */
  lemma FastPathPasses(s: State, r: Id)
    requires Inv(s) && Enabled(s, Look(r)) && (s.log == [] || s.log[|s.log| - 1].record.expiresAt <= s.clock)
    ensures var looked := Next(s, Look(r));
      Enabled(looked, AnswerFast(r)) && Next(looked, AnswerFast(r)).requests[r].phase == InLine
  {
  }

  /** One that finds nothing unexpired, and whose transaction then gets the lock at once, executes. */
  lemma SlowPathExecutes(s: State, r: Id)
    requires Inv(s) && Enabled(s, Begin(r)) && s.holder.None? && Over(s.log, s.clock)
    ensures var begun := Next(s, Begin(r));
      && Enabled(begun, Lock(r)) && Enabled(Next(begun, Lock(r)), Claim(r))
      && Next(Next(begun, Lock(r)), Claim(r)).requests[r].phase == Claimed
  {
    hide RequestsOk, EntriesOk, LogOk;
  }

  /** And one whose transaction finds the last record unexpired is told its result. */
  lemma SlowPathReplays(s: State, r: Id)
    requires Inv(s) && Enabled(s, Begin(r)) && s.holder.None? && !Over(s.log, s.clock)
    ensures var claimed := Next(Next(Next(s, Begin(r)), Lock(r)), Claim(r));
      && claimed.requests[r].phase == Conflicted
      && Next(claimed, Reread(r)).requests[r].phase == Answered(Reply(s.requests[r], s.log[|s.log| - 1].record))
  {
    hide RequestsOk, EntriesOk, LogOk;
  }

  /** A lock timeout means that an identical request is still running. */
  lemma TimeoutMeansRunning(s: State, r: Id)
    requires Inv(s) && Enabled(s, LockTimeout(r))
    ensures s.holder.Some? && s.holder.value != r && s.holder.value in s.requests
    ensures HasLock(s.requests[s.holder.value].phase)
    ensures Next(s, LockTimeout(r)).requests[r].phase == Answered(InProgress)
  {
    assert RequestOk(s, r, s.requests[r]);
    assert RequestOk(s, s.holder.value, s.requests[s.holder.value]);
  }

  /** What an execution returned is what is recorded, what its caller is told, and what every later reply repeats. */
  lemma CommitRecordsExactly(s: State, r: Id, response: Response)
    requires Enabled(s, Commit(r, response))
    ensures var after := Next(s, Commit(r, response));
      && |after.log| == |s.log| + 1 && after.log[..|s.log|] == s.log
      && after.log[|s.log|].request == r && after.log[|s.log|].record.response == response
      && after.log[|s.log|].at == s.clock && after.record == Some(after.log[|s.log|].record)
      && r in after.requests && after.requests[r].phase == Answered(Executed(response))
      && forall q: Request :: q.fingerprint == s.requests[r].fingerprint ==>
           Reply(q, after.log[|s.log|].record) == Replayed(response)
  {
  }
}
