/** Every step of every actor keeps the invariant, so it holds in every world of every run. */
module Preservation {
  import opened Machine
  import opened Invariants
  import opened OneShotSteps
  import opened SessionSteps
  import opened CompletionSteps
  import opened OutboxSteps

  lemma InitOk(w: World)
    requires Init(w)
    ensures Inv(w)
  {
  }

  lemma StepKeeps(w: World, step: Step)
    requires Inv(w) && Enabled(w, step)
    ensures Inv(Next(w, step))
  {
    hide Inv, AccountNext, OneShotNext, SessionNext, CompletionNext, OutboxNext,
      AccountEnabled, OneShotEnabled, SessionEnabled, CompletionEnabled, OutboxEnabled;
    match step
    case OnAccount(a) => AccountKeeps(w, a);
    case OnOneShot(o) => OneShotKeeps(w, o);
    case OnSession(s) => SessionKeeps(w, s);
    case OnCompletion(c) => CompletionKeeps(w, c);
    case OnOutbox(x) => OutboxKeeps(w, x);
  }

  /** The invariant holds in every world of every run. */
  lemma {:induction false} ReachableOk(worlds: seq<World>, steps: seq<Step>, i: nat)
    requires IsRun(worlds, steps) && i < |worlds|
    ensures Inv(worlds[i])
  {
    hide Inv, Init, Enabled, Next;
    if i == 0 {
      InitOk(worlds[0]);
    } else {
      ReachableOk(worlds, steps, i - 1);
      StepKeeps(worlds[i - 1], steps[i - 1]);
    }
  }
}
