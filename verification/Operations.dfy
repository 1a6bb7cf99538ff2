/** The life of an operation: which actions are legal in which state, and what every history obeys. */
module Operations {
  import opened Wrappers

  datatype State =
    | Queued | Starting | Running | Waiting | Cancelling
    | Succeeded | Failed | Cancelled | Blocked | Uncertain

  datatype Action =
    | BeginStart | ReportRunning | Wait | Resume | RequestCancel
    | ReportSuccess | ReportFailure | ReportCancelled | ReportBlocked | ReportUncertain | ObserveIdle

  predicate IsTerminal(s: State) {
    s.Succeeded? || s.Failed? || s.Cancelled? || s.Blocked? || s.Uncertain?
  }

  /** The transition table; `None` is an illegal action. */
  function Next(s: State, a: Action): Option<State> {
    match (s, a)
    case (Queued, BeginStart) => Some(Starting)
    case (Starting, ReportRunning) => Some(Running)
    case (Waiting, Resume) => Some(Running)
    case (Running, Wait) => Some(Waiting)
    case (Queued, RequestCancel) => Some(Cancelling)
    case (Starting, RequestCancel) => Some(Cancelling)
    case (Running, RequestCancel) => Some(Cancelling)
    case (Waiting, RequestCancel) => Some(Cancelling)
    case (Queued, ReportCancelled) => Some(Cancelled)
    case (Cancelling, ReportCancelled) => Some(Cancelled)
    case (_, ReportFailure) => if IsTerminal(s) then None else Some(Failed)
    case (Running, ReportSuccess) => Some(Succeeded)
    case (Running, ReportBlocked) => Some(Blocked)
    case (Waiting, ReportBlocked) => Some(Blocked)
    case (_, ReportUncertain) => if IsTerminal(s) || s.Queued? then None else Some(Uncertain)
    case _ => None
  }

  /** The states in which each action is legal. */
  predicate Legal(s: State, a: Action) {
    match a
    case BeginStart => s in {Queued}
    case ReportRunning => s in {Starting}
    case Wait => s in {Running}
    case Resume => s in {Waiting}
    case RequestCancel => s in {Queued, Starting, Running, Waiting}
    case ReportSuccess => s in {Running}
    case ReportFailure => s in {Queued, Starting, Running, Waiting, Cancelling}
    case ReportCancelled => s in {Queued, Cancelling}
    case ReportBlocked => s in {Running, Waiting}
    case ReportUncertain => s in {Starting, Running, Waiting, Cancelling}
    case ObserveIdle => false
  }

  /** The action and the state it led to name each other. */
  predicate LeadsTo(a: Action, t: State) {
    && (a.BeginStart? <==> t.Starting?)
    && (a.ReportRunning? || a.Resume? <==> t.Running?)
    && (a.Wait? <==> t.Waiting?)
    && (a.RequestCancel? <==> t.Cancelling?)
    && (a.ReportSuccess? <==> t.Succeeded?)
    && (a.ReportFailure? <==> t.Failed?)
    && (a.ReportCancelled? <==> t.Cancelled?)
    && (a.ReportBlocked? <==> t.Blocked?)
    && (a.ReportUncertain? <==> t.Uncertain?)
  }

  /** The table, by what it allows and where it leads. */
  lemma TableIsExact(s: State, a: Action)
    ensures Next(s, a).Some? <==> Legal(s, a)
    ensures Next(s, a).Some? ==> LeadsTo(a, Next(s, a).value)
  {
  }

  /** The state after a history of attempted actions; a refused action changes nothing. */
  function Replay(actions: seq<Action>): State {
    if actions == [] then Queued
    else
      var before := Replay(actions[..|actions| - 1]);
      var next := Next(before, actions[|actions| - 1]);
      if next.Some? then next.value else before
  }

  class Operation {
    var state: State
    ghost var history: seq<Action>

    ghost predicate Valid()
      reads this
    {
      state == Replay(history)
    }

    constructor ()
      ensures Valid() && state == Queued && history == []
    {
      state, history := Queued, [];
    }

    method Apply(action: Action) returns (ok: bool)
      requires Valid()
      modifies this
      ensures Valid() && history == old(history) + [action]
      ensures ok <==> Legal(old(state), action)
      ensures if ok then LeadsTo(action, state) else state == old(state)
      ensures IsTerminal(old(state)) ==> !ok
    {
      TableIsExact(state, action);
      var next := Next(state, action);
      history := history + [action];
      assert history[..|history| - 1] == old(history);
      if next.None? {
        return false;
      }
      state := next.value;
      ok := true;
    }
  }

  // ---------------------------------------------------------------------------------------------
  // Every history
  // ---------------------------------------------------------------------------------------------

  lemma ReplayOne(actions: seq<Action>, a: Action)
    ensures var next := Next(Replay(actions), a);
            Replay(actions + [a]) == if next.Some? then next.value else Replay(actions)
  {
    assert (actions + [a])[..|actions|] == actions;
  }

  /** `t` is a state that an operation once in `s` may still be in. */
  predicate Settled(s: State, t: State) {
    && (IsTerminal(s) ==> t == s)
    && (s.Cancelling? ==> t.Cancelling? || t.Cancelled? || t.Failed? || t.Uncertain?)
    && (!s.Queued? ==> !t.Queued?)
  }

  /** Terminal states are final, a cancelling operation never succeeds, and nothing is queued again. */
  lemma {:induction false} HistoryIsOneWay(actions: seq<Action>, n: nat)
    requires n <= |actions|
    ensures Settled(Replay(actions[..n]), Replay(actions))
    decreases |actions|
  {
    if n < |actions| {
      var init := actions[..|actions| - 1];
      HistoryIsOneWay(init, n);
      assert init[..n] == actions[..n];
      ReplayOne(init, actions[|actions| - 1]);
      assert init + [actions[|actions| - 1]] == actions;
    } else {
      assert actions[..n] == actions;
    }
  }

  /** The operation was seen in state `s` after the first `n` actions. */
  predicate Passed(actions: seq<Action>, n: nat, s: State) {
    n <= |actions| && Replay(actions[..n]) == s
  }

  lemma PassedEarlier(actions: seq<Action>, m: nat, n: nat, s: State)
    requires m <= |actions| && Passed(actions[..m], n, s)
    ensures Passed(actions, n, s)
  {
    assert actions[..m][..n] == actions[..n];
  }

  lemma {:induction false} RunningWasStarting(actions: seq<Action>) returns (i: nat)
    requires Replay(actions).Running? || Replay(actions).Waiting?
    ensures i < |actions| && Passed(actions, i, Starting)
    decreases |actions|
  {
    var n := |actions| - 1;
    if Replay(actions[..n]).Starting? {
      i := n;
    } else {
      i := RunningWasStarting(actions[..n]);
      PassedEarlier(actions, n, i, Starting);
    }
  }

  lemma {:induction false} SucceededWasRunning(actions: seq<Action>) returns (j: nat)
    requires Replay(actions).Succeeded?
    ensures j < |actions| && Passed(actions, j, Running)
    decreases |actions|
  {
    var n := |actions| - 1;
    if Replay(actions[..n]).Running? {
      j := n;
    } else {
      j := SucceededWasRunning(actions[..n]);
      PassedEarlier(actions, n, j, Running);
    }
  }

  /**
    A succeeded operation passed Starting and later Running, and no cancel request was ever
    accepted before it succeeded or after.
  */
  lemma SuccessStory(actions: seq<Action>) returns (i: nat, j: nat)
    requires Replay(actions).Succeeded?
    ensures i < j < |actions| && Passed(actions, i, Starting) && Passed(actions, j, Running)
    ensures forall n :: 0 <= n <= |actions| ==> !Replay(actions[..n]).Cancelling?
    ensures forall n :: 0 <= n < |actions| && actions[n].RequestCancel? ==> Next(Replay(actions[..n]), actions[n]).None?
  {
    j := SucceededWasRunning(actions);
    i := RunningWasStarting(actions[..j]);
    PassedEarlier(actions, j, i, Starting);
    forall n | 0 <= n <= |actions| ensures !Replay(actions[..n]).Cancelling? {
      HistoryIsOneWay(actions, n);
    }
    forall n | 0 <= n < |actions| && actions[n].RequestCancel?
      ensures Next(Replay(actions[..n]), actions[n]).None?
    {
      ReplayOne(actions[..n], actions[n]);
      assert actions[..n] + [actions[n]] == actions[..n + 1];
    }
  }
}
