/** How far a BlockSeen call gets, and what the seen counter counts. */
module SeenOutcomes {
  import opened Protocol
  import opened ProtocolSafety
  import opened ReorgFree

  /** The action is step of the BlockSeen call q. */
  predicate Takes(a: Action, q: nat, step: SeenStep) {
    a == SeenAction(q, step)
  }

  /** The step that a call has taken last, when its storage call did not fail. */
  predicate AfterStep(pc: SeenPc, step: SeenStep) {
    match step
    case StartSeen(_) => pc == Spawned
    case InsertSeen => pc == Inserted
    case CountSeen => pc == Counted
    case StoreSeen(ioError) => pc == if ioError then Failed else Stored
    case CloseSeen => pc == Closed
  }

  /** The step that must come before. */
  predicate BeforeStep(pc: SeenPc, step: SeenStep) {
    match step
    case StartSeen(_) => false
    case InsertSeen => pc == Spawned
    case CountSeen => pc == Inserted
    case StoreSeen(_) => pc == Counted
    case CloseSeen => pc == Stored
  }

  /** The BlockSeen calls that have counted themselves. */
  function CountedCalls(s: State): set<nat> {
    set q | q in s.seens && HasCounted(s.seens[q])
  }

  lemma CountedStep(e: Env, s: State, a: Action)
    requires Enabled(e, s, a)
    ensures var s' := Do(e, s, a);
            if a.SeenAction? && a.seenStep == CountSeen
            then a.q !in CountedCalls(s) && CountedCalls(s') == CountedCalls(s) + {a.q} && s'.seen == s.seen + 1
            else CountedCalls(s') == CountedCalls(s) && s'.seen == s.seen
  {
    match a
    case FetchAction(p, step) => FetchKeepsCount(e, s, p, step);
    case SeenAction(q, step) => CountedInSeen(s, q, step);
    case SyncAction(step) =>
      assert DoSync(e, s, step).seens == s.seens;
  }

  lemma FetchKeepsCount(e: Env, s: State, p: nat, step: FetchStep)
    requires FetchEnabled(s, p, step)
    ensures DoFetch(e, s, p, step).seens == s.seens && DoFetch(e, s, p, step).seen == s.seen
  {
  }

  lemma CountedInSeen(s: State, q: nat, step: SeenStep)
    requires SeenEnabled(s, q, step)
    ensures var s' := DoSeen(s, q, step);
            if step == CountSeen then q !in CountedCalls(s) && CountedCalls(s') == CountedCalls(s) + {q} && s'.seen == s.seen + 1
            else CountedCalls(s') == CountedCalls(s) && s'.seen == s.seen
  {
    var s' := DoSeen(s, q, step);
    forall x
      ensures x in CountedCalls(s') <==> x in CountedCalls(s) || (x == q && step == CountSeen)
    {
    }
  }

  /** In every run the counter is the number of BlockSeen calls that have counted themselves. */
  lemma {:induction false} SeenIsTheCount(e: Env, states: seq<State>, actions: seq<Action>, i: nat)
    requires IsRun(e, states, actions) && i < |states|
    ensures states[i].seen == |CountedCalls(states[i])|
  {
    if i > 0 {
      SeenIsTheCount(e, states, actions, i - 1);
      assert Follows(e, states[i - 1], actions[i - 1], states[i - 1 + 1]);
      CountedStep(e, states[i - 1], actions[i - 1]);
    } else {
      assert CountedCalls(states[0]) == {};
    }
  }

  lemma CallStep(s: State, q: nat, step: SeenStep)
    requires SeenEnabled(s, q, step)
    ensures step.StartSeen? <==> q !in s.seens
    ensures q in s.seens ==> BeforeStep(s.seens[q].pc, step)
    ensures AfterStep(DoSeen(s, q, step).seens[q].pc, step)
  {
  }

  lemma CallUntouched(e: Env, s: State, a: Action, q: nat)
    requires Enabled(e, s, a) && !(a.SeenAction? && a.q == q)
    ensures q in Do(e, s, a).seens <==> q in s.seens
    ensures q in s.seens ==> Do(e, s, a).seens[q] == s.seens[q]
  {
    if a.SeenAction? {
      SeenBlocksStep(s, a.q, a.seenStep);
    } else {
      SeensUntouched(e, s, a);
    }
  }

  /** A BlockSeen call that is somewhere took the step that leads there, once it had taken the one before:
      its insertion, its count, its storage call and its closing section come in this order. */
  lemma {:induction false} LastStepOf(e: Env, states: seq<State>, actions: seq<Action>, i: nat, q: nat) returns (j: nat, step: SeenStep)
    requires IsRun(e, states, actions) && i < |states| && q in states[i].seens
    ensures j < i && Takes(actions[j], q, step) && AfterStep(states[i].seens[q].pc, step)
    ensures if step.StartSeen? then q !in states[j].seens else q in states[j].seens && BeforeStep(states[j].seens[q].pc, step)
  {
    var s, a := states[i - 1], actions[i - 1];
    assert Follows(e, s, a, states[i - 1 + 1]);
    if a.SeenAction? && a.q == q {
      j, step := i - 1, a.seenStep;
      CallStep(s, q, step);
    } else {
      CallUntouched(e, s, a, q);
      j, step := LastStepOf(e, states, actions, i - 1, q);
    }
  }

  /** So the closing section runs only after the storage call succeeded. */
  lemma ClosedWasStored(e: Env, states: seq<State>, actions: seq<Action>, i: nat, q: nat)
    requires IsRun(e, states, actions) && i < |states| && q in states[i].seens && states[i].seens[q].pc == Closed
    ensures exists j :: 0 <= j < i && Takes(actions[j], q, StoreSeen(false))
    ensures !exists j :: 0 <= j < i && Takes(actions[j], q, StoreSeen(true))
  {
    var k, close := LastStepOf(e, states, actions, i, q);
    var j, store := LastStepOf(e, states, actions, k, q);
    if x :| 0 <= x < i && Takes(actions[x], q, StoreSeen(true)) {
      FailedStays(e, states, actions, x, i, q);
    }
  }

  lemma {:induction false} FailedStays(e: Env, states: seq<State>, actions: seq<Action>, x: nat, i: nat, q: nat)
    requires IsRun(e, states, actions) && x < i < |states| && Takes(actions[x], q, StoreSeen(true))
    ensures q in states[i].seens && states[i].seens[q].pc == Failed
    decreases i
  {
    var s, a := states[i - 1], actions[i - 1];
    assert Follows(e, s, a, states[i - 1 + 1]);
    if x < i - 1 {
      FailedStays(e, states, actions, x, i - 1, q);
    }
    if a.SeenAction? && a.q == q {
      CallStep(s, q, a.seenStep);
    } else {
      CallUntouched(e, s, a, q);
    }
  }
}
