/** Where the two historical variants part: the current engine (`src/fsm.ts`)
    with its controller (`src/create.ts`), against the older single-file
    variant (`src/index.ts`). */
module Variants {
  import opened Types
  import opened Cursor
  import opened Utils
  import opened Listeners
  import Fsm
  import Create
  import Legacy

  /** Away from requests for the current name, both engines take the same step. */
  lemma EnginesAgreeOnMoves(states: seq<State>, i: nat, target: Option<string>)
    requires i < |states| && target != Some(states[i].name)
    ensures Fsm.StepFrom(states, i, target) == Legacy.StepFrom(states, i, target)
  {
  }

  /** The engines differ exactly on a request for the current name whose state
      has some exit or enter hook to run. */
  lemma EnginesDifferExactly(states: seq<State>, i: nat, target: Option<string>)
    requires Distinct(states) && i < |states|
    ensures Fsm.StepFrom(states, i, target) == Legacy.StepFrom(states, i, target)
      <==> target != Some(states[i].name) || (Invoked(states[i].exit) == [] && Invoked(states[i].enter) == [])
  {
    if target == Some(states[i].name) {
      Legacy.SameStateRunsHooks(states, i);
      assert |Hooks(states, i, i)| == |Invoked(states[i].exit)| + |Invoked(states[i].enter)|;
    }
  }

  /** Priming: the current engine runs no hook, the older one the first state's
      enter hooks; they agree only when there are none. */
  lemma PrimingDiffers(states: seq<State>)
    requires 0 < |states|
    ensures Legacy.PrimeHooks(states) == [] <==> Invoked(states[0].enter) == []
  {
  }

  /** A non-empty name that no state carries: the current controller drops the
      request; the older one stays put but leaves and re-enters the current
      state and notifies every listener. */
  lemma UnknownNameControllers(states: seq<State>, i: nat, listeners: seq<ListenerId>, name: string)
    requires i < |states| && name != ""
    requires forall k :: 0 <= k < |states| ==> states[k].name != name
    ensures Create.NextMove(states, i, listeners, Some(name)) == Move(i, [])
    ensures Legacy.NextMove(states, i, listeners, Some(name))
      == Move(i, Hooks(states, i, i) + Notifications(listeners, Of(states[i])))
  {
    Create.UnknownNameIsSilent(states, i, listeners, name);
    Legacy.UnknownRunsHooks(states, i, name);
  }

  /** A request the current controller lets through does exactly what the
      older controller does with it. */
  lemma ControllersAgreeOtherwise(states: seq<State>, i: nat, listeners: seq<ListenerId>, target: Option<string>)
    requires i < |states|
    requires !Create.Refuses(Names(states), Name(states[i].name), target)
    ensures Create.NextMove(states, i, listeners, target) == Legacy.NextMove(states, i, listeners, target)
  {
    EnginesAgreeOnMoves(states, i, target);
  }
}
