/** The step arithmetic both engines share: after leaving the state at index
    `i`, go to the declaration-order successor (wrapping to the first state)
    when no target is given, to the first state carrying the requested name,
    or stay at `i` when no state carries it. */
module Cursor {
  import opened Types
  import opened Utils

  /** `states.findIndex(s => s.type === name)`: the first index holding
      `name`, or -1 when there is none. */
  function FindIndex(states: seq<State>, name: string): (r: int)
    ensures -1 <= r < |states|
    ensures 0 <= r ==> states[r].name == name && forall k :: 0 <= k < r ==> states[k].name != name
    ensures r == -1 <==> forall k :: 0 <= k < |states| ==> states[k].name != name
  {
    if |states| == 0 then -1
    else if states[0].name == name then 0
    else
      var r := FindIndex(states[1..], name);
      if r == -1 then -1 else r + 1
  }

  /** The index a resume moves to from `i`, once it is not suppressed. */
  function Resolve(states: seq<State>, i: nat, target: Option<string>): (n: nat)
    requires i < |states|
    ensures n < |states|
  {
    match target
    case None =>
      // the first state with the current name, plus one, wrapped
      var f := FindIndex(states, states[i].name) + 1;
      if f >= |states| then 0 else f
    case Some(name) =>
      var f := FindIndex(states, name);
      if f == -1 then i else f
  }

  /** The hooks a step from `i` to `n` runs: the exit hooks of the state left,
      then the enter hooks of the state entered, all handed the state left. */
  function Hooks(states: seq<State>, i: nat, n: nat): (evs: seq<Event>)
    requires i < |states| && n < |states|
    ensures forall e :: e in evs ==> e.Call? && e.role != OnEvent && e.arg == Of(states[i])
  {
    Calls(OnExit, states[i].exit, Of(states[i])) + Calls(OnEnter, states[n].enter, Of(states[i]))
  }

  lemma FindIndexOfDistinct(states: seq<State>, i: nat)
    requires Distinct(states) && i < |states|
    ensures FindIndex(states, states[i].name) == i
  {
  }

  /** With distinct names, no target means the successor, wrapping past the last. */
  lemma ResolveAdvance(states: seq<State>, i: nat)
    requires Distinct(states) && i < |states|
    ensures Resolve(states, i, None) == if i + 1 < |states| then i + 1 else 0
  {
    FindIndexOfDistinct(states, i);
  }

  /** A name that some state carries moves the cursor to its first holder. */
  lemma ResolveJump(states: seq<State>, i: nat, name: string)
    requires i < |states|
    requires exists k :: 0 <= k < |states| && states[k].name == name
    ensures var n := Resolve(states, i, Some(name));
      states[n].name == name && forall k :: 0 <= k < n ==> states[k].name != name
  {
  }

  /** A name no state carries leaves the cursor where it is. */
  lemma ResolveUnknown(states: seq<State>, i: nat, name: string)
    requires i < |states|
    requires forall k :: 0 <= k < |states| ==> states[k].name != name
    ensures Resolve(states, i, Some(name)) == i
  {
  }

  /** With a repeated name, no target goes to the successor of the name's
      FIRST holder, not of the current index. */
  lemma ResolveAdvanceDuplicate(states: seq<State>, i: nat, j: nat)
    requires j < i < |states| && states[j].name == states[i].name
    requires forall k :: 0 <= k < j ==> states[k].name != states[i].name
    ensures Resolve(states, i, None) == j + 1
  {
  }
}
