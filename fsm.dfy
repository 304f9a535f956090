/** The engine of the current variant: a cursor over an ordered list of state
    descriptors, advanced one state per resume. Its first resume runs no enter
    hook, and a request for the current state's own name runs no hook at all. */
module Fsm {
  import opened Types
  import opened Cursor
  import opened Utils

  /** One resume of a primed engine whose last yielded state is at `i`. */
  function StepFrom(states: seq<State>, i: nat, target: Option<string>): (m: Move)
    requires i < |states|
    ensures m.next < |states|
    // exit and enter hooks alike are handed the state being left
    ensures forall e :: e in m.fired ==> e.Call? && e.role != OnEvent && e.arg == Of(states[i])
  {
    if target == Some(states[i].name) then Move(i, [])
    else
      var n := Resolve(states, i, target);
      Move(n, Hooks(states, i, n))
  }

  /** Successive resumes from index `i` with the given requests. */
  function Run(states: seq<State>, i: nat, targets: seq<Option<string>>): (m: Move)
    requires i < |states|
    ensures m.next < |states|
    decreases |targets|
  {
    if targets == [] then Move(i, [])
    else
      var first := StepFrom(states, i, targets[0]);
      var rest := Run(states, first.next, targets[1..]);
      Move(rest.next, first.fired + rest.fired)
  }

  /** `k` resumes without a target. */
  function Nones(k: nat): (ts: seq<Option<string>>)
    ensures |ts| == k && forall t :: t in ts ==> t == None
  {
    seq(k, _ => None)
  }

  /** A request for the current state's own name runs no hook and keeps the cursor. */
  lemma SameStateIsSilent(states: seq<State>, i: nat)
    requires i < |states|
    ensures StepFrom(states, i, Some(states[i].name)) == Move(i, [])
  {
  }

  /** No target: exit hooks of `i`, then enter hooks of its successor, wrapping to 0. */
  lemma AdvanceStep(states: seq<State>, i: nat)
    requires Distinct(states) && i < |states|
    ensures var n := if i + 1 < |states| then i + 1 else 0;
      StepFrom(states, i, None) == Move(n, Hooks(states, i, n))
  {
    ResolveAdvance(states, i);
  }

  /** A name some state carries: the cursor goes to its first holder, the old
      state's exit hooks running before the new state's enter hooks. */
  lemma JumpStep(states: seq<State>, i: nat, name: string)
    requires i < |states| && name != states[i].name
    requires exists k :: 0 <= k < |states| && states[k].name == name
    ensures var m := StepFrom(states, i, Some(name));
      states[m.next].name == name && m.next != i && m.fired == Hooks(states, i, m.next)
      && forall k :: 0 <= k < m.next ==> states[k].name != name
  {
    ResolveJump(states, i, name);
  }

  /** A name no state carries: the cursor stays, yet since the name differs
      from the current one, the current state's exit and enter hooks both run. */
  lemma UnknownStep(states: seq<State>, i: nat, name: string)
    requires i < |states|
    requires forall k :: 0 <= k < |states| ==> states[k].name != name
    ensures StepFrom(states, i, Some(name)) == Move(i, Hooks(states, i, i))
  {
    ResolveUnknown(states, i, name);
  }

  /** Resuming with `a` and then with `b` is resuming with `a + b`. */
  lemma {:induction false} RunConcat(states: seq<State>, i: nat, a: seq<Option<string>>, b: seq<Option<string>>)
    requires i < |states|
    ensures var m := Run(states, i, a); var r := Run(states, m.next, b);
      Run(states, i, a + b) == Move(r.next, m.fired + r.fired)
    decreases |a|
  {
    if a == [] {
      assert a + b == b;
    } else {
      var first := StepFrom(states, i, a[0]);
      var tail := Run(states, first.next, a[1..]);
      var r := Run(states, tail.next, b);
      assert (a + b)[0] == a[0] && (a + b)[1..] == a[1..] + b;
      RunConcat(states, first.next, a[1..], b);
      ConcatAssoc(first.fired, tail.fired, r.fired);
    }
  }

  /** Regrouping a concatenation of traces. Stated apart from `RunConcat`
      because inside that proof's larger context the solver runs out of
      resources on it. */
  lemma ConcatAssoc(x: seq<Event>, y: seq<Event>, z: seq<Event>)
    ensures (x + y) + z == x + (y + z)
  {
  }

  /** `k` untargeted resumes that do not pass the last state advance by `k`. */
  lemma {:induction false} AdvanceRun(states: seq<State>, i: nat, k: nat)
    requires Distinct(states) && i + k < |states|
    ensures Run(states, i, Nones(k)).next == i + k
    decreases k
  {
    if k > 0 {
      AdvanceStep(states, i);
      assert Nones(k)[1..] == Nones(k - 1);
      AdvanceRun(states, i + 1, k - 1);
    }
  }

  /** `|states|` untargeted resumes visit every state once and come back. */
  lemma FullCycle(states: seq<State>, i: nat)
    requires Distinct(states) && i < |states|
    ensures Run(states, i, Nones(|states|)).next == i
  {
    var n := |states|;
    // up to the last state, over the wrap, then up to i again
    var upToLast, wrap, upToI := Nones(n - 1 - i), [None], Nones(i);
    assert Nones(n) == upToLast + (wrap + upToI);
    RunConcat(states, i, upToLast, wrap + upToI);
    AdvanceRun(states, i, n - 1 - i);
    RunConcat(states, n - 1, wrap, upToI);
    WrapStep(states);
    AdvanceRun(states, 0, i);
  }

  /** One untargeted resume from the last state lands on the first. */
  lemma WrapStep(states: seq<State>)
    requires Distinct(states) && 0 < |states|
    ensures Run(states, |states| - 1, [None]).next == 0
  {
    AdvanceStep(states, |states| - 1);
    var one: seq<Option<string>> := [None];
    assert one[0] == None && one[1..] == [];
  }

  /** Any number of requests for the current name leave everything as it was. */
  lemma {:induction false} RepeatSilent(states: seq<State>, i: nat, k: nat)
    requires i < |states|
    ensures Run(states, i, seq(k, _ => Some(states[i].name))) == Move(i, [])
    decreases k
  {
    if k > 0 {
      var ts := seq(k, _ => Some(states[i].name));
      assert ts[0] == Some(states[i].name);
      assert ts[1..] == seq(k - 1, _ => Some(states[i].name));
      RepeatSilent(states, i, k - 1);
    }
  }

  /** The generator `_FSM(states)`, resumed explicitly. `idx` is the index of
      the state last yielded (`prevStateIndex`). */
  class Engine {
    const states: seq<State>
    var idx: nat
    var primed: bool
    var done: bool

    ghost predicate Valid()
      reads this
    {
      0 < |states| && idx < |states| && (!primed ==> idx == 0)
    }

    /** Creating the generator runs nothing; its body starts at the first resume. */
    constructor (states: seq<State>)
      requires 0 < |states|
      ensures Valid() && this.states == states
      ensures idx == 0 && !primed && !done
    {
      this.states := states;
      idx := 0;
      primed := false;
      done := false;
    }

    /** `next(target)`. The priming resume ignores its argument and yields the
        first state without running its enter hooks, since the request starts
        out equal to that state's name. */
    method Resume(target: Option<string>) returns (res: IterResult, fired: seq<Event>)
      requires Valid()
      modifies this
      ensures Valid() && done == old(done)
      ensures old(done) ==>
        idx == old(idx) && primed == old(primed) && res == IterResult(Undefined, true) && fired == []
      ensures !old(done) && !old(primed) ==>
        primed && idx == 0 && res == IterResult(Of(states[0]), false) && fired == []
      ensures !old(done) && old(primed) ==>
        primed && Move(idx, fired) == StepFrom(states, old(idx), target)
        && res == IterResult(Of(states[idx]), false)
    {
      if done {
        return IterResult(Undefined, true), [];
      }
      if !primed {
        primed := true;
        idx := 0;
        return IterResult(Of(states[0]), false), [];
      }
      var left := states[idx];
      if target == Some(left.name) {
        return IterResult(Of(left), false), [];
      }
      var exits := RunActions(OnExit, left.exit, Of(left));
      var n := FindIndex(states, if target.Some? then target.value else left.name);
      if n == -1 {
        n := idx;
      }
      if target.None? {
        n := n + 1;
      }
      if n >= |states| {
        n := 0;
      }
      var enters := RunActions(OnEnter, states[n].enter, Of(left));
      idx := n;
      res, fired := IterResult(Of(states[n]), false), exits + enters;
    }

    /** `return(value)`: the generator finishes and hands `value` back. */
    method Return(value: Snapshot) returns (res: IterResult)
      requires Valid()
      modifies this
      ensures Valid() && done && idx == old(idx) && primed == old(primed)
      ensures res == IterResult(value, true)
    {
      done := true;
      res := IterResult(value, true);
    }
  }
}
