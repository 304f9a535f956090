/** The older single-file variant (`src/index.ts`): its own engine, which runs
    the first state's enter hooks when primed and never suppresses a request,
    and a controller whose `next` steps the engine and notifies every time. */
module Legacy {
  import opened Types
  import opened Cursor
  import opened Utils
  import opened Listeners
  import opened Routing

  /** The shorthand of this variant: a bare name becomes `{type: name}`, with no
      hooks and no `on` table; an object keeps what it has, a missing property
      reading as `undefined`. */
  function Normalize(d: Decl): (s: State)
    ensures s.name == d.name
    ensures d.Short? ==> s.enter == Absent && s.exit == Absent && s.on == NoTable
    ensures d.Partial? ==> s.enter == (if d.enter.Some? then d.enter.value else Absent)
    ensures d.Partial? ==> s.exit == (if d.exit.Some? then d.exit.value else Absent)
    ensures d.Partial? ==> s.on == (if d.on.Some? then d.on.value else NoTable)
  {
    match d
    case Short(n) => State(n, Absent, Absent, NoTable)
    case Partial(n, enter, exit, on) =>
      State(n,
            if enter.Some? then enter.value else Absent,
            if exit.Some? then exit.value else Absent,
            if on.Some? then on.value else NoTable)
  }

  /** The argument of `createMachine(states?)`, normalised; a missing list is empty. */
  function Declared(config: Option<seq<Decl>>): (states: seq<State>)
    ensures config.None? ==> states == []
    ensures config.Some? ==> |states| == |config.value|
    ensures config.Some? ==> forall k :: 0 <= k < |states| ==>
      states[k] == Normalize(config.value[k]) && states[k].name == config.value[k].name
  {
    match config
    case None => []
    case Some(ds) => seq(|ds|, k requires 0 <= k < |ds| => Normalize(ds[k]))
  }

  /** A bare name behaves exactly like an object holding only that name. */
  lemma NormalizeShorthand(n: string)
    ensures Normalize(Short(n)) == Normalize(Partial(n, None, None, None))
  {
  }

  /** This variant calls every array entry, and iterates an event entry's
      `actions` as an array; descriptors for which neither throws. */
  predicate HoleFree(a: Actions)
  {
    a.Many? ==> forall k :: 0 <= k < |a.items| ==> a.items[k].Some?
  }

  predicate ArrayActions(t: TransitionSpec)
  {
    t.RetargetWithActions? ==> !t.actions.One? && HoleFree(t.actions)
  }

  predicate Typed(states: seq<State>)
  {
    forall k :: 0 <= k < |states| ==>
      HoleFree(states[k].enter) && HoleFree(states[k].exit)
      && (states[k].on.Table? ==> forall e :: e in states[k].on.entries ==> ArrayActions(states[k].on.entries[e]))
  }

  /** On hole-free arrays, `runActions` of this variant calls every element in order. */
  lemma HoleFreeCallsAll(role: Role, items: seq<Option<ActionId>>, arg: Snapshot)
    requires HoleFree(Many(items))
    ensures var evs := Calls(role, Many(items), arg);
      |evs| == |items| && forall k :: 0 <= k < |items| ==> evs[k] == Call(role, items[k].value, arg)
  {
    PresentHoleFree(items);
  }

  /** The value yielded for index `i`: `states[i]`, or `undefined` for an empty list. */
  function Yielded(states: seq<State>, i: nat): Snapshot
  {
    if i < |states| then Of(states[i]) else Undefined
  }

  /** The hooks the priming resume runs: the first state's enter hooks, handed that state. */
  function PrimeHooks(states: seq<State>): (evs: seq<Event>)
    ensures forall e :: e in evs ==> e.Call? && e.role == OnEnter && e.arg == Yielded(states, 0)
  {
    if |states| == 0 then [] else Calls(OnEnter, states[0].enter, Of(states[0]))
  }

  /** One resume of a primed engine whose last yielded index is `i`. Nothing is
      suppressed: even a request for the current name runs its exit and enter
      hooks. An empty list stays at index 0 and runs nothing. */
  function StepFrom(states: seq<State>, i: nat, target: Option<string>): (m: Move)
    requires i < |states| || i == 0
    ensures m.next < |states| || (|states| == 0 && m.next == 0)
    ensures forall e :: e in m.fired ==> e.Call? && e.role != OnEvent && e.arg == Yielded(states, i)
  {
    if |states| == 0 then Move(0, [])
    else
      var n := Resolve(states, i, target);
      Move(n, Hooks(states, i, n))
  }

  /** What `next(target)` does before `destroy`: one step, then every listener
      hears the new snapshot. */
  function NextMove(states: seq<State>, i: nat, listeners: seq<ListenerId>, target: Option<string>): (m: Move)
    requires i < |states| || i == 0
    ensures m.next < |states| || (|states| == 0 && m.next == 0)
  {
    var step := StepFrom(states, i, target);
    Move(step.next, step.fired + Notifications(listeners, Yielded(states, step.next)))
  }

  /** `next(current)` is not suppressed: the state is left and re-entered. */
  lemma SameStateRunsHooks(states: seq<State>, i: nat)
    requires Distinct(states) && i < |states|
    ensures StepFrom(states, i, Some(states[i].name)) == Move(i, Hooks(states, i, i))
  {
    FindIndexOfDistinct(states, i);
  }

  /** An unknown name keeps the index, and the current state's exit and enter hooks run. */
  lemma UnknownRunsHooks(states: seq<State>, i: nat, name: string)
    requires i < |states|
    requires forall k :: 0 <= k < |states| ==> states[k].name != name
    ensures StepFrom(states, i, Some(name)) == Move(i, Hooks(states, i, i))
  {
    ResolveUnknown(states, i, name);
  }

  /** With no target: exit hooks of `i`, then enter hooks of its successor, wrapping to 0. */
  lemma AdvanceRunsHooks(states: seq<State>, i: nat)
    requires Distinct(states) && i < |states|
    ensures var n := if i + 1 < |states| then i + 1 else 0;
      StepFrom(states, i, None) == Move(n, Hooks(states, i, n))
  {
    ResolveAdvance(states, i);
  }

  /** Every `next` reaches every registered listener exactly once. */
  lemma NextNotifiesEachOnce(states: seq<State>, i: nat, listeners: seq<ListenerId>,
                             target: Option<string>, l: ListenerId)
    requires (i < |states| || i == 0) && Unique(listeners) && l in listeners
    ensures var m := NextMove(states, i, listeners, target);
      multiset(m.fired)[Notify(l, Yielded(states, m.next))] == 1
  {
    var step := StepFrom(states, i, target);
    var snap := Yielded(states, step.next);
    assert Notify(l, snap) !in step.fired;
    NotifiedOnce(listeners, snap, l);
    assert multiset(step.fired + Notifications(listeners, snap))
      == multiset(step.fired) + multiset(Notifications(listeners, snap));
  }

  /** This variant's `_FSM(states)` generator, resumed explicitly. */
  class Engine {
    const states: seq<State>
    var idx: nat
    var primed: bool
    var done: bool

    ghost predicate Valid()
      reads this
    {
      Typed(states) && (idx < |states| || idx == 0) && (!primed ==> idx == 0)
    }

    constructor (states: seq<State>)
      requires Typed(states)
      ensures Valid() && this.states == states
      ensures idx == 0 && !primed && !done
    {
      this.states := states;
      idx := 0;
      primed := false;
      done := false;
    }

    /** `next(target)`. Priming runs the first state's enter hooks and yields it
        (`undefined` for an empty list); later resumes take `StepFrom`. */
    method Resume(target: Option<string>) returns (res: IterResult, fired: seq<Event>)
      requires Valid()
      modifies this
      ensures Valid() && done == old(done)
      ensures old(done) ==>
        idx == old(idx) && primed == old(primed) && res == IterResult(Undefined, true) && fired == []
      ensures !old(done) && !old(primed) ==>
        primed && idx == 0 && res == IterResult(Yielded(states, 0), false) && fired == PrimeHooks(states)
      ensures !old(done) && old(primed) ==>
        primed && Move(idx, fired) == StepFrom(states, old(idx), target)
        && res == IterResult(Yielded(states, idx), false)
    {
      if done {
        return IterResult(Undefined, true), [];
      }
      if !primed {
        primed := true;
        idx := 0;
        // `states[0]?.enter`, handed `activeState`, which starts as `states[0]`
        fired := RunActions(OnEnter, if |states| == 0 then Absent else states[0].enter, Yielded(states, 0));
        return IterResult(Yielded(states, 0), false), fired;
      }
      var prev := idx;
      var left := Yielded(states, prev);
      var n: int;
      if target.Some? {
        n := FindIndex(states, target.value);
        if n == -1 {
          n := prev;
        }
      } else {
        // `findIndex` never calls its callback on an empty list
        n := (if |states| == 0 then -1 else FindIndex(states, states[prev].name)) + 1;
      }
      var exits := RunActions(OnExit, if prev < |states| then states[prev].exit else Absent, left);
      if n >= |states| {
        n := 0;
      }
      var enters := RunActions(OnEnter, if n < |states| then states[n].enter else Absent, left);
      idx := n;
      res, fired := IterResult(Yielded(states, n), false), exits + enters;
    }

    /** `return()`: the generator finishes with `undefined`. */
    method Return() returns (res: IterResult)
      requires Valid()
      modifies this
      ensures Valid() && done && idx == old(idx) && primed == old(primed)
      ensures res == IterResult(Undefined, true)
    {
      done := true;
      res := IterResult(Undefined, true);
    }
  }

  /** The object this variant's `createMachine(states?)` returns. */
  class Machine {
    const engine: Engine
    var ctx: IterResult
    var listeners: seq<ListenerId>
    var trace: seq<Event>

    ghost predicate Valid()
      reads this, engine
    {
      engine.Valid() && engine.primed
      && ctx == (if engine.done then IterResult(Undefined, true) else IterResult(Yielded(engine.states, engine.idx), false))
      && Unique(listeners)
    }

    /** Construction primes the engine, so the first state's enter hooks run.
        A missing or empty list is accepted. */
    constructor (config: Option<seq<Decl>>)
      requires Typed(Declared(config))
      ensures Valid() && fresh(engine) && engine.states == Declared(config)
      ensures engine.idx == 0 && ctx == IterResult(Yielded(engine.states, 0), false)
      ensures Active() == (if engine.states == [] then Minus1 else Name(engine.states[0].name))
      ensures !Done() && listeners == [] && trace == PrimeHooks(engine.states)
    {
      var e := new Engine(Declared(config));
      var res, fired := e.Resume(None);
      engine := e;
      ctx := res;
      listeners := [];
      trace := fired;
    }

    /** The `active` getter: the snapshot's `type`, or -1 when there is none. */
    function Active(): (r: Reported)
      reads this, engine
      ensures Valid() ==>
        r == if !engine.done && engine.idx < |engine.states| then Name(engine.states[engine.idx].name) else Minus1
    {
      match ctx.value
      case Of(s) => Name(s.name)
      case _ => Minus1
    }

    /** The `done` getter: whether the engine has finished. */
    function Done(): (d: bool)
      reads this, engine
      ensures Valid() ==> (d <==> engine.done)
    {
      ctx.done
    }

    /** `next(target)`: always resumes the engine and notifies every listener,
        with `undefined` once the machine is destroyed. */
    method Next(target: Option<string>)
      requires Valid()
      modifies this, engine
      ensures Valid() && listeners == old(listeners) && engine.done == old(engine.done)
      ensures old(engine.done) ==>
        engine.idx == old(engine.idx) && ctx == old(ctx)
        && trace == old(trace) + Notifications(listeners, Undefined)
      ensures !old(engine.done) ==>
        var m := NextMove(engine.states, old(engine.idx), old(listeners), target);
        engine.idx == m.next && trace == old(trace) + m.fired
    {
      var res, fired := engine.Resume(target);
      ctx := res;
      var sent := NotifyAll(listeners, ctx.value);
      trace := trace + fired + sent;
    }

    method Subscribe(l: ListenerId)
      requires Valid()
      modifies this
      ensures Valid() && ctx == old(ctx)
      ensures listeners == Add(old(listeners), l)
      ensures trace == old(trace) + [Notify(l, ctx.value)]
    {
      listeners := Add(listeners, l);
      trace := trace + [Notify(l, ctx.value)];
    }

    method Unsubscribe(l: ListenerId) returns (removed: bool)
      requires Valid()
      modifies this
      ensures Valid() && ctx == old(ctx) && trace == old(trace)
      ensures removed == (l in old(listeners))
      ensures listeners == Remove(old(listeners), l)
    {
      removed := l in listeners;
      listeners := Remove(listeners, l);
    }

    /** `send(event)`: throws when there is no snapshot or no entry for the
        event, does nothing without an `on` table, and otherwise runs the
        entry's actions before `next(target)`. */
    method Send(event: string) returns (outcome: Outcome)
      requires Valid()
      modifies this, engine
      ensures Valid() && listeners == old(listeners) && engine.done == old(engine.done)
      ensures match Route(old(ctx.value), event)
        case Ignore => outcome == Returned && ctx == old(ctx) && engine.idx == old(engine.idx) && trace == old(trace)
        case Fail => outcome == Threw && ctx == old(ctx) && engine.idx == old(engine.idx) && trace == old(trace)
        case Go(acts, target) =>
          var m := NextMove(engine.states, old(engine.idx), old(listeners), Some(target));
          outcome == Returned && engine.idx == m.next
          && !Done() && ctx == IterResult(Yielded(engine.states, m.next), false)
          && trace == old(trace) + Calls(OnEvent, acts, old(ctx.value)) + m.fired
    {
      var value := ctx.value;
      if value.Undefined? {
        return Threw;
      }
      var s := value.state;
      if s.on.NoTable? {
        return Returned;
      }
      if event !in s.on.entries {
        return Threw;
      }
      var entry := s.on.entries[event];
      if entry.RetargetWithActions? {
        var acted := RunActions(OnEvent, entry.actions, value);
        trace := trace + acted;
      }
      Next(Some(entry.target));
      return Returned;
    }

    /** `destroy()`: finishes the engine and deletes every listener. */
    method Destroy()
      requires Valid()
      modifies this, engine
      ensures Valid() && Done() && Active() == Minus1
      ensures listeners == [] && trace == old(trace) && engine.idx == old(engine.idx)
    {
      ctx := engine.Return();
      while listeners != []
        invariant Valid() && ctx == IterResult(Undefined, true)
        invariant trace == old(trace) && engine.idx == old(engine.idx)
        decreases |listeners|
      {
        listeners := Remove(listeners, listeners[0]);
      }
    }
  }
}
