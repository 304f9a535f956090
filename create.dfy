/** The controller of the current variant (`createMachine`): it owns one engine,
    drops `next` requests for unknown names and for the current state, routes
    `send(event)` through the current state's `on` table and notifies its
    listeners after every step it lets through. */
module Create {
  import opened Types
  import opened Cursor
  import opened Utils
  import opened Listeners
  import opened Routing
  import Fsm

  /** The first half of the guard at the top of `next`: a non-empty name that
      is not a state key. The empty name is falsy, so the key test is skipped
      for it. This half is decided before the snapshot is read. */
  predicate UnknownKey(stateKeys: seq<string>, target: Option<string>)
  {
    target.Some? && target.value != "" && target.value !in stateKeys
  }

  /** The whole guard: a request for an unknown key, or for the current
      state, is dropped. */
  predicate Refuses(stateKeys: seq<string>, current: Reported, target: Option<string>)
  {
    UnknownKey(stateKeys, target) || (target.Some? && current == Name(target.value))
  }

  /** What `next(target)` does from index `i` with `listeners` registered: the
      cursor it leaves and the callbacks it runs, hooks first, then listeners. */
  function NextMove(states: seq<State>, i: nat, listeners: seq<ListenerId>, target: Option<string>): (m: Move)
    requires i < |states|
    ensures m.next < |states|
  {
    if Refuses(Names(states), Name(states[i].name), target) then Move(i, [])
    else
      var step := Fsm.StepFrom(states, i, target);
      Move(step.next, step.fired + Notifications(listeners, Of(states[step.next])))
  }

  /** `next(current)` runs no hook and notifies nobody. */
  lemma SameNameIsSilent(states: seq<State>, i: nat, listeners: seq<ListenerId>)
    requires i < |states|
    ensures NextMove(states, i, listeners, Some(states[i].name)) == Move(i, [])
  {
  }

  /** `next(name)` for a non-empty name that is no state's runs nothing. */
  lemma UnknownNameIsSilent(states: seq<State>, i: nat, listeners: seq<ListenerId>, name: string)
    requires i < |states| && name != ""
    requires forall k :: 0 <= k < |states| ==> states[k].name != name
    ensures NextMove(states, i, listeners, Some(name)) == Move(i, [])
  {
    assert name !in Names(states);
  }

  /** A request that gets through reaches the named state, which differs from
      the current one; the old state's exit hooks and the new state's enter
      hooks run before the listeners hear of it. */
  lemma AcceptedReachesTarget(states: seq<State>, i: nat, listeners: seq<ListenerId>, name: string)
    requires i < |states| && name != ""
    requires !Refuses(Names(states), Name(states[i].name), Some(name))
    ensures var m := NextMove(states, i, listeners, Some(name));
      states[m.next].name == name && m.next != i
      && m.fired == Hooks(states, i, m.next) + Notifications(listeners, Of(states[m.next]))
  {
    var k :| 0 <= k < |states| && Names(states)[k] == name;
    Fsm.JumpStep(states, i, name);
  }

  /** The empty name passes the guard when no state carries it; the engine then
      stays put but runs the current state's exit and enter hooks, and every
      listener is notified. */
  lemma EmptyNameSlipsThrough(states: seq<State>, i: nat, listeners: seq<ListenerId>)
    requires i < |states|
    requires forall k :: 0 <= k < |states| ==> states[k].name != ""
    ensures !Refuses(Names(states), Name(states[i].name), Some(""))
    ensures NextMove(states, i, listeners, Some(""))
      == Move(i, Hooks(states, i, i) + Notifications(listeners, Of(states[i])))
  {
    Fsm.UnknownStep(states, i, "");
  }

  /** A request that gets through notifies each registered listener exactly
      once, with the new snapshot. */
  lemma AcceptedNotifiesEachOnce(states: seq<State>, i: nat, listeners: seq<ListenerId>,
                                 target: Option<string>, l: ListenerId)
    requires i < |states| && Unique(listeners) && l in listeners
    requires !Refuses(Names(states), Name(states[i].name), target)
    ensures var m := NextMove(states, i, listeners, target);
      multiset(m.fired)[Notify(l, Of(states[m.next]))] == 1
  {
    var step := Fsm.StepFrom(states, i, target);
    var snap := Of(states[step.next]);
    assert Notify(l, snap) !in step.fired;
    NotifiedOnce(listeners, snap, l);
    assert multiset(step.fired + Notifications(listeners, snap))
      == multiset(step.fired) + multiset(Notifications(listeners, snap));
  }

  /** A listener that was unsubscribed hears nothing from any later `next`. */
  lemma UnsubscribedHearsNothing(states: seq<State>, i: nat, listeners: seq<ListenerId>,
                                 target: Option<string>, l: ListenerId)
    requires i < |states|
    ensures forall e :: e in NextMove(states, i, Remove(listeners, l), target).fired ==> !(e.Notify? && e.listener == l)
  {
    var step := Fsm.StepFrom(states, i, target);
    NotNotified(Remove(listeners, l), Of(states[step.next]), l);
  }

  /** The object `createMachine(config)` returns. `ctx` is the last result the
      engine handed back. */
  class Machine {
    const states: seq<State>
    const stateKeys: seq<string>
    const initial: string
    const engine: Fsm.Engine
    var ctx: IterResult
    var listeners: seq<ListenerId>
    var trace: seq<Event>

    ghost predicate Valid()
      reads this, engine
    {
      engine.Valid() && engine.states == states && engine.primed
      && stateKeys == Names(states) && Distinct(states)
      && (engine.done ==> ctx.done && !ctx.value.Of?)
      && (!engine.done ==> ctx == IterResult(Of(states[engine.idx]), false))
      && Unique(listeners)
    }

    /** `createMachine({states, initial})`: `initial` defaults to the first
        key; the engine is primed once, running no hook. */
    constructor (states: seq<State>, initial: Option<string>)
      requires 0 < |states| && Distinct(states)
      ensures Valid() && fresh(engine) && this.states == states
      ensures this.initial == if initial.Some? then initial.value else states[0].name
      ensures ctx == IterResult(Of(states[0]), false) && engine.idx == 0
      ensures Current() == Some(Name(states[0].name)) && !Done()
      ensures listeners == [] && trace == []
    {
      var keys := Names(states);
      var e := new Fsm.Engine(states);
      var res, fired := e.Resume(None);
      this.states := states;
      stateKeys := keys;
      this.initial := if initial.Some? then initial.value else keys[0];
      engine := e;
      ctx := res;
      listeners := [];
      trace := fired;
    }

    /** The `current` getter: the snapshot's `type`. `None` is the TypeError
        the getter throws once the snapshot is `undefined`. */
    function Current(): (r: Option<Reported>)
      reads this, engine
      ensures r.None? <==> ctx.value.Undefined?
      ensures Valid() && !engine.done ==> r == Some(Name(states[engine.idx].name))
      ensures ctx.value.Inactive? ==> r == Some(Minus1)
    {
      match ctx.value
      case Of(s) => Some(Name(s.name))
      case Inactive => Some(Minus1)
      case Undefined => None
    }

    /** The `done` getter: whether the engine has finished. */
    function Done(): (d: bool)
      reads this, engine
      ensures Valid() ==> (d <==> engine.done)
    {
      ctx.done
    }

    /** `next(target)`. Once destroyed, a request that passes the guard
        resumes the finished generator: the snapshot becomes `undefined` and
        every listener hears it. After that, a request for an unknown key is
        still dropped, and any other request throws on reading `type` of
        `undefined`. */
    method Next(target: Option<string>) returns (outcome: Outcome)
      requires Valid()
      modifies this, engine
      ensures Valid() && listeners == old(listeners) && engine.done == old(engine.done)
      ensures old(ctx.value).Undefined? ==>
        outcome == (if UnknownKey(stateKeys, target) then Returned else Threw)
        && ctx == old(ctx) && engine.idx == old(engine.idx) && trace == old(trace)
      ensures !old(engine.done) ==>
        var m := NextMove(states, old(engine.idx), old(listeners), target);
        outcome == Returned && !Done() && engine.idx == m.next && trace == old(trace) + m.fired
      ensures old(ctx.value).Inactive? ==>
        outcome == Returned && engine.idx == old(engine.idx)
        && if Refuses(stateKeys, Minus1, target) then ctx == old(ctx) && trace == old(trace)
           else ctx == IterResult(Undefined, true) && trace == old(trace) + Notifications(listeners, Undefined)
    {
      if UnknownKey(stateKeys, target) {
        return Returned;
      }
      if ctx.value.Undefined? {
        return Threw;
      }
      if Refuses(stateKeys, Current().value, target) {
        return Returned;
      }
      var res, fired := engine.Resume(target);
      ctx := res;
      var sent := NotifyAll(listeners, ctx.value);
      trace := trace + fired + sent;
      return Returned;
    }

    /** Registers `l` and calls it at once with the current snapshot. */
    method Subscribe(l: ListenerId)
      requires Valid()
      modifies this
      ensures Valid() && ctx == old(ctx)
      ensures listeners == Add(old(listeners), l)
      ensures trace == old(trace) + [Notify(l, ctx.value)]
    {
      listeners := Add(listeners, l);
      trace := trace + [Notify(l, ctx.value)];
    }

    /** The function `subscribe(l)` returns: deletes exactly `l`. */
    method Unsubscribe(l: ListenerId) returns (removed: bool)
      requires Valid()
      modifies this
      ensures Valid() && ctx == old(ctx) && trace == old(trace)
      ensures removed == (l in old(listeners))
      ensures listeners == Remove(old(listeners), l)
    {
      removed := l in listeners;
      listeners := Remove(listeners, l);
    }

    /** `send(event)`: a destroyed machine or a state without an `on` table
        ignores it; a missing entry, or no snapshot at all, throws; otherwise the entry's actions run on
        the current snapshot, then `next(target)` runs, dropped or not. */
    method Send(event: string) returns (outcome: Outcome)
      requires Valid()
      modifies this, engine
      ensures Valid() && listeners == old(listeners) && engine.done == old(engine.done)
      ensures match Route(old(ctx.value), event)
        case Ignore => outcome == Returned && ctx == old(ctx) && engine.idx == old(engine.idx) && trace == old(trace)
        case Fail => outcome == Threw && ctx == old(ctx) && engine.idx == old(engine.idx) && trace == old(trace)
        case Go(acts, target) =>
          var m := NextMove(states, old(engine.idx), old(listeners), Some(target));
          outcome == Returned && engine.idx == m.next
          && !Done() && ctx == IterResult(Of(states[m.next]), false)
          && trace == old(trace) + Calls(OnEvent, acts, old(ctx.value)) + m.fired
    {
      var state := ctx.value;
      if state.Undefined? {
        return Threw;
      }
      if state.Inactive? {
        return Returned;
      }
      var s := state.state;
      if s.on.NoTable? {
        return Returned;
      }
      if event !in s.on.entries {
        return Threw;
      }
      var entry := s.on.entries[event];
      if entry.RetargetWithActions? {
        var acted := RunActions(OnEvent, entry.actions, state);
        trace := trace + acted;
      }
      outcome := Next(Some(entry.target));
    }

    /** `destroy()`: finishes the engine with `{type: -1}` and deletes every listener. */
    method Destroy()
      requires Valid()
      modifies this, engine
      ensures Valid() && ctx == IterResult(Inactive, true) && Done() && Current() == Some(Minus1)
      ensures listeners == [] && trace == old(trace) && engine.idx == old(engine.idx)
    {
      ctx := engine.Return(Inactive);
      while listeners != []
        invariant Valid() && ctx == IterResult(Inactive, true)
        invariant trace == old(trace) && engine.idx == old(engine.idx)
        decreases |listeners|
      {
        listeners := Remove(listeners, listeners[0]);
      }
    }
  }
}
