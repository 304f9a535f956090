/** How `send(event)` reads the current snapshot's `on` table, in both
    controllers: which entry it follows, or why it does nothing or throws. */
module Routing {
  import opened Types
  import opened Utils

  /** Ignore: `send` returns at once. Fail: `send` throws a TypeError before
      running anything. Go: run `actions` on the current snapshot, then
      request `target`. */
  datatype Dispatch = Ignore | Fail | Go(actions: Actions, target: string)

  function Route(value: Snapshot, event: string): (d: Dispatch)
    ensures d.Go? <==> value.Of? && value.state.on.Table? && event in value.state.on.entries
    ensures d.Go? ==> d.target == value.state.on.entries[event].target
    ensures d.Fail? <==> value.Undefined? || (value.Of? && value.state.on.Table? && event !in value.state.on.entries)
  {
    match value
    case Inactive => Ignore      // the destroyed marker `{type: -1}` has a numeric type
    case Undefined => Fail       // reading `on` or `type` of `undefined`
    case Of(s) =>
      match s.on
      case NoTable => Ignore
      case Table(entries) =>
        if event !in entries then Fail  // reading `actions` of the missing entry
        else
          match entries[event]
          case Retarget(t) => Go(Absent, t)
          case RetargetWithActions(t, acts) => Go(acts, t)
  }

  /** A bare-name entry runs no action: it is exactly a request for that name. */
  lemma BareEntryRunsNothing(s: State, event: string, target: string)
    requires s.on.Table? && event in s.on.entries && s.on.entries[event] == Retarget(target)
    ensures Route(Of(s), event) == Go(Absent, target)
    ensures forall arg :: Calls(OnEvent, Route(Of(s), event).actions, arg) == []
  {
  }
}
