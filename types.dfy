/** Shapes shared by both engines and both controllers: state descriptors,
    event-table entries, the snapshots a resume hands back and the callback
    invocations a step causes. Callbacks are opaque: an action, hook or
    listener is known only by its identity. */
module Types {

  datatype Option<T> = None | Some(value: T)

  type ActionId = nat
  type ListenerId = nat

  /** The value of an `enter`, `exit` or `actions` slot: `undefined`, a single
      callback, or an array whose entries may be empty (null or undefined). */
  datatype Actions = Absent | One(id: ActionId) | Many(items: seq<Option<ActionId>>)

  /** An entry of a state's `on` table: a bare target name, or `{target, actions}`. */
  datatype TransitionSpec =
    | Retarget(target: string)
    | RetargetWithActions(target: string, actions: Actions)

  /** A state's `on` table, which a descriptor may lack altogether. */
  datatype Events = NoTable | Table(entries: map<string, TransitionSpec>)

  /** A state descriptor; `name` is the descriptor's `type` field. */
  datatype State = State(name: string, enter: Actions, exit: Actions, on: Events)

  /** The `value` of a resume: a descriptor, the inactive marker `{type: -1}`,
      or `undefined`. */
  datatype Snapshot = Of(state: State) | Inactive | Undefined

  /** What a generator's `next` or `return` hands back. */
  datatype IterResult = IterResult(value: Snapshot, done: bool)

  /** What a machine reports as its current state: a name, or -1. */
  datatype Reported = Name(name: string) | Minus1

  datatype Role = OnEnter | OnExit | OnEvent

  /** One callback invocation, with the snapshot it was handed. */
  datatype Event =
    | Call(role: Role, action: ActionId, arg: Snapshot)
    | Notify(listener: ListenerId, arg: Snapshot)

  /** The effect of one resume: the new cursor and the callbacks run, in order. */
  datatype Move = Move(next: nat, fired: seq<Event>)

  /** Whether an operation returned normally or threw a TypeError. */
  datatype Outcome = Returned | Threw

  /** The state names in declaration order (`Object.keys` of the state table). */
  function Names(states: seq<State>): seq<string>
  {
    seq(|states|, k requires 0 <= k < |states| => states[k].name)
  }

  /** No two states share a name, as the keys of a state table never do. */
  predicate Distinct(states: seq<State>)
  {
    forall j, k :: 0 <= j < k < |states| ==> states[j].name != states[k].name
  }
}
