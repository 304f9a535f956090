/** Descriptor normalisation (`createState`) and ordered callback invocation
    (`runActions`). */
module Utils {
  import opened Types

  /** A state as declared: a bare name, or an object whose `enter`, `exit`
      and `on` properties may each be missing. */
  datatype Decl =
    | Short(name: string)
    | Partial(name: string, enter: Option<Actions>, exit: Option<Actions>, on: Option<Events>)

  /** `createState`: the defaults `{enter: [], exit: [], on: {}}` overwritten by
      the declared properties; a bare name becomes `{type: name}` first. */
  function CreateState(d: Decl): (s: State)
    ensures s.name == d.name
    ensures d.Short? ==> s == State(d.name, Many([]), Many([]), Table(map[]))
    ensures d.Partial? && d.enter.Some? ==> s.enter == d.enter.value
    ensures d.Partial? && d.exit.Some? ==> s.exit == d.exit.value
    ensures d.Partial? && d.on.Some? ==> s.on == d.on.value
    ensures d.Partial? && d.enter.None? ==> s.enter == Many([])
    ensures d.Partial? && d.exit.None? ==> s.exit == Many([])
    ensures d.Partial? && d.on.None? ==> s.on == Table(map[])
  {
    match d
    case Short(n) => State(n, Many([]), Many([]), Table(map[]))
    case Partial(n, enter, exit, on) =>
      State(n,
            if enter.Some? then enter.value else Many([]),
            if exit.Some? then exit.value else Many([]),
            if on.Some? then on.value else Table(map[]))
  }

  /** A descriptor seen again as a declaration with every property present. */
  function Spread(s: State): Decl
  {
    Partial(s.name, Some(s.enter), Some(s.exit), Some(s.on))
  }

  /** A bare name is normalised exactly like an object with only that name. */
  lemma CreateStateShorthand(n: string)
    ensures CreateState(Short(n)) == CreateState(Partial(n, None, None, None))
  {
  }

  /** Normalising a normalised descriptor changes nothing. */
  lemma CreateStateIdempotent(d: Decl)
    ensures CreateState(Spread(CreateState(d))) == CreateState(d)
  {
  }

  /** The callbacks an array slot invokes, in array order: its non-empty entries. */
  function Present(items: seq<Option<ActionId>>): (ids: seq<ActionId>)
    ensures |ids| <= |items|
    ensures forall a :: a in ids <==> Some(a) in items
  {
    if items == [] then []
    else
      var init, last := items[..|items| - 1], items[|items| - 1];
      assert items == init + [last];
      Present(init) + (if last.Some? then [last.value] else [])
  }

  /** The callbacks a slot invokes, in order: none for `undefined`, the one
      callback, or the non-empty entries of the array. */
  function Invoked(acts: Actions): seq<ActionId>
  {
    match acts
    case Absent => []
    case One(a) => [a]
    case Many(items) => Present(items)
  }

  /** The invocations `runActions(acts, arg)` performs. */
  function Calls(role: Role, acts: Actions, arg: Snapshot): (evs: seq<Event>)
    ensures |evs| == |Invoked(acts)|
    ensures forall e :: e in evs ==> e.Call? && e.role == role && e.arg == arg
  {
    var ids := Invoked(acts);
    seq(|ids|, k requires 0 <= k < |ids| => Call(role, ids[k], arg))
  }

  /** `runActions`: walks a copy of the slot (`[].concat(actions)`), calling
      every entry that is present with the same snapshot. */
  method RunActions(role: Role, acts: Actions, arg: Snapshot) returns (fired: seq<Event>)
    ensures fired == Calls(role, acts, arg)
  {
    match acts {
      case Absent =>
        fired := [];
      case One(a) =>
        fired := [Call(role, a, arg)];
      case Many(items) =>
        fired := [];
        var i := 0;
        while i < |items|
          invariant 0 <= i <= |items|
          invariant fired == Calls(role, Many(items[..i]), arg)
        {
          CallsExtend(role, items, i, arg);
          if items[i].Some? {
            fired := fired + [Call(role, items[i].value, arg)];
          }
          i := i + 1;
        }
        assert items[..|items|] == items;
    }
  }

  /** One more array entry adds its own call, if it has one, at the end. */
  lemma CallsExtend(role: Role, items: seq<Option<ActionId>>, i: nat, arg: Snapshot)
    requires i < |items|
    ensures Calls(role, Many(items[..i + 1]), arg)
      == Calls(role, Many(items[..i]), arg) + (if items[i].Some? then [Call(role, items[i].value, arg)] else [])
  {
    assert items[..i + 1][..i] == items[..i];
    var before, after := Present(items[..i]), Present(items[..i + 1]);
    assert after == before + (if items[i].Some? then [items[i].value] else []);
    var lhs := Calls(role, Many(items[..i + 1]), arg);
    var rhs := Calls(role, Many(items[..i]), arg) + (if items[i].Some? then [Call(role, items[i].value, arg)] else []);
    assert |lhs| == |rhs|;
    forall k | 0 <= k < |lhs|
      ensures lhs[k] == rhs[k]
    {
      if k < |before| {
        assert lhs[k] == Call(role, after[k], arg);
      }
    }
  }

  /** Invoking a concatenation invokes the first part, then the second. */
  lemma {:induction false} PresentConcat(a: seq<Option<ActionId>>, b: seq<Option<ActionId>>)
    ensures Present(a + b) == Present(a) + Present(b)
  {
    if b == [] {
      assert a + b == a;
    } else {
      var init := b[..|b| - 1];
      assert (a + b)[..|a + b| - 1] == a + init;
      PresentConcat(a, init);
    }
  }

  /** An empty entry anywhere in an array is skipped: the others still run, in order. */
  lemma EmptyEntrySkipped(a: seq<Option<ActionId>>, b: seq<Option<ActionId>>)
    ensures Present(a + [None] + b) == Present(a + b)
  {
    PresentConcat(a + [None], b);
    PresentConcat(a, b);
  }

  /** An array without empty entries invokes every element, in array order. */
  lemma {:induction false} PresentHoleFree(items: seq<Option<ActionId>>)
    requires forall k :: 0 <= k < |items| ==> items[k].Some?
    ensures |Present(items)| == |items|
    ensures forall k :: 0 <= k < |items| ==> Present(items)[k] == items[k].value
  {
    if items != [] {
      PresentHoleFree(items[..|items| - 1]);
    }
  }
}
