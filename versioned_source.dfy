/** The versioned two-slot cell of src/index.ts. A Provider owns a cell
    {v, p, s, l}: a version, a primary and a secondary value slot, and a
    listener set. Each committed Provider effect bumps the version, writes
    the one slot that the renderer's flag chooses and calls every listener;
    a snapshot reads the slot chosen by the same flag. The renderer's
    `_workInProgressVersionSecondary !== null` test is the boolean
    `secondary`; the listeners are the renderer's callbacks, opaque here. */
module VersionedSource {
  import opened Js
  import opened JsSet

  const MissingSourceMessage := "This useContext requires special context for selector support"
  /** Placeholder for the renderer's own error on an undefined source in
      production; its text is arbitrary here, and only the throw matters. */
  const UndefinedSourceMessage := "TypeError: source is undefined"
  /** Placeholder for the TypeError of destructuring a null or undefined
      context value; its text is arbitrary here, and only the throw matters. */
  const DestructureMessage := "TypeError: cannot destructure a nullish context value"

  /** The `current` object of a source's ref. */
  class Cell<V, L(==)> {
    var v: int
    var p: V
    var s: V
    var l: seq<L>

    ghost predicate Valid()
      reads this
    {
      Distinct(l)
    }

    /** The ref a Provider creates on mount. */
    constructor ForProvider(value: V)
      ensures v == 0 && p == value && s == value && l == []
      ensures Valid()
    {
      v, p, s, l := 0, value, value, [];
    }

    /** `createDefaultSource`: the source of a context with no Provider above. */
    constructor ForDefault(defaultValue: V)
      ensures v == -1 && p == defaultValue && s == defaultValue && l == []
      ensures Valid()
    {
      v, p, s, l := -1, defaultValue, defaultValue, [];
    }

    /** The slot the renderer reads and writes under the given flag. */
    function Slot(secondary: bool): (value: V)
      reads this
      ensures secondary ==> value == s
      ensures !secondary ==> value == p
    {
      if secondary then s else p
    }

    /** The Provider's layout effect: bump the version by one, write exactly
        the slot chosen by the flag, then call every listener in insertion
        order. `notified` is the sequence of listeners called. */
    method CommitProvider(value: V, secondary: bool) returns (notified: seq<L>)
      requires Valid()
      modifies this`v, this`p, this`s
      ensures v == old(v) + 1
      ensures Slot(secondary) == value
      ensures Slot(!secondary) == old(Slot(!secondary))
      ensures notified == l
    {
      v := v + 1;
      if secondary {
        s := value;
      } else {
        p := value;
      }
      notified := [];
      var i := 0;
      while i < |l|
        invariant 0 <= i <= |l|
        invariant notified == l[..i]
      {
        notified := notified + [l[i]];
        i := i + 1;
      }
    }

    /** `subscribe(ref, callback)`: adds the callback and hands back its
        remover. */
    method Subscribe(callback: L) returns (remover: Remover<L>)
      requires Valid()
      modifies this`l
      ensures Valid()
      ensures l == Add(old(l), callback)
      ensures remover.callback == callback
    {
      l := Add(l, callback);
      remover := Remover(callback);
    }

    /** Calling a remover: `listeners.delete(callback)`, which reports
        whether the callback was still there. */
    method Remove(remover: Remover<L>) returns (deleted: bool)
      requires Valid()
      modifies this`l
      ensures Valid()
      ensures deleted <==> remover.callback in old(l)
      ensures l == Delete(old(l), remover.callback)
    {
      deleted := remover.callback in l;
      l := Delete(l, remover.callback);
    }
  }

  /** The closure `subscribe` returns, bound to one callback. */
  datatype Remover<L> = Remover(callback: L)

  /** The object `{ [FUNCTION_SYMBOL]: fn }` a function-valued selection is
      boxed in; its identity is the object's. */
  class Wrapper<F> {
    const fn: F

    constructor (fn: F)
      ensures this.fn == fn
    {
      this.fn := fn;
    }
  }

  /** The `functionMap` memo from a function to its box. */
  class FunctionMap<F(==)> {
    var boxes: map<F, Wrapper<F>>

    ghost predicate Valid()
      reads this
    {
      forall f :: f in boxes ==> boxes[f].fn == f
    }

    constructor ()
      ensures boxes == map[] && Valid()
    {
      boxes := map[];
    }
  }

  /** What a selector returns: a plain value, or a function. */
  datatype Selected<D, F> = Data(data: D) | Function(fn: F)

  /** What `getSnapshot` hands to the renderer. */
  datatype Snapshot<D, F> = Plain(data: D) | Boxed(box: Wrapper<F>)

  /** The unboxing at the end of `useContext`. */
  function Unwrap<D, F>(snapshot: Snapshot<D, F>): (r: Selected<D, F>)
    ensures r.Function? <==> snapshot.Boxed?
    ensures snapshot.Boxed? ==> r.fn == snapshot.box.fn
    ensures snapshot.Plain? ==> r.data == snapshot.data
  {
    match snapshot
    case Plain(d) => Data(d)
    case Boxed(w) => Function(w.fn)
  }

  /** `getSnapshot`: select from the flag's slot; box a function in the
      memoized wrapper, so the same function always yields the same box. */
  method GetSnapshot<V, L(==), D, F(==)>(cell: Cell<V, L>, secondary: bool,
                                          selector: V -> Selected<D, F>, memo: FunctionMap<F>)
    returns (snapshot: Snapshot<D, F>)
    requires memo.Valid()
    modifies memo
    ensures memo.Valid()
    ensures Unwrap(snapshot) == selector(cell.Slot(secondary))
    ensures selector(cell.Slot(secondary)).Data? ==>
      snapshot == Plain(selector(cell.Slot(secondary)).data) && memo.boxes == old(memo.boxes)
    ensures selector(cell.Slot(secondary)).Function? ==>
      var f := selector(cell.Slot(secondary)).fn;
      && snapshot.Boxed?
      && memo.boxes == old(memo.boxes)[f := snapshot.box]
      && (f in old(memo.boxes) ==> snapshot.box == old(memo.boxes)[f])
      && (f !in old(memo.boxes) ==> fresh(snapshot.box))
  {
    var value := cell.Slot(secondary);
    var selected := selector(value);
    match selected
    case Data(d) =>
      snapshot := Plain(d);
    case Function(f) =>
      if f in memo.boxes {
        snapshot := Boxed(memo.boxes[f]);
        assert memo.boxes == memo.boxes[f := snapshot.box];
      } else {
        var wrapped := new Wrapper(f);
        memo.boxes := memo.boxes[f := wrapped];
        snapshot := Boxed(wrapped);
      }
  }

  /** What `useContextOrig(context)` hands the hook: `null` or `undefined`
      (a foreign context with no value), an object without a source (any
      other foreign context value), or a Provider's value carrying its
      source. */
  datatype ContextValue<V, L> = Nullish | NoSource | Source(cell: Cell<V, L>)

  /** `useContext(context, selector)`. Destructuring a nullish context value
      throws a TypeError in every mode. The missing-source guard only runs
      outside production; in production the renderer fails on the undefined
      source. A function selection comes back unboxed: the hook returns
      exactly what the selector returned for the flag's slot. */
  method UseContext<V, L(==), D, F(==)>(context: ContextValue<V, L>, production: bool, secondary: bool,
                                         selector: V -> Selected<D, F>, memo: FunctionMap<F>)
    returns (r: Outcome<Selected<D, F>>)
    requires memo.Valid()
    modifies memo
    ensures memo.Valid()
    ensures !context.Source? ==> memo.boxes == old(memo.boxes)
    ensures context.Nullish? ==> r == Threw(DestructureMessage)
    ensures context.NoSource? && !production ==> r == Threw(MissingSourceMessage)
    ensures context.NoSource? && production ==> r.Threw?
    ensures context.Source? ==> r == Returned(selector(context.cell.Slot(secondary)))
  {
    match context
    case Nullish =>
      return Threw(DestructureMessage);
    case NoSource =>
      if !production {
        return Threw(MissingSourceMessage);
      }
      return Threw(UndefinedSourceMessage);
    case Source(cell) =>
      var snapshot := GetSnapshot(cell, secondary, selector, memo);
      r := Returned(Unwrap(snapshot));
  }
}
