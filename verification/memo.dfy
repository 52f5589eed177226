/** The run-time meaning of a rewritten method (src/lib.rs, the body built by
    `rewrite_cached_method`): each cache field is a `OnceCell` read through
    `get_or_init`, so the first call evaluates the original body and stores
    its value, and every later call returns the stored value.

    An object is its ordinary fields `S` together with the cells of its
    companion struct; a cell is present in `cells` once it holds a value.
    Method bodies are functions from the object to the outcome of a call,
    so a body may read or change fields and may call other cached methods. */
module Memo {
  import opened Base
  import opened Syntax
  import opened CachedMethod

  datatype Obj<S, V> = Obj(fields: S, cells: map<string, V>)

  /** The outcome of a call: a value and the object after the call, or the
      panic `OnceCell::get_or_init` raises when the body it runs filled the
      same cell first (re-entrant initialisation). */
  datatype Call<S, V> = Returned(value: V, after: Obj<S, V>) | Panicked

  /** A freshly built object: `__cache_fields__: Default::default()` leaves
      every cell empty. */
  function Fresh<S, V>(fields: S): Obj<S, V>
  {
    Obj(fields, map[])
  }

  /** `self.__cache_fields__.<slot>.get_or_init(|| init)`. */
  function GetOrInit<S, V>(o: Obj<S, V>, slot: string, init: Obj<S, V> -> Call<S, V>): (c: Call<S, V>)
    // a filled cell answers without running the body and changes nothing
    ensures slot in o.cells ==> c == Returned(o.cells[slot], o)
    // after any call that returns, the cell holds the returned value
    ensures c.Returned? ==> slot in c.after.cells && c.after.cells[slot] == c.value
    // an empty cell: the call returns exactly when the body does without filling the cell itself
    ensures slot !in o.cells ==>
              (c.Returned? <==> init(o).Returned? && slot !in init(o).after.cells)
    // ... and then it returns the body's value, keeps the body's effects,
    // and writes no cell other than its own
    ensures slot !in o.cells && c.Returned? ==>
              && c.value == init(o).value
              && c.after.fields == init(o).after.fields
              && c.after.cells.Keys == init(o).after.cells.Keys + {slot}
              && forall k :: k in init(o).after.cells ==> c.after.cells[k] == init(o).after.cells[k]
  {
    if slot in o.cells then Returned(o.cells[slot], o)
    else match init(o)
      case Panicked => Panicked
      case Returned(v, o') =>
        if slot in o'.cells then Panicked
        else Returned(v, o'.(cells := o'.cells[slot := v]))
  }

  /** Once a call has returned, calling again returns the same value and
      changes nothing, whatever body the second call carries. */
  lemma SecondCallReturnsStored<S, V>(
    o: Obj<S, V>, slot: string, init: Obj<S, V> -> Call<S, V>, again: Obj<S, V> -> Call<S, V>)
    requires GetOrInit(o, slot, init).Returned?
    ensures var c := GetOrInit(o, slot, init);
            GetOrInit(c.after, slot, again) == Returned(c.value, c.after)
  {
  }

  /** Changing the ordinary fields after a call does not change what later
      calls return. */
  lemma FieldMutationKeepsCachedValue<S, V>(
    o: Obj<S, V>, slot: string, init: Obj<S, V> -> Call<S, V>, mutated: S)
    requires GetOrInit(o, slot, init).Returned?
    ensures var c := GetOrInit(o, slot, init);
            var o' := c.after.(fields := mutated);
            GetOrInit(o', slot, init) == Returned(c.value, o')
  {
  }

  /** A cached body that calls another cached method and combines its value
      with the object's fields (`self.inner() + self.y`). */
  function CallsCached<S, V>(inner: string, innerInit: Obj<S, V> -> Call<S, V>, combine: (V, S) -> V): Obj<S, V> -> Call<S, V>
  {
    (o: Obj<S, V>) =>
      match GetOrInit(o, inner, innerInit)
      case Panicked => Panicked
      case Returned(v, o') => Returned(combine(v, o'.fields), o')
  }

  /** A first call of a method that calls another cached method fills both
      cells: the inner cell with the inner body's value, the outer cell
      with the combined value; afterwards the inner method, called on its
      own, answers from its own cell. */
  lemma {:induction false} NestedCallFillsBothCells<S, V>(
    o: Obj<S, V>, outer: string, inner: string,
    innerInit: Obj<S, V> -> Call<S, V>, combine: (V, S) -> V, again: Obj<S, V> -> Call<S, V>)
    requires outer != inner
    requires outer !in o.cells && inner !in o.cells
    requires innerInit(o).Returned?
    requires outer !in innerInit(o).after.cells && inner !in innerInit(o).after.cells
    ensures var c := GetOrInit(o, outer, CallsCached(inner, innerInit, combine));
            var first := innerInit(o);
            && c.Returned?
            && c.value == combine(first.value, first.after.fields)
            && c.after.cells[outer] == c.value
            && inner in c.after.cells && c.after.cells[inner] == first.value
            && GetOrInit(c.after, inner, again) == Returned(first.value, c.after)
  {
    var body := CallsCached(inner, innerInit, combine);
    var first := innerInit(o);
    var i := GetOrInit(o, inner, innerInit);
    assert i == Returned(first.value, first.after.(cells := first.after.cells[inner := first.value]));
    assert body(o) == Returned(combine(first.value, first.after.fields), i.after);
  }

  /** When the inner method was called before, the outer method uses the
      inner method's stored value and leaves the inner cell as it was. */
  lemma {:induction false} NestedCallUsesStoredInner<S, V>(
    o: Obj<S, V>, outer: string, inner: string,
    innerInit: Obj<S, V> -> Call<S, V>, combine: (V, S) -> V)
    requires outer != inner
    requires outer !in o.cells && inner in o.cells
    ensures var c := GetOrInit(o, outer, CallsCached(inner, innerInit, combine));
            && c.Returned?
            && c.value == combine(o.cells[inner], o.fields)
            && inner in c.after.cells && c.after.cells[inner] == o.cells[inner]
            && c.after.fields == o.fields
  {
    var body := CallsCached(inner, innerInit, combine);
    assert GetOrInit(o, inner, innerInit) == Returned(o.cells[inner], o);
    assert body(o) == Returned(combine(o.cells[inner], o.fields), o);
  }

  // ---------------------------------------------------------------------
  // Meaning of a method body built by the rewrite
  // ---------------------------------------------------------------------

  /** Run a body on an object. The author's own blocks are opaque; their
      behaviour is supplied by `meaning`. */
  function Run<S, V>(b: Block, o: Obj<S, V>, meaning: string -> (Obj<S, V> -> Call<S, V>)): Call<S, V>
  {
    match b
    case Source(text) => meaning(text)(o)
    case CacheGetOrInit(_, slot, init) =>
      GetOrInit(o, slot, (o': Obj<S, V>) => Run(init, o', meaning))
  }

  /** The body the rewrite gives a method memoizes the method's original
      body in the cell named after the method: the first call returns what
      the original body returns and stores it; every later call returns the
      stored value without running the body again. */
  lemma RewrittenBodyMemoizes<S, V>(f: FnDecl, o: Obj<S, V>, meaning: string -> (Obj<S, V> -> Call<S, V>))
    requires f.output.Some?
    requires f.name !in o.cells
    requires Run(f.body, o, meaning).Returned?
    requires f.name !in Run(f.body, o, meaning).after.cells
    ensures RewriteCachedMethod(FnItem(f)).Ok?
    ensures var g := RewriteCachedMethod(FnItem(f)).value.0.fn.body;
            var orig := Run(f.body, o, meaning);
            var c := Run(g, o, meaning);
            && c.Returned?
            && c.value == orig.value
            && c.after == orig.after.(cells := orig.after.cells[f.name := orig.value])
            && Run(g, c.after, meaning) == Returned(c.value, c.after)
  {
  }
}
