/** `#[impl_cached_method]` (src/lib.rs, `impl_cached_method_aux` and
    `rewrite_cached_method`): rewrite every method of an inherent impl block
    into a memoized one and register the cache fields the block needs. */
module CachedMethod {
  import opened Base
  import opened Syntax
  import opened Storage

  /** The cache field a method with return type `t` needs:
      `name: ::core::cell::OnceCell<t>`. */
  function CacheField(name: string, t: Ty): Field
  {
    Field(name, OnceCell(t))
  }

  /** `rewrite_cached_method` on one impl item. A method with `-> T` becomes
      a method returning `&T` whose body reads (or fills) its own slot; any
      other item passes through with no cache field. */
  function RewriteCachedMethod(item: ImplItem): (r: Result<(ImplItem, Option<Field>)>)
    ensures item.OtherItem? ==> r == Ok((item, None))
    ensures item.FnItem? && item.fn.output.None? ==> r == Err(MissingReturnType(item.fn.name))
    ensures r.Ok? <==> !(item.FnItem? && item.fn.output.None?)
    ensures item.FnItem? && r.Ok? ==>
              var f := item.fn;
              var (out, slot) := r.value;
              && out.FnItem?
              && out.fn.head == f.head && out.fn.name == f.name
              && out.fn.receiver == f.receiver && out.fn.inputs == f.inputs
              && out.fn.output == Some(Ref(f.output.value))
              && out.fn.body.CacheGetOrInit?
              && out.fn.body.holder == CacheFieldsName
              && out.fn.body.slot == f.name
              && out.fn.body.init == f.body
              && slot == Some(CacheField(f.name, f.output.value))
  {
    match item
    case OtherItem(_) => Ok((item, None))
    case FnItem(f) =>
      match f.output
      case None => Err(MissingReturnType(f.name))
      case Some(t) =>
        var newFn := f.(body := CacheGetOrInit(CacheFieldsName, f.name, f.body), output := Some(Ref(t)));
        Ok((FnItem(newFn), Some(CacheField(f.name, t))))
  }

  /** Undo the rewrite of one method: drop the reference from the return
      type and unwrap the body from its `get_or_init`. */
  function RestoreMethod(f: FnDecl): FnDecl
  {
    var output := match f.output
      case Some(Ref(t)) => Some(t)
      case other => other;
    var body := match f.body
      case CacheGetOrInit(_, _, init) => init
      case other => other;
    f.(output := output, body := body)
  }

  /** The rewrite loses nothing: restoring a rewritten method gives back
      the method that was written. */
  lemma RewriteIsInvertible(f: FnDecl)
    requires f.output.Some?
    ensures RewriteCachedMethod(FnItem(f)).Ok?
    ensures RestoreMethod(RewriteCachedMethod(FnItem(f)).value.0.fn) == f
  {
  }

  /** A method without `-> T`, which the rewrite rejects. */
  predicate NeedsReturnType(item: ImplItem)
  {
    item.FnItem? && item.fn.output.None?
  }

  /** The cache fields a block of items calls for, independently of the
      rewrite: one per method, in item order. */
  function CacheFieldsOf(items: seq<ImplItem>): seq<Field>
    requires forall i :: 0 <= i < |items| ==> !NeedsReturnType(items[i])
  {
    if |items| == 0 then []
    else
      var rest := CacheFieldsOf(items[1..]);
      match items[0]
      case FnItem(f) =>
        assert !NeedsReturnType(items[0]);
        [CacheField(f.name, f.output.value)] + rest
      case OtherItem(_) => rest
  }

  /** The number of `fn` items in a block. */
  function CountFns(items: seq<ImplItem>): nat
  {
    if |items| == 0 then 0 else (if items[0].FnItem? then 1 else 0) + CountFns(items[1..])
  }

  /** One cache field per method, named after it, in method order. */
  lemma {:induction false} CacheFieldsOfMatchesMethods(items: seq<ImplItem>)
    requires forall i :: 0 <= i < |items| ==> !NeedsReturnType(items[i])
    ensures |CacheFieldsOf(items)| == CountFns(items)
    ensures forall n :: n in CacheFieldsOf(items) <==>
              exists i :: 0 <= i < |items| && items[i].FnItem?
                          && n == CacheField(items[i].fn.name, items[i].fn.output.value)
  {
    if |items| > 0 {
      CacheFieldsOfMatchesMethods(items[1..]);
      forall n | n in CacheFieldsOf(items)
        ensures exists i :: 0 <= i < |items| && items[i].FnItem?
                  && n == CacheField(items[i].fn.name, items[i].fn.output.value)
      {
        if items[0].FnItem? && n == CacheField(items[0].fn.name, items[0].fn.output.value) {
        } else {
          var i :| 0 <= i < |items[1..]| && items[1..][i].FnItem?
                   && n == CacheField(items[1..][i].fn.name, items[1..][i].fn.output.value);
          assert items[i + 1] == items[1..][i];
        }
      }
      forall i | 0 <= i < |items| && items[i].FnItem?
        ensures CacheField(items[i].fn.name, items[i].fn.output.value) in CacheFieldsOf(items)
      {
        if i > 0 {
          assert items[1..][i - 1] == items[i];
        }
      }
    }
  }

  /** Index of the first method without a return type. */
  predicate IsFirstMissing(items: seq<ImplItem>, k: int)
  {
    && 0 <= k < |items|
    && NeedsReturnType(items[k])
    && forall j :: 0 <= j < k ==> !NeedsReturnType(items[j])
  }

  /** Rewrite every item of a block, all or nothing: the first method
      without a return type aborts the whole block. On success each item
      is rewritten in place and the cache fields are those of the methods,
      in item order. */
  function RewriteItems(items: seq<ImplItem>): (r: Result<(seq<ImplItem>, seq<Field>)>)
    ensures r.Ok? <==> forall i :: 0 <= i < |items| ==> !NeedsReturnType(items[i])
    ensures r.Err? ==>
              exists k :: IsFirstMissing(items, k) && r.error == MissingReturnType(items[k].fn.name)
    ensures r.Ok? ==>
              && |r.value.0| == |items|
              && (forall i :: 0 <= i < |items| ==>
                    r.value.0[i] == RewriteCachedMethod(items[i]).value.0)
              && r.value.1 == CacheFieldsOf(items)
  {
    if |items| == 0 then Ok(([], []))
    else
      match RewriteCachedMethod(items[0])
      case Err(e) => Err(e)
      case Ok((item, slot)) =>
        match RewriteItems(items[1..])
        case Err(e) =>
          assert forall j :: 0 <= j < |items[1..]| ==> items[1..][j] == items[j + 1];
          Err(e)
        case Ok((rest, fields)) =>
          var own := match slot case Some(f) => [f] case None => [];
          Ok(([item] + rest, own + fields))
  }

  /** `impl_cached_method_aux`: check the attribute and the item, rewrite
      every method, then register the block's cache fields under the self
      type's key. The registry changes only when everything succeeded. */
  function ImplCachedMethod(args: seq<string>, item: Item, reg: Registry): (s: Step<Item>)
    ensures s.result.Err? ==> s.registry == reg
    ensures args != [] ==> s.result == Err(UnexpectedArguments)
    ensures args == [] && !item.ImplItemDecl? ==> s.result == Err(ExpectedImpl)
    ensures args == [] && item.ImplItemDecl? && item.impl.traitRef.Some? ==> s.result == Err(TraitImpl)
    ensures args == [] && item.ImplItemDecl? && item.impl.traitRef.None?
            && (exists i :: 0 <= i < |item.impl.items| && NeedsReturnType(item.impl.items[i])) ==>
              s.result.Err? && s.result.error.MissingReturnType?
    // the error names the first method without a return type
    ensures args == [] && item.ImplItemDecl? && item.impl.traitRef.None? ==>
              forall k :: IsFirstMissing(item.impl.items, k) ==>
                s.result == Err(MissingReturnType(item.impl.items[k].fn.name))
    // with every method rewritten, the registration's own errors are reported
    ensures args == [] && item.ImplItemDecl? && item.impl.traitRef.None?
            && (forall i :: 0 <= i < |item.impl.items| ==> !NeedsReturnType(item.impl.items[i])) ==>
              && (!item.impl.selfTy.PathTy? ==> s.result == Err(ExpectedTypePath))
              && (item.impl.selfTy.PathTy? && KeyOf(item.impl.selfTy.path) in reg ==>
                    s.result == Err(AlreadyRegistered(KeyOf(item.impl.selfTy.path))))
    ensures args == [] && item.ImplItemDecl? && item.impl.traitRef.None?
            && (forall i :: 0 <= i < |item.impl.items| ==> !NeedsReturnType(item.impl.items[i]))
            && item.impl.selfTy.PathTy? && KeyOf(item.impl.selfTy.path) !in reg ==>
              s.result.Ok?
    ensures s.result.Ok? ==>
              && args == [] && item.ImplItemDecl? && item.impl.traitRef.None?
              && item.impl.selfTy.PathTy?
              && (forall i :: 0 <= i < |item.impl.items| ==> !NeedsReturnType(item.impl.items[i]))
              && var impl := item.impl;
                 var key := KeyOf(impl.selfTy.path);
                 && key !in reg
                 && s.registry == reg[key := Entry(GenericsText(impl.generics), impl.generics.whereClause,
                                                   CacheFieldsOf(impl.items))]
                 && s.result.value.ImplItemDecl?
                 && var out := s.result.value.impl;
                    && out.attrs == impl.attrs && out.generics == impl.generics
                    && out.traitRef == impl.traitRef && out.selfTy == impl.selfTy
                    && |out.items| == |impl.items|
                    && forall i :: 0 <= i < |impl.items| ==>
                         out.items[i] == RewriteCachedMethod(impl.items[i]).value.0
  {
    if args != [] then Step(reg, Err(UnexpectedArguments))
    else match item
      case ImplItemDecl(impl) =>
        if impl.traitRef.Some? then Step(reg, Err(TraitImpl))
        else (
          match RewriteItems(impl.items)
          case Err(e) => Step(reg, Err(e))
          case Ok((items, fields)) =>
            var registered := Register(reg, impl.selfTy, impl.generics, fields);
            if registered.result.Err? then Step(reg, Err(registered.result.error))
            else Step(registered.registry, Ok(ImplItemDecl(impl.(items := items))))
        )
      case _ => Step(reg, Err(ExpectedImpl))
  }
}
