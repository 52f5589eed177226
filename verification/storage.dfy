/** The compile-time registry (src/storage.rs): a map from a type-name key to
    the generics text, where-clause text and cache fields that
    `impl_cached_method` registered and `add_cache_field` withdraws.

    The process-wide `Mutex<HashMap>` becomes a value threaded through the
    calls: every operation takes the registry and returns the next one
    together with its result. */
module Storage {
  import opened Base
  import opened Syntax

  /** What one method block registered: the rendered generics, the rendered
      where-clause, and the cache fields in method order. */
  datatype Entry = Entry(generics: string, whereClause: Option<string>, cacheFields: seq<Field>)

  type Registry = map<string, Entry>

  /** The registry after an operation, together with its outcome. */
  datatype Step<+T> = Step(registry: Registry, result: Result<T>)

  function SegmentText(s: Segment): string
  {
    s.name + s.args
  }

  /** The segments before the last one, each followed by `::`. */
  function PrefixText(segs: seq<Segment>): string
  {
    if |segs| == 0 then "" else SegmentText(segs[0]) + " :: " + PrefixText(segs[1..])
  }

  /** The registry key of an impl's self type: the path as the token printer
      renders it, with the last segment's generic arguments dropped, so
      `Hoge<T>` and `Hoge` share the key `Hoge`. */
  function KeyOf(p: TypePath): (key: string)
    ensures |p.last.name| <= |key|
    ensures !p.leadingColon && p.init == [] ==> key == p.last.name
  {
    (if p.leadingColon then ":: " else "") + PrefixText(p.init) + p.last.name
  }

  function EntrySignature(e: Entry): Signature
  {
    Signature(e.generics, e.whereClause)
  }

  /** `register_cache_fields`: insert only when the key is absent. On any
      error the registry is returned as it was. */
  function Register(reg: Registry, selfTy: SelfTy, generics: Generics, cacheFields: seq<Field>): (s: Step<()>)
    ensures s.result.Err? ==> s.registry == reg
    ensures !selfTy.PathTy? ==> s.result == Err(ExpectedTypePath)
    ensures selfTy.PathTy? && KeyOf(selfTy.path) in reg ==>
              s.result == Err(AlreadyRegistered(KeyOf(selfTy.path)))
    ensures s.result.Ok? <==> selfTy.PathTy? && KeyOf(selfTy.path) !in reg
    ensures s.result.Ok? ==>
              var key := KeyOf(selfTy.path);
              && s.registry.Keys == reg.Keys + {key}
              && s.registry[key] == Entry(GenericsText(generics), generics.whereClause, cacheFields)
              && EntrySignature(s.registry[key]) == SignatureOf(generics)
              && forall k :: k in reg ==> s.registry[k] == reg[k]
  {
    match selfTy
    case OtherTy(_) => Step(reg, Err(ExpectedTypePath))
    case PathTy(p) =>
      var key := KeyOf(p);
      var value := Entry(GenericsText(generics), generics.whereClause, cacheFields);
      if key in reg then Step(reg, Err(AlreadyRegistered(key)))
      else Step(reg[key := value], Ok(()))
  }

  /** `withdraw_cache_fields`: remove the entry for the struct's name, then
      compare the generics and where-clause text. The entry is gone even
      when the comparison fails. */
  function Withdraw(reg: Registry, ident: string, generics: Generics): (s: Step<seq<Field>>)
    ensures ident !in reg ==> s == Step(reg, Err(CacheFieldsNotDefined(ident)))
    ensures ident in reg ==>
              && s.registry.Keys == reg.Keys - {ident}
              && forall k :: k in s.registry ==> s.registry[k] == reg[k]
    ensures s.result.Ok? <==> ident in reg && EntrySignature(reg[ident]) == SignatureOf(generics)
    ensures s.result.Ok? ==> s.result.value == reg[ident].cacheFields
    ensures ident in reg && EntrySignature(reg[ident]) != SignatureOf(generics) ==>
              s.result == Err(GenericsDiffer(EntrySignature(reg[ident]), SignatureOf(generics)))
  {
    if ident !in reg then Step(reg, Err(CacheFieldsNotDefined(ident)))
    else
      var value := reg[ident];
      var rest := reg - {ident};
      if !(GenericsText(generics) == value.generics && generics.whereClause == value.whereClause) then
        Step(rest, Err(GenericsDiffer(EntrySignature(value), SignatureOf(generics))))
      else
        Step(rest, Ok(value.cacheFields))
  }

  // ---------------------------------------------------------------------
  // Keys
  // ---------------------------------------------------------------------

  /** Only the last segment's name enters the key, not its generic
      arguments: `Hoge<T>`, `Hoge<u64>` and `Hoge` are one key. */
  lemma KeyIgnoresLastArgs(p: TypePath, args: string)
    ensures KeyOf(p.(last := p.last.(args := args))) == KeyOf(p)
  {
  }

  /** A non-empty prefix always contains the blank of its ` :: ` separator. */
  lemma PrefixTextHasBlank(segs: seq<Segment>)
    requires |segs| > 0
    ensures ' ' in PrefixText(segs)
  {
  }

  /** The key of an impl's self type equals a struct's identifier exactly
      when the self type is that bare name, with any generic arguments:
      `impl Hoge<T>` pairs with `struct Hoge`, but `impl self::Hoge` or
      `impl ::m::Hoge` never does. */
  lemma KeyMatchesIdent(p: TypePath, ident: string)
    requires IsIdent(ident)
    ensures KeyOf(p) == ident <==> !p.leadingColon && p.init == [] && p.last.name == ident
  {
    var key := KeyOf(p);
    if p.leadingColon {
      assert key[0] == ':';
      assert !IsIdent(key);
    } else if p.init != [] {
      PrefixTextHasBlank(p.init);
      var pre := PrefixText(p.init);
      var j :| 0 <= j < |pre| && pre[j] == ' ';
      assert key == pre + p.last.name;
      assert key[j] == ' ';
      assert !IsIdent(key);
    } else {
      assert key == p.last.name;
    }
  }

  // ---------------------------------------------------------------------
  // Register / withdraw interplay
  // ---------------------------------------------------------------------

  /** Registering under a key already present fails and leaves the map as
      it was, so two method blocks for one type cannot both register. */
  lemma RegisterTwiceFails(reg: Registry, p: TypePath, g1: Generics, f1: seq<Field>, g2: Generics, f2: seq<Field>)
    requires Register(reg, PathTy(p), g1, f1).result.Ok?
    ensures var r1 := Register(reg, PathTy(p), g1, f1).registry;
            Register(r1, PathTy(p), g2, f2) == Step(r1, Err(AlreadyRegistered(KeyOf(p))))
  {
  }

  /** Round trip: withdrawing what was just registered, with the same
      generics, returns the cache fields in the registered order and
      gives back the registry as it was before the registration. */
  lemma RegisterThenWithdraw(reg: Registry, p: TypePath, g: Generics, fields: seq<Field>)
    requires KeyOf(p) !in reg
    ensures var r1 := Register(reg, PathTy(p), g, fields).registry;
            Withdraw(r1, KeyOf(p), g) == Step(reg, Ok(fields))
  {
  }

  /** Whatever the first withdrawal returned (fields or a generics
      mismatch), a second one for the same name fails as missing. */
  lemma WithdrawTwiceFails(reg: Registry, ident: string, g1: Generics, g2: Generics)
    ensures var r1 := Withdraw(reg, ident, g1).registry;
            Withdraw(r1, ident, g2) == Step(r1, Err(CacheFieldsNotDefined(ident)))
  {
  }

  /** A withdrawal that fails on mismatched generics still consumes the
      entry. */
  lemma WithdrawConsumesOnMismatch(reg: Registry, ident: string, g: Generics)
    requires ident in reg && EntrySignature(reg[ident]) != SignatureOf(g)
    ensures Withdraw(reg, ident, g).result.Err?
    ensures ident !in Withdraw(reg, ident, g).registry
  {
  }

  /** After a successful register/withdraw pair the same name can be
      registered again, as two same-named types in different modules are
      when each pair is processed in turn. */
  lemma ReRegisterAfterWithdraw(
    reg: Registry, p: TypePath, g1: Generics, f1: seq<Field>, g2: Generics, f2: seq<Field>)
    requires KeyOf(p) !in reg
    ensures var r1 := Register(reg, PathTy(p), g1, f1).registry;
            var r2 := Withdraw(r1, KeyOf(p), g1).registry;
            Register(r2, PathTy(p), g2, f2).result.Ok?
  {
  }
}
