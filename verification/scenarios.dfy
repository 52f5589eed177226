/** The two macros used together, as the repository's UI tests use them:
    `#[impl_cached_method]` on an impl block, then `#[add_cache_field]` on
    the struct, with the registry threaded from one to the other. */
module Scenarios {
  import opened Base
  import opened Syntax
  import opened Storage
  import opened CachedMethod
  import opened CacheField
  import opened Memo

  /** The impl block and the struct of one type, both annotated, in that
      order: both expansions succeed, the companion holds one cache field
      per method in method order followed by the phantom fields, and the
      registry ends as it began. */
  lemma ImplThenStruct(reg: Registry, impl: ImplDecl, decl: StructDecl)
    requires impl.traitRef.None?
    requires impl.selfTy.PathTy? && KeyOf(impl.selfTy.path) == decl.name
    requires forall i :: 0 <= i < |impl.items| ==> !NeedsReturnType(impl.items[i])
    requires decl.name !in reg && IsIdent(decl.name)
    requires decl.fields.NamedFields?
    requires SignatureOf(decl.generics) == SignatureOf(impl.generics)
    ensures var s1 := ImplCachedMethod([], ImplItemDecl(impl), reg);
            var s2 := AddCacheField([], StructItemDecl(decl), s1.registry);
            && s1.result.Ok?
            && s2.result.Ok?
            && s2.registry == reg
            && s2.result.value.companion.fields.named ==
                 CacheFieldsOf(impl.items) + PhantomFields(TypeParamsOnly(decl.generics.params))
  {
    CompanionNameIsIdent(decl.name);
  }

  /** A method without a return type makes the whole block fail and
      registers nothing, so the struct's expansion then finds nothing to
      withdraw. */
  lemma MissingReturnTypeRegistersNothing(reg: Registry, impl: ImplDecl, decl: StructDecl, k: nat)
    requires impl.traitRef.None?
    requires k < |impl.items| && NeedsReturnType(impl.items[k])
    requires decl.name !in reg && IsIdent(decl.name) && decl.fields.NamedFields?
    ensures var s1 := ImplCachedMethod([], ImplItemDecl(impl), reg);
            && s1 == Step(reg, s1.result)
            && s1.result.Err? && s1.result.error.MissingReturnType?
            && AddCacheField([], StructItemDecl(decl), s1.registry) == Step(reg, Err(CacheFieldsNotDefined(decl.name)))
  {
    CompanionNameIsIdent(decl.name);
  }

  /** Generics that differ between the impl block and the struct make the
      struct's expansion fail, and the registration is consumed: a second
      attempt reports that nothing is registered. */
  lemma MismatchConsumesRegistration(reg: Registry, impl: ImplDecl, decl: StructDecl)
    requires impl.traitRef.None?
    requires impl.selfTy.PathTy? && KeyOf(impl.selfTy.path) == decl.name
    requires forall i :: 0 <= i < |impl.items| ==> !NeedsReturnType(impl.items[i])
    requires decl.name !in reg && IsIdent(decl.name)
    requires decl.fields.NamedFields?
    requires SignatureOf(decl.generics) != SignatureOf(impl.generics)
    ensures var s1 := ImplCachedMethod([], ImplItemDecl(impl), reg);
            var s2 := AddCacheField([], StructItemDecl(decl), s1.registry);
            && s2.result == Err(GenericsDiffer(SignatureOf(impl.generics), SignatureOf(decl.generics)))
            && s2.registry == reg
            && AddCacheField([], StructItemDecl(decl), s2.registry).result == Err(CacheFieldsNotDefined(decl.name))
  {
    CompanionNameIsIdent(decl.name);
  }

  // ---------------------------------------------------------------------
  // The UI tests, one lemma each
  // ---------------------------------------------------------------------

  /** `Hoge` is a plain identifier, and so is its companion name. */
  lemma HogeIsIdent()
    ensures IsIdent("Hoge") && IsIdent(CompanionName("Hoge"))
  {
    assert forall i :: 0 <= i < |"Hoge"| ==> IsIdentChar("Hoge"[i]);
    CompanionNameIsIdent("Hoge");
  }

  const WhereToStringFrom: string := "where T : ToString + From < String > ,"

  function TwoTimesX(ret: Ty): FnDecl
  {
    FnDecl("pub", "two_times_x", Some("& self"), "", Some(ret), Source("{ 2 * self . x }"))
  }

  /** `impl<T> Hoge<T> where T: ToString + From<String>` against
      `struct Hoge<T> where T: ToString`: the where-clauses differ. */
  lemma WhereClausesDiffer()
    ensures var impl := ImplDecl("", Generics([TypeParam("T", "")], Some(WhereToStringFrom)), None,
                                 PathTy(TypePath(false, [], Segment("Hoge", " < T >"))),
                                 [FnItem(TwoTimesX(Verbatim("T")))]);
            var decl := StructDecl([], "", "Hoge", Generics([TypeParam("T", "")], Some("where T : ToString ,")),
                                   NamedFields([Field("x", Verbatim("u64")), Field("t", Verbatim("T"))]));
            var s1 := ImplCachedMethod([], ImplItemDecl(impl), map[]);
            var s2 := AddCacheField([], StructItemDecl(decl), s1.registry);
            && s1.result.Ok?
            && s2.result.Err? && s2.result.error.GenericsDiffer?
            && s2.registry == map[]
  {
    var decl := StructDecl([], "", "Hoge", Generics([TypeParam("T", "")], Some("where T : ToString ,")),
                           NamedFields([Field("x", Verbatim("u64")), Field("t", Verbatim("T"))]));
    assert KeyOf(TypePath(false, [], Segment("Hoge", " < T >"))) == "Hoge";
    HogeIsIdent();
    assert WhereToStringFrom != "where T : ToString ," by {
      assert |WhereToStringFrom| != |"where T : ToString ,"|;
    }
  }

  /** `impl<T> Hoge<T> where T: ...` against `struct Hoge<S> where S: ...`:
      the block registers, the struct's expansion fails on the differing
      parameter lists and the entry is consumed. */
  lemma ParamsDiffer()
    ensures var impl := ImplDecl("", Generics([TypeParam("T", "")], Some(WhereToStringFrom)), None,
                                 PathTy(TypePath(false, [], Segment("Hoge", " < T >"))),
                                 [FnItem(TwoTimesX(Verbatim("T")))]);
            var decl := StructDecl([], "", "Hoge",
                                   Generics([TypeParam("S", "")], Some("where S : ToString + From < String > ,")),
                                   NamedFields([Field("x", Verbatim("u64")), Field("t", Verbatim("S"))]));
            var s1 := ImplCachedMethod([], ImplItemDecl(impl), map[]);
            var s2 := AddCacheField([], StructItemDecl(decl), s1.registry);
            && s1.result.Ok?
            && s2.result.Err? && s2.result.error.GenericsDiffer?
            && s2.registry == map[]
  {
    assert KeyOf(TypePath(false, [], Segment("Hoge", " < T >"))) == "Hoge";
    HogeIsIdent();
    SingleTypeParamSignature("T", "S", Some(WhereToStringFrom), Some("where S : ToString + From < String > ,"));
    assert "T" != "S" by {
      assert "T"[0] != "S"[0];
    }
  }

  /** `struct Hoge<'a, T, const N: usize>`: the companion takes `T` only,
      has one phantom field for it, and the struct refers to it as
      `__struct_cache_field__HogeCacheFields<T>`. */
  lemma LifetimeAndConstDropped()
    ensures var g := Generics([LifetimeParam("'a"), TypeParam("T", ""), ConstParam("const N : usize")],
                              Some(WhereToStringFrom));
            var impl := ImplDecl("", g, None, PathTy(TypePath(false, [], Segment("Hoge", " < 'a , T , N >"))),
                                 [FnItem(FnDecl("pub", "n_times_t", Some("& self"), "", Some(Verbatim("T")), Source("{ .. }")))]);
            var decl := StructDecl([], "", "Hoge", g,
                                   NamedFields([Field("x", Verbatim("u64")), Field("t", Verbatim("& 'a T"))]));
            var s1 := ImplCachedMethod([], ImplItemDecl(impl), map[]);
            var s2 := AddCacheField([], StructItemDecl(decl), s1.registry);
            && s2.result.Ok?
            && s2.result.value.companion.generics == Generics([TypeParam("T", "")], Some(WhereToStringFrom))
            && s2.result.value.companion.fields.named ==
                 [ Field("n_times_t", OnceCell(Verbatim("T"))),
                   Field(PhantomName(0), PhantomData(Verbatim("T"))) ]
            && s2.result.value.owner.fields.named[2] ==
                 Field(CacheFieldsName, Applied(CompanionName("Hoge"), ["T"]))
  {
    var g := Generics([LifetimeParam("'a"), TypeParam("T", ""), ConstParam("const N : usize")],
                      Some(WhereToStringFrom));
    var impl := ImplDecl("", g, None, PathTy(TypePath(false, [], Segment("Hoge", " < 'a , T , N >"))),
                         [FnItem(FnDecl("pub", "n_times_t", Some("& self"), "", Some(Verbatim("T")), Source("{ .. }")))]);
    var decl := StructDecl([], "", "Hoge", g,
                           NamedFields([Field("x", Verbatim("u64")), Field("t", Verbatim("& 'a T"))]));
    assert KeyOf(impl.selfTy.path) == "Hoge";
    HogeIsIdent();
    ImplThenStruct(map[], impl, decl);
    var kept := [TypeParam("T", "")];
    assert TypeParamsOnly(g.params) == kept;
    assert CacheFieldsOf(impl.items) == [Field("n_times_t", OnceCell(Verbatim("T")))];
    assert TypeArgs(kept) == ["T"];
    assert PhantomFields(kept) == [Field(PhantomName(0), PhantomData(Verbatim("T")))];
    assert BareTypeParams(kept) == [TypeParam("T", "")];
  }

  /** Two types named `Hoge` in two modules, each annotated pair expanded in
      turn: both succeed and the registry is empty again at the end. */
  lemma SameNameInTwoModules()
    ensures var g := Generics([], None);
            var path := TypePath(false, [], Segment("Hoge", ""));
            var impl1 := ImplDecl("", g, None, PathTy(path),
                                  [FnItem(TwoTimesX(Verbatim("u64")))]);
            var impl2 := ImplDecl("", g, None, PathTy(path),
                                  [FnItem(FnDecl("pub", "three_times_y", Some("& self"), "", Some(Verbatim("u64")), Source("{ 2 * self . y }")))]);
            var decl1 := StructDecl([], "pub", "Hoge", g, NamedFields([Field("x", Verbatim("u64"))]));
            var decl2 := StructDecl([], "pub", "Hoge", g, NamedFields([Field("y", Verbatim("u64"))]));
            var a1 := ImplCachedMethod([], ImplItemDecl(impl1), map[]);
            var a2 := AddCacheField([], StructItemDecl(decl1), a1.registry);
            var b1 := ImplCachedMethod([], ImplItemDecl(impl2), a2.registry);
            var b2 := AddCacheField([], StructItemDecl(decl2), b1.registry);
            && a2.result.Ok? && b2.result.Ok?
            && b2.result.value.companion.fields.named == [Field("three_times_y", OnceCell(Verbatim("u64")))]
            && b2.registry == map[]
  {
    var g := Generics([], None);
    var path := TypePath(false, [], Segment("Hoge", ""));
    var impl1 := ImplDecl("", g, None, PathTy(path), [FnItem(TwoTimesX(Verbatim("u64")))]);
    var impl2 := ImplDecl("", g, None, PathTy(path),
                          [FnItem(FnDecl("pub", "three_times_y", Some("& self"), "", Some(Verbatim("u64")), Source("{ 2 * self . y }")))]);
    var decl1 := StructDecl([], "pub", "Hoge", g, NamedFields([Field("x", Verbatim("u64"))]));
    var decl2 := StructDecl([], "pub", "Hoge", g, NamedFields([Field("y", Verbatim("u64"))]));
    assert KeyOf(path) == "Hoge";
    HogeIsIdent();
    ImplThenStruct(map[], impl1, decl1);
    ImplThenStruct(map[], impl2, decl2);
    assert TypeParamsOnly(g.params) == [];
    assert CacheFieldsOf(impl2.items) == [Field("three_times_y", OnceCell(Verbatim("u64")))];
  }

  /** `impl r#match` then `struct r#match`: the block registers under the
      key `r#match`, but the struct's companion name
      `__struct_cache_field__r#matchCacheFields` is not an identifier, so
      the expansion panics before the withdrawal and the entry stays. */
  lemma RawIdentStructPanics()
    ensures var g := Generics([], None);
            var impl := ImplDecl("", g, None, PathTy(TypePath(false, [], Segment("r#match", ""))),
                                 [FnItem(TwoTimesX(Verbatim("u64")))]);
            var decl := StructDecl([], "", "r#match", g, NamedFields([Field("x", Verbatim("u64"))]));
            var s1 := ImplCachedMethod([], ImplItemDecl(impl), map[]);
            var s2 := AddCacheField([], StructItemDecl(decl), s1.registry);
            && s1.result.Ok? && "r#match" in s1.registry
            && s2 == Step(s1.registry, Err(InvalidIdent(CompanionName("r#match"))))
  {
    assert KeyOf(TypePath(false, [], Segment("r#match", ""))) == "r#match";
    assert !IsIdentChar("r#match"[1]);
    CompanionNameIsIdent("r#match");
  }

  /** `impl Größe` then `struct Größe`: a non-ASCII name is an
      identifier, its companion name is one too, and both expansions
      succeed. */
  lemma NonAsciiStructName()
    ensures var g := Generics([], None);
            var impl := ImplDecl("", g, None, PathTy(TypePath(false, [], Segment("Gr\U{00F6}\U{00DF}e", ""))),
                                 [FnItem(TwoTimesX(Verbatim("u64")))]);
            var decl := StructDecl([], "", "Gr\U{00F6}\U{00DF}e", g, NamedFields([Field("x", Verbatim("u64"))]));
            var s1 := ImplCachedMethod([], ImplItemDecl(impl), map[]);
            var s2 := AddCacheField([], StructItemDecl(decl), s1.registry);
            && s1.result.Ok? && s2.result.Ok?
            && s2.result.value.companion.name == CompanionName("Gr\U{00F6}\U{00DF}e")
            && s2.registry == map[]
  {
    var name := "Gr\U{00F6}\U{00DF}e";
    var g := Generics([], None);
    var impl := ImplDecl("", g, None, PathTy(TypePath(false, [], Segment(name, ""))),
                         [FnItem(TwoTimesX(Verbatim("u64")))]);
    var decl := StructDecl([], "", name, g, NamedFields([Field("x", Verbatim("u64"))]));
    assert forall i :: 0 <= i < |name| ==> IsIdentChar(name[i]);
    assert KeyOf(impl.selfTy.path) == name;
    ImplThenStruct(map[], impl, decl);
  }

  // ---------------------------------------------------------------------
  // Run-time behaviour of the generated methods
  // ---------------------------------------------------------------------

  /** `fn two_times_x(&self) -> u64 { 2 * self.x }` on `x: u64`. */
  function TwoTimesXBody(o: Obj<int, int>): Call<int, int>
  {
    Returned(2 * o.fields, o)
  }

  /** `fn x_plus_1(&mut self) -> u64 { self.x = self.x + 1; self.x }`. */
  function XPlusOneBody(o: Obj<int, int>): Call<int, int>
  {
    Returned(o.fields + 1, o.(fields := o.fields + 1))
  }

  /** `x = 1`: the first call returns 2, a second call 2, and after
      `x = 2` still 2. */
  lemma CachedAfterMutation()
    ensures var c1 := GetOrInit(Fresh(1), "two_times_x", TwoTimesXBody);
            var c2 := GetOrInit(c1.after, "two_times_x", TwoTimesXBody);
            var c3 := GetOrInit(c2.after.(fields := 2), "two_times_x", TwoTimesXBody);
            c1.Returned? && c1.value == 2 && c2.value == 2 && c3.Returned? && c3.value == 2
  {
  }

  /** A body that changes a field runs once: from `x = 2` the first call
      sets `x` to 3 and returns 3, a second call returns 3 without
      touching `x`, and after `x = 3` the call still returns 3. */
  lemma MutatingBodyRunsOnce()
    ensures var o := Obj(2, map["two_times_x" := 2]);
            var c1 := GetOrInit(o, "x_plus_1", XPlusOneBody);
            var c2 := GetOrInit(c1.after, "x_plus_1", XPlusOneBody);
            var c3 := GetOrInit(c2.after.(fields := 3), "x_plus_1", XPlusOneBody);
            && c1.Returned? && c1.value == 3 && c1.after.fields == 3
            && c2.Returned? && c2.value == 3 && c2.after.fields == 3
            && c3.Returned? && c3.value == 3
  {
  }

  /** Fields `(x, y)`; `two_times_x_plus_y` calls `two_times_x` and adds
      `y`. From `(1, 10)` it returns 12 twice, and 12 again after the
      fields become `(2, 20)`; `two_times_x` then answers 2 from its own
      cell. */
  lemma RecursiveCall()
    ensures var inner := (o: Obj<(int, int), int>) => Returned(2 * o.fields.0, o);
            var outer := CallsCached("two_times_x", inner, (v: int, f: (int, int)) => v + f.1);
            var c1 := GetOrInit(Fresh((1, 10)), "two_times_x_plus_y", outer);
            && c1.Returned? && c1.value == 12
            && var c2 := GetOrInit(c1.after, "two_times_x_plus_y", outer);
               && c2.Returned? && c2.value == 12
               && var c3 := GetOrInit(c2.after.(fields := (2, 20)), "two_times_x_plus_y", outer);
                  && c3.Returned? && c3.value == 12
                  && var d := GetOrInit(c3.after, "two_times_x", inner);
                     d.Returned? && d.value == 2
  {
    var inner := (o: Obj<(int, int), int>) => Returned(2 * o.fields.0, o);
    var outer := CallsCached("two_times_x", inner, (v: int, f: (int, int)) => v + f.1);
    NestedCallFillsBothCells(Fresh((1, 10)), "two_times_x_plus_y", "two_times_x", inner,
                             (v: int, f: (int, int)) => v + f.1, inner);
  }
}
