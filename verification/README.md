# cache_field in Dafny

A model of the two attribute macros of the `struct_cache_field` crate and of
the compile-time registry that links them.

- `#[impl_cached_method]` goes on an inherent impl block. It turns every method
  `fn m(..) -> T { body }` into `fn m(..) -> &T` whose body is
  `self.__cache_fields__.m.get_or_init(|| { body })`. For each method it emits a
  cache field `m: OnceCell<T>`. It then registers the generics text, the
  where-clause text and those cache fields under the self type's name.
- `#[add_cache_field]` goes on the struct definition. It withdraws that
  registration and checks the generics. It then defines the companion struct
  `__struct_cache_field__{Name}CacheFields`, holding the cache fields and one
  `PhantomData` field per type parameter. Finally it appends
  `__cache_fields__: Companion<T..>` to the struct's named fields.
- At run time each cache field is a once-cell. The first call of a rewritten
  method runs the body and stores its value. Every later call returns the stored
  value.

Modules, one per component:

| file | module | models |
|---|---|---|
| `base.dfy` | `Base` | `Option`, the error kinds, `Result` |
| `syntax.dfy` | `Syntax` | the declaration shapes the macros read and build; the text rendering of generics; identifiers; decimal rendering |
| `storage.dfy` | `Storage` | `src/storage.rs`: key computation, `register_cache_fields`, `withdraw_cache_fields` |
| `cached_method.dfy` | `CachedMethod` | `rewrite_cached_method`, `impl_cached_method_aux` |
| `cache_field.dfy` | `CacheField` | `add_cache_field_aux`: parameter filtering, phantom fields, companion struct, field append |
| `memo.dfy` | `Memo` | the once-cell meaning of a rewritten method |
| `scenarios.dfy` | `Scenarios` | both macros used in sequence, and the UI tests as lemmas |

The process-wide `LazyLock<Mutex<HashMap>>` is a `map<string, Entry>`. It is
passed into every operation, and the operation returns the next map together
with its result (`Step`). This makes "the registry is unchanged on this error" a
property that can be stated. Token streams, types, bounds, where-clauses and
method bodies are opaque strings. The generics text is the parameters in
declaration order, each as its text, joined by ` , ` inside `< … >`, e.g.
`< 'a , T , const N : usize >`. The registry compares these texts, as the
source compares the printed token streams.

Behaviour of the code worth noting:

- `withdraw_cache_fields` removes the entry before it compares generics
  (src/storage.rs:71). A mismatch therefore consumes the registration as well.
- Lifetime and const parameters are dropped from the companion struct. They do
  not get marker fields; only type parameters get `_phantom{i}` fields
  (src/lib.rs:205-224).
- The registry key is the rendered type path, not a scope-qualified name. Two
  same-named types in different modules work only because each register/withdraw
  pair completes before the next one starts (tests/ui/pass_modules.rs). A self
  type written with a path prefix, such as `impl self::Hoge`, gets the key
  `self :: Hoge`, which can never match the struct's bare name
  (`Storage.KeyMatchesIdent`).
- The companion name is built with `Ident::new` before the withdrawal
  (src/lib.rs:193-200). A raw struct name such as `r#match` prints with its
  `r#`, so the name is not an identifier and the expansion panics. The entry
  the impl block registered then stays in the registry
  (`Scenarios.RawIdentStructPanics`).
- Nothing checks that cache-field names are unique. The model does not check
  this either.

## Model

| member | source | states |
|---|---|---|
| `Storage.Register` | src/storage.rs:22-63 | A self type that is not a path fails with the map unchanged. A key already present fails with the map unchanged. Otherwise the call succeeds and adds exactly `key ↦ {generics text, where text, fields}`, leaving every other key as it was. Success happens exactly when the type is a path and its key is absent. |
| `Storage.Withdraw` | src/storage.rs:65-111 | An absent name fails as not defined, with the map unchanged. A present name is always removed and nothing else changes. The call succeeds exactly when both the generics text and the where text equal the registered ones, and then it returns the registered fields. Otherwise it reports both signatures. |
| `Storage.KeyOf` | src/storage.rs:33-37 | The key is at least as long as the last segment's name, and a path that is a bare name, with no leading `::` and no prefix segments, has exactly that name as its key. |
| `Storage.KeyIgnoresLastArgs` | src/storage.rs:33-34 | Only the last segment's name enters the key, not its generic arguments, so `Hoge<T>`, `Hoge<u64>` and `Hoge` share one key. |
| `Syntax.GenericsText` | src/storage.rs:38 | The generics text is empty if and only if there are no parameters; otherwise it is bracketed by `< ` and ` >`. |
| `Syntax.SignatureOf` | src/storage.rs:38-42 | The compared signature keeps the where-clause text as it is, and its parameter text is empty if and only if there are no parameters. |
| `Syntax.SingleTypeParamSignature` | src/storage.rs:78-83 | Two one-type-parameter lists give equal signatures if and only if the parameter names and the where-clauses are equal. |
| `Storage.KeyMatchesIdent` | src/storage.rs:33-37 | The key drops the last segment's generic arguments, so `Hoge<T>` has key `Hoge`. For an identifier `id`, the key equals `id` if and only if the path is the bare name `id`: no leading `::` and no prefix segments. |
| `Storage.RegisterTwiceFails` | src/storage.rs:53-58 | A second registration under the same key fails with "already registered" and does not change the map. |
| `Storage.RegisterThenWithdraw` | src/storage.rs:43-110 | Register followed by withdraw with the same generics returns the fields in registered order, and the registry is exactly what it was before the registration. |
| `Storage.WithdrawTwiceFails` | src/storage.rs:70-76 | Whatever the first withdrawal returned, a second withdrawal for the same name fails as not defined. |
| `Storage.WithdrawConsumesOnMismatch` | src/storage.rs:70-98 | A withdrawal that fails on differing generics has still removed the entry. |
| `Storage.ReRegisterAfterWithdraw` | tests/ui/pass_modules.rs:1-27 | After a register/withdraw pair, the same key can be registered again. |
| `CachedMethod.RewriteCachedMethod` | src/lib.rs:133-159 | A non-`fn` item comes back unchanged with no cache field. A `fn` without a return type fails, naming the method. A `fn` returning `T` keeps its head, name, receiver and inputs, and now returns `&T`. Its body reads the cell named after the method in `__cache_fields__`, initialised from the original body. The cache field it emits is `name: OnceCell<T>`. |
| `CachedMethod.RewriteIsInvertible` | src/lib.rs:147-154 | Undoing the rewrite gives back the original method, so the rewrite loses nothing. |
| `CachedMethod.RewriteItems` | src/lib.rs:116-125 | The block is all or nothing. It fails if and only if some method lacks a return type, and the error names the first such method. On success the item count is preserved and each item is rewritten in place. The cache fields are exactly those of the methods, in item order. |
| `CachedMethod.CacheFieldsOfMatchesMethods` | src/lib.rs:116-125 | There are as many cache fields as `fn` items. A field is emitted if and only if some method with that name and return type exists. |
| `CachedMethod.ImplCachedMethod` | src/lib.rs:95-131 | Non-empty arguments, a non-impl item and a trait impl each fail with their own error. A method without a return type fails, and the error names the first such method. With every method rewritten, a self type that is not a path fails with its own error, and a key already registered fails as already registered, naming the key. Every failure leaves the registry unchanged. The call succeeds exactly when none of these apply and the self type's key is free. On success the key gets the block's generics, where text and method cache fields. The output impl keeps everything except its items, which are rewritten one for one. |
| `CacheField.AddCacheField` | src/lib.rs:174-248 | Non-empty arguments, a non-struct and unnamed fields fail before the withdrawal, with the registry unchanged. So does a struct name whose companion name is not an identifier, on which `Ident::new` panics. Otherwise the struct's name is withdrawn, and its errors and registry effect are passed on. On success the companion has the derived name and `derive(Default)`. Its generics are the type parameters by identifier only, without inline bounds or defaults, in their order, with the where-clause kept. Its fields are the withdrawn fields in order, then the phantom fields. The struct is unchanged except that `__cache_fields__: Companion<type args>` is appended after its original fields. |
| `CacheField.CompanionNameInjective` | src/lib.rs:193-199 | The companion name depends only on the struct name, and two struct names give the same companion name only if they are equal. |
| `CacheField.CompanionNameIsIdent` | src/lib.rs:193-199 | The companion name is an identifier if and only if every character of the struct name is an identifier character: ASCII letters, digits, `_`, or any non-ASCII character. So `Größe` gives a valid companion name, while the raw name `r#match` keeps its `#` and makes `Ident::new` panic. |
| `CacheField.TypeParamsOnly` | src/lib.rs:205-213 | The kept parameters are exactly the type parameters. Lifetime and const parameters are dropped. |
| `CacheField.TypeParamsOnlyAppend` | src/lib.rs:205-213 | Filtering commutes with concatenation, so type parameters keep their original relative order. |
| `CacheField.BareTypeParams` | src/lib.rs:225-229 | The companion's parameter list has one entry per kept type parameter, each a type parameter with no bound or default whose identifier is the matching type argument. |
| `CacheField.TypeArgs` | src/lib.rs:225-237 | The type arguments the struct applies the companion to (`#ty_generics` of the embedding field): one per kept type parameter, in order, each the parameter's identifier. |
| `CacheField.PhantomFields` | src/lib.rs:214-224 | The corrected phantom fields `AddCacheField` uses: one per kept type parameter, the i-th named `_phantom{i}`, each of `PhantomData` type. `CacheField.PhantomFieldsMarkTypeArgs` gives their meaning: the i-th marks exactly the i-th type argument. |
| `CacheField.PhantomFieldsAsWritten` | src/lib.rs:214-224 | As the source writes them: one field per kept parameter, the i-th named `_phantom{i}`, each of `PhantomData` type. |
| `CacheField.TypeParamsOnlyKeepsTypeParams` | src/lib.rs:205-213 | A list made only of type parameters is kept whole. |
| `CacheField.PhantomNamesDistinct` | src/lib.rs:214-219 | `_phantom{i}` and `_phantom{j}` are equal if and only if `i == j`. |
| `CacheField.PhantomFieldsMarkTypeArgs` | src/lib.rs:214-236 | There is one phantom field per kept type parameter, and their names are pairwise distinct. The i-th field marks exactly the i-th type argument the companion is applied with. |
| `CacheField.PhantomAsWrittenAgreesIff` | src/lib.rs:218-222 | The phantom fields as written equal the intended ones if and only if no type parameter has an inline bound or a default. |
| `CacheField.PhantomAsWrittenWithInlineBound` | src/lib.rs:218-222 | For `T: Clone`, the field as written marks `T : Clone` rather than the type argument `T`. |
| `Syntax.NatToDecimalInjective` | src/lib.rs:219 | Distinct indices format to distinct decimal strings. |
| `Memo.GetOrInit` | src/lib.rs:147-153 | A filled cell answers with its stored value, does not run the body and changes nothing. An empty cell returns if and only if the body returns without filling that cell (otherwise it panics on re-entrant initialisation). It then returns the body's value and keeps the body's effects. The only cell it writes is its own, and that cell then holds the returned value. |
| `Memo.SecondCallReturnsStored` | src/lib.rs:33-34 | Once a call has returned, calling again gives the same value and leaves the object unchanged. |
| `Memo.FieldMutationKeepsCachedValue` | src/lib.rs:33-41 | Changing the ordinary fields after a call does not change what later calls return. |
| `Memo.NestedCallFillsBothCells` | tests/ui/pass_recursive_call.rs:1-10 | A first call of a method that calls another cached method fills both cells. The inner cell holds the inner value and the outer cell holds the combined value. Afterwards the inner method, called alone, answers from its own cell. |
| `Memo.NestedCallUsesStoredInner` | tests/ui/pass_recursive_call.rs:7-9 | If the inner cell is already filled, the outer method uses the stored inner value and leaves that cell as it was. |
| `Memo.RewrittenBodyMemoizes` | src/lib.rs:147-154 | The body produced by the rewrite returns the original body's value on the first call and stores it under the method's name. A second call returns the stored value without running the body. |
| `Scenarios.ImplThenStruct` | src/lib.rs:67-71 | The impl block, then the struct (its name a plain identifier) with equal generics: both succeed. The companion holds the methods' cache fields in order, then the phantom fields. The registry ends as it began. |
| `Scenarios.MissingReturnTypeRegistersNothing` | src/lib.rs:116-126 | A method without a return type fails the block and leaves the registry unchanged. A later `add_cache_field` on a plainly named struct finds nothing to withdraw. |
| `Scenarios.MismatchConsumesRegistration` | src/storage.rs:70-98 | For a plainly named struct, differing generics make its expansion report both signatures and consume the registration. A retry then fails as not defined. |
| `Scenarios.WhereClausesDiffer` | tests/ui/fail_generics_where_differ.rs:1-19 | Equal parameter lists with differing where-clauses fail with a generics mismatch. |
| `Scenarios.ParamsDiffer` | tests/ui/fail_generics_params_differ.rs:1-19 | `impl<T> Hoge<T> where T: ToString + From<String>` registers. The struct `Hoge<S> where S: ToString + From<String>` with fields `x: u64, t: S` then fails with a generics mismatch, and the registry ends empty. |
| `Scenarios.LifetimeAndConstDropped` | tests/ui/pass_generics_complex.rs:1-18 | For `<'a, T, const N: usize>` the companion has generics `<T>` with the where-clause kept. Its fields are the cache field and `_phantom0: PhantomData<T>`. The struct gains `__cache_fields__: __struct_cache_field__HogeCacheFields<T>`. |
| `Scenarios.SameNameInTwoModules` | tests/ui/pass_modules.rs:1-27 | Two `Hoge` types expanded pair after pair both succeed, each gets its own cache fields, and the registry ends empty. |
| `Scenarios.RawIdentStructPanics` | src/lib.rs:193-200 | `impl r#match` registers under the key `r#match`. The struct `r#match` then fails on its companion name before the withdrawal, so the entry stays registered. |
| `Scenarios.NonAsciiStructName` | src/lib.rs:193-200 | `impl Größe` then `struct Größe`: the companion name is an identifier, both expansions succeed, and the registry ends empty. |
| `Scenarios.CachedAfterMutation` | tests/ui/pass_basic.rs:20-28 | With `x = 1`, `two_times_x` returns 2, then 2 again, and still 2 after `x = 2`. |
| `Scenarios.MutatingBodyRunsOnce` | src/lib.rs:38-41 | Starting from `x = 2`, `x_plus_1` sets `x` to 3 and returns 3. A second call returns 3 without touching `x`, and the call still returns 3 after `x = 3`. |
| `Scenarios.RecursiveCall` | tests/ui/pass_recursive_call.rs:18-29 | `two_times_x_plus_y` returns 12 from `(1, 10)`, again 12, and 12 after the fields become `(2, 20)`. `two_times_x` answers 2 from its own cell. |

## Findings

| source | as written | input that shows it | evidently intended | confidence | as-written member | corrected member |
|---|---|---|---|---|---|---|
| src/lib.rs:218-222 | the phantom field's type is `PhantomData<#param>`, which quotes the whole generic parameter declaration, including its inline bounds and default | `struct Hoge<T: Clone>` gives `_phantom0: PhantomData<T : Clone>`, which is not a valid type argument | `PhantomData<T>`, naming the parameter by its identifier as the companion's own type arguments do | medium; not executed | `CacheField.PhantomFieldsAsWritten`, shown by `CacheField.PhantomAsWrittenWithInlineBound` and `CacheField.PhantomAsWrittenAgreesIff` | `CacheField.PhantomFields`, proved by `CacheField.PhantomFieldsMarkTypeArgs`; `CacheField.AddCacheField` uses it |

## Left out

- The `#[proc_macro_attribute]` entry points and the re-emission of the error together with the original tokens (src/lib.rs:82-93, 161-172) are left out. They are token plumbing; the model's `Result` carries the same outcome.
- `syn`/`quote` parsing and printing are left out. Types, bounds, where-clauses, attributes and method bodies are opaque strings. The stringify-then-reparse of stored cache fields (src/storage.rs:43-46, 103-107) is the identity. `TypePath` has no qualified-self (`<T as Trait>::X`) form.
- The `LazyLock<Mutex<…>>` and its locking are left out; the registry is a value passed from call to call. `register_cache_fields` takes the lock once to check and again to insert (src/storage.rs:53, 60), so it is not atomic under concurrent expansion. That concurrency concern is outside this sequential model.
- Error messages and spans are left out; each error is a constructor of `Base.Error` carrying the data it names.
- Rust's type checking of the generated code is left out, including borrow rules and the derived `Default`. So is the compile error that follows when the kept where-clause mentions a lifetime or const parameter the companion has dropped.
- Name clashes between a method called `_phantom{i}` and a phantom field, or between an existing field and `__cache_fields__`, are left out. Neither is checked by the source.
- `CacheField.AddCacheField`: the phantom fields are the corrected `_phantom{i}: PhantomData<T_i>` of `CacheField.PhantomFields`, not the `PhantomData<#param>` of src/lib.rs:218-222. The two differ only when a type parameter carries an inline bound or a default; see the Findings row.
- The generics text ignores two details of the token printer. A trailing comma in a parameter list is not represented. The printer also puts lifetimes before other parameters, and the model does not. So `impl<T,> Hoge<T>` against `struct Hoge<T>` succeeds in the model but fails in the source. And `impl<T, 'a, S>` against `struct Hoge<'a, T, S>` fails in the model but succeeds in the source, because both print as `< 'a , T , S >`.
- CompanionNameIsIdent: every non-ASCII character counts as an identifier character; Unicode's XID_Continue class is not modelled. Names come from the parser, so a non-ASCII character in a struct name is already an identifier character. Only a companion name built from a raw identifier (`r#`) can fail.
- `Memo.GetOrInit`: every cell holds a value of one type `V`, where in Rust each cell has its own `T`. The fixtures use unbounded `int` in place of `u64`, so overflow of `2 * x` is not modelled.
