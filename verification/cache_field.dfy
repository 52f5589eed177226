/** `#[add_cache_field]` (src/lib.rs, `add_cache_field_aux`): withdraw the
    cache fields registered for a struct, define a companion struct holding
    them, and append a field of the companion's type to the struct. */
module CacheField {
  import opened Base
  import opened Syntax
  import opened Storage

  const CompanionPrefix: string := "__struct_cache_field__"
  const CompanionSuffix: string := "CacheFields"
  const PhantomPrefix: string := "_phantom"

  /** The name of the companion struct, `__struct_cache_field__{Name}CacheFields`. */
  function CompanionName(name: string): string
  {
    CompanionPrefix + name + CompanionSuffix
  }

  /** The companion name depends on the struct name alone and tells struct
      names apart: two structs share a companion name only when they share
      a name. */
  lemma CompanionNameInjective(a: string, b: string)
    ensures CompanionName(a) == CompanionName(b) <==> a == b
  {
    if CompanionName(a) == CompanionName(b) {
      var n := |CompanionPrefix|;
      assert |a| == |b|;
      assert CompanionName(a)[n..n + |a|] == a;
      assert CompanionName(b)[n..n + |b|] == b;
    }
  }

  /** The companion name is an identifier, so `Ident::new` accepts it,
      exactly when every character of the struct name is an identifier
      character. A raw identifier such as `r#match` prints with its `#`
      and makes it panic. */
  lemma {:induction false} CompanionNameIsIdent(name: string)
    ensures IsIdent(CompanionName(name)) <==> forall i :: 0 <= i < |name| ==> IsIdentChar(name[i])
  {
    var c := CompanionName(name);
    var n := |CompanionPrefix|;
    assert forall i :: 0 <= i < |name| ==> c[n + i] == name[i];
    if forall i :: 0 <= i < |name| ==> IsIdentChar(name[i]) {
      forall i | 0 <= i < |c|
        ensures IsIdentChar(c[i])
      {
        if i < n {
          assert c[i] == CompanionPrefix[i];
        } else if i < n + |name| {
          assert c[i] == name[i - n];
        } else {
          assert c[i] == CompanionSuffix[i - n - |name|];
        }
      }
    }
  }

  /** The companion's generic parameters: the type parameters, in their
      order; lifetime and const parameters are dropped. */
  function TypeParamsOnly(ps: seq<GenericParam>): (r: seq<GenericParam>)
    ensures forall i :: 0 <= i < |r| ==> r[i].TypeParam?
    ensures forall p :: p in r <==> p in ps && p.TypeParam?
    ensures |r| <= |ps|
  {
    if |ps| == 0 then []
    else (if ps[0].TypeParam? then [ps[0]] else []) + TypeParamsOnly(ps[1..])
  }

  /** Filtering commutes with concatenation, so the kept parameters keep
      their relative order. */
  lemma {:induction false} TypeParamsOnlyAppend(a: seq<GenericParam>, b: seq<GenericParam>)
    ensures TypeParamsOnly(a + b) == TypeParamsOnly(a) + TypeParamsOnly(b)
  {
    if |a| > 0 {
      assert (a + b)[1..] == a[1..] + b;
      TypeParamsOnlyAppend(a[1..], b);
    } else {
      assert a + b == b;
    }
  }

  /** A list of type parameters only is kept as it is. */
  lemma {:induction false} TypeParamsOnlyKeepsTypeParams(ps: seq<GenericParam>)
    requires forall i :: 0 <= i < |ps| ==> ps[i].TypeParam?
    ensures TypeParamsOnly(ps) == ps
  {
    if |ps| > 0 {
      TypeParamsOnlyKeepsTypeParams(ps[1..]);
    }
  }

  /** The type arguments a list of type parameters is used with
      (`ty_generics`): their identifiers. */
  function TypeArgs(ps: seq<GenericParam>): (r: seq<string>)
    requires forall i :: 0 <= i < |ps| ==> ps[i].TypeParam?
    ensures |r| == |ps|
    ensures forall i :: 0 <= i < |r| ==> r[i] == ps[i].ident
  {
    seq(|ps|, i requires 0 <= i < |ps| => ps[i].ident)
  }

  /** The companion's own parameter list (`ty_generics` of the kept
      parameters): each type parameter by its identifier alone, without
      inline bounds or default. */
  function BareTypeParams(ps: seq<GenericParam>): (r: seq<GenericParam>)
    requires forall i :: 0 <= i < |ps| ==> ps[i].TypeParam?
    ensures |r| == |ps|
    ensures forall i :: 0 <= i < |r| ==> r[i].TypeParam? && r[i].rest == ""
    ensures forall i :: 0 <= i < |r| ==> r[i].ident == TypeArgs(ps)[i]
  {
    seq(|ps|, i requires 0 <= i < |ps| => TypeParam(ps[i].ident, ""))
  }

  function PhantomName(i: nat): string
  {
    PhantomPrefix + NatToDecimal(i)
  }

  /** Phantom field names are pairwise distinct. */
  lemma PhantomNamesDistinct(i: nat, j: nat)
    ensures PhantomName(i) == PhantomName(j) <==> i == j
  {
    if PhantomName(i) == PhantomName(j) {
      assert PhantomName(i)[|PhantomPrefix|..] == NatToDecimal(i);
      assert PhantomName(j)[|PhantomPrefix|..] == NatToDecimal(j);
      NatToDecimalInjective(i, j);
    }
  }

  /** Phantom fields as the source writes them: `_phantom{i}:
      PhantomData<#param>`, where `#param` is the whole parameter
      declaration, inline bounds and default included. */
  function PhantomFieldsAsWritten(ps: seq<GenericParam>): (r: seq<Field>)
    ensures |r| == |ps|
    ensures forall i :: 0 <= i < |r| ==> r[i].name == PhantomName(i) && r[i].ty.PhantomData?
  {
    seq(|ps|, i requires 0 <= i < |ps| => Field(PhantomName(i), PhantomData(Verbatim(ParamText(ps[i])))))
  }

  /** Phantom fields as intended: `_phantom{i}: PhantomData<T_i>`, naming
      the i-th type parameter by its identifier. */
  function PhantomFields(ps: seq<GenericParam>): (r: seq<Field>)
    requires forall i :: 0 <= i < |ps| ==> ps[i].TypeParam?
    ensures |r| == |ps|
    ensures forall i :: 0 <= i < |r| ==> r[i].name == PhantomName(i) && r[i].ty.PhantomData?
  {
    seq(|ps|, i requires 0 <= i < |ps| => Field(PhantomName(i), PhantomData(Verbatim(ps[i].ident))))
  }

  /** The intended phantom fields: one per type parameter, with distinct
      names, each marking exactly the type argument the companion is
      applied to in the same position. */
  lemma PhantomFieldsMarkTypeArgs(ps: seq<GenericParam>)
    requires forall i :: 0 <= i < |ps| ==> ps[i].TypeParam?
    ensures |PhantomFields(ps)| == |TypeArgs(ps)|
    ensures forall i :: 0 <= i < |ps| ==>
              PhantomFields(ps)[i].ty == PhantomData(Verbatim(TypeArgs(ps)[i]))
    ensures forall i, j :: 0 <= i < j < |ps| ==> PhantomFields(ps)[i].name != PhantomFields(ps)[j].name
  {
    forall i, j | 0 <= i < j < |ps|
      ensures PhantomFields(ps)[i].name != PhantomFields(ps)[j].name
    {
      PhantomNamesDistinct(i, j);
    }
  }

  /** The fields as written agree with the intended ones exactly when no
      type parameter carries an inline bound or a default. */
  lemma PhantomAsWrittenAgreesIff(ps: seq<GenericParam>)
    requires forall i :: 0 <= i < |ps| ==> ps[i].TypeParam?
    ensures PhantomFieldsAsWritten(ps) == PhantomFields(ps) <==>
            forall i :: 0 <= i < |ps| ==> ps[i].rest == ""
  {
    if PhantomFieldsAsWritten(ps) == PhantomFields(ps) {
      forall i | 0 <= i < |ps|
        ensures ps[i].rest == ""
      {
        assert PhantomFieldsAsWritten(ps)[i] == PhantomFields(ps)[i];
        assert PhantomFieldsAsWritten(ps)[i].ty == PhantomData(Verbatim(ParamText(ps[i])));
        assert ParamText(ps[i]) == ps[i].ident + ps[i].rest == ps[i].ident;
        assert |ps[i].ident + ps[i].rest| == |ps[i].ident| + |ps[i].rest|;
      }
    } else {
      var k :| 0 <= k < |ps| && PhantomFieldsAsWritten(ps)[k] != PhantomFields(ps)[k];
      assert ps[k].ident + ps[k].rest != ps[k].ident;
    }
  }

  /** `struct Hoge<T: Clone>`: the field as written marks `T : Clone`,
      which is not a type, instead of the type argument `T`. */
  lemma PhantomAsWrittenWithInlineBound()
    ensures var ps := [TypeParam("T", " : Clone")];
            && PhantomFieldsAsWritten(ps)[0].ty == PhantomData(Verbatim("T : Clone"))
            && PhantomFieldsAsWritten(ps)[0].ty != PhantomData(Verbatim(TypeArgs(ps)[0]))
  {
    var ps := [TypeParam("T", " : Clone")];
    assert ParamText(ps[0]) == "T" + " : Clone" == "T : Clone";
    assert TypeArgs(ps)[0] == "T";
    assert "T : Clone" != "T" by {
      assert |"T : Clone"| != |"T"|;
    }
  }

  /** The output of the embedder: the amended struct and its companion. */
  datatype Embedded = Embedded(owner: StructDecl, companion: StructDecl)

  /** `add_cache_field_aux`. The companion name is built before the
      withdrawal; a name that is not an identifier panics there and leaves
      the registry as it was. Otherwise the registry changes only through
      the withdrawal, which consumes the entry even when it then fails. */
  function AddCacheField(args: seq<string>, item: Item, reg: Registry): (s: Step<Embedded>)
    ensures args != [] ==> s == Step(reg, Err(UnexpectedArguments))
    ensures args == [] && !item.StructItemDecl? ==> s == Step(reg, Err(ExpectedStruct))
    ensures args == [] && item.StructItemDecl? && !item.decl.fields.NamedFields? ==>
              s == Step(reg, Err(ExpectedNamedFields))
    ensures args == [] && item.StructItemDecl? && item.decl.fields.NamedFields?
            && !IsIdent(CompanionName(item.decl.name)) ==>
              s == Step(reg, Err(InvalidIdent(CompanionName(item.decl.name))))
    ensures args == [] && item.StructItemDecl? && item.decl.fields.NamedFields?
            && IsIdent(CompanionName(item.decl.name)) ==>
              var name := item.decl.name;
              && (name !in reg ==> s == Step(reg, Err(CacheFieldsNotDefined(name))))
              && (name in reg ==>
                    && s.registry.Keys == reg.Keys - {name}
                    && (forall k :: k in s.registry ==> s.registry[k] == reg[k])
                    && (s.result.Ok? <==> EntrySignature(reg[name]) == SignatureOf(item.decl.generics))
                    && (s.result.Err? ==>
                          s.result.error == GenericsDiffer(EntrySignature(reg[name]), SignatureOf(item.decl.generics))))
    ensures s.result.Ok? ==>
              && args == [] && item.StructItemDecl? && item.decl.fields.NamedFields?
              && var decl := item.decl;
                 var kept := TypeParamsOnly(decl.generics.params);
                 var owner := s.result.value.owner;
                 var companion := s.result.value.companion;
                 var named := decl.fields.named;
                 && decl.name in reg
                 // the companion
                 && companion.name == CompanionName(decl.name) && IsIdent(companion.name)
                 && companion.attrs == ["derive(Default)"]
                 && companion.generics.whereClause == decl.generics.whereClause
                 && |companion.generics.params| == |kept|
                 && (forall i :: 0 <= i < |kept| ==>
                       companion.generics.params[i] == TypeParam(kept[i].ident, ""))
                 && companion.fields.NamedFields?
                 && companion.fields.named == reg[decl.name].cacheFields + PhantomFields(kept)
                 // the struct: same declaration, one field appended
                 && owner == decl.(fields := owner.fields)
                 && owner.fields.NamedFields?
                 && |owner.fields.named| == |named| + 1
                 && owner.fields.named[..|named|] == named
                 && owner.fields.named[|named|] == Field(CacheFieldsName, Applied(companion.name, TypeArgs(kept)))
  {
    if args != [] then Step(reg, Err(UnexpectedArguments))
    else match item
      case StructItemDecl(decl) =>
        (match decl.fields
         case NamedFields(named) =>
           var companionName := CompanionName(decl.name);
           if !IsIdent(companionName) then Step(reg, Err(InvalidIdent(companionName)))
           else
           var withdrawn := Withdraw(reg, decl.name, decl.generics);
           if withdrawn.result.Err? then Step(withdrawn.registry, Err(withdrawn.result.error))
           else
             var kept := TypeParamsOnly(decl.generics.params);
             var companion := StructDecl(
               ["derive(Default)"], "", companionName,
               Generics(BareTypeParams(kept), decl.generics.whereClause),
               NamedFields(withdrawn.result.value + PhantomFields(kept)));
             var embedding := Field(CacheFieldsName, Applied(companionName, TypeArgs(kept)));
             var owner := decl.(fields := NamedFields(named + [embedding]));
             Step(withdrawn.registry, Ok(Embedded(owner, companion)))
         case _ => Step(reg, Err(ExpectedNamedFields)))
      case _ => Step(reg, Err(ExpectedStruct))
  }
}
