/** The slice of Rust's declaration syntax the two macros look at. Anything
    the macros only copy through (attributes, bodies, bounds, where-clauses)
    is kept as opaque text. */
module Syntax {
  import opened Base

  /** Types. `Verbatim` is any type the macros do not look inside; the other
      constructors are the shapes the macros build. */
  datatype Ty =
    | Verbatim(text: string)
    | Ref(referent: Ty)                          // `&T`
    | OnceCell(content: Ty)                      // `::core::cell::OnceCell<T>`
    | PhantomData(marker: Ty)                    // `::core::marker::PhantomData<T>`
    | Applied(name: string, args: seq<string>)   // `Name<A, B>` (no brackets when `args` is empty)

  /** One generic parameter. A type parameter keeps its identifier apart
      from the rest of its declaration (inline bounds, default), e.g.
      `T: Clone` is `TypeParam("T", " : Clone")`. */
  datatype GenericParam =
    | LifetimeParam(text: string)
    | TypeParam(ident: string, rest: string)
    | ConstParam(text: string)

  datatype Generics = Generics(params: seq<GenericParam>, whereClause: Option<string>)

  /** A path segment; `args` is the text of its angle-bracketed arguments
      (empty when there are none). */
  datatype Segment = Segment(name: string, args: string)

  /** A type path. The last segment is kept apart so that a path always has
      at least one segment. */
  datatype TypePath = TypePath(leadingColon: bool, init: seq<Segment>, last: Segment)

  /** The self type of an impl block. */
  datatype SelfTy = PathTy(path: TypePath) | OtherTy(text: string)

  /** Method bodies. `Source` is the author's block, never inspected;
      `CacheGetOrInit` is `self.<holder>.<slot>.get_or_init(|| { init })`. */
  datatype Block =
    | Source(text: string)
    | CacheGetOrInit(holder: string, slot: string, init: Block)

  /** A method. `head` stands for attributes, visibility and qualifiers,
      `inputs` for the arguments after the receiver; `output` is `None`
      when the method has no `-> T`. */
  datatype FnDecl = FnDecl(
    head: string,
    name: string,
    receiver: Option<string>,
    inputs: string,
    output: Option<Ty>,
    body: Block)

  /** An item inside an impl block: a method or anything else
      (constants, associated types, macros). */
  datatype ImplItem = FnItem(fn: FnDecl) | OtherItem(text: string)

  datatype ImplDecl = ImplDecl(
    attrs: string,
    generics: Generics,
    traitRef: Option<string>,
    selfTy: SelfTy,
    items: seq<ImplItem>)

  datatype Field = Field(name: string, ty: Ty)

  datatype Fields =
    | NamedFields(named: seq<Field>)
    | UnnamedFields(unnamed: seq<Ty>)
    | UnitFields

  datatype StructDecl = StructDecl(
    attrs: seq<string>,
    vis: string,
    name: string,
    generics: Generics,
    fields: Fields)

  /** A top-level item an attribute macro can be applied to. */
  datatype Item =
    | ImplItemDecl(impl: ImplDecl)
    | StructItemDecl(decl: StructDecl)
    | OtherDecl(text: string)

  /** The field every cached method reads its slot from, and the field the
      struct embedder appends. Both sides use this one name. */
  const CacheFieldsName: string := "__cache_fields__"

  // ---------------------------------------------------------------------
  // Text rendering, used for registry keys and generics comparison.
  // ---------------------------------------------------------------------

  function ParamText(p: GenericParam): string
  {
    match p
    case LifetimeParam(t) => t
    case TypeParam(i, rest) => i + rest
    case ConstParam(t) => t
  }

  function JoinParams(ps: seq<GenericParam>): string
  {
    if |ps| == 0 then ""
    else if |ps| == 1 then ParamText(ps[0])
    else ParamText(ps[0]) + " , " + JoinParams(ps[1..])
  }

  /** The text of a generics list without its where-clause; empty when
      there are no parameters, as the token printer emits nothing then. */
  function GenericsText(g: Generics): (r: string)
    ensures r == "" <==> |g.params| == 0
    ensures |g.params| > 0 ==> |r| >= 4 && r[..2] == "< " && r[|r| - 2..] == " >"
  {
    if |g.params| == 0 then "" else "< " + JoinParams(g.params) + " >"
  }

  /** What the registry compares: the generics text and the where-clause
      text, each as rendered. */
  function SignatureOf(g: Generics): (r: Signature)
    ensures r.whereClause == g.whereClause
    ensures r.params == "" <==> |g.params| == 0
  {
    Signature(GenericsText(g), g.whereClause)
  }

  /** Renaming the one type parameter changes the signature: `impl<T>`
      and `struct Hoge<S>` never agree, whatever their where-clauses. */
  lemma {:induction false} SingleTypeParamSignature(a: string, b: string, wa: Option<string>, wb: Option<string>)
    ensures SignatureOf(Generics([TypeParam(a, "")], wa)) == SignatureOf(Generics([TypeParam(b, "")], wb))
            <==> a == b && wa == wb
  {
    var ta := GenericsText(Generics([TypeParam(a, "")], wa));
    var tb := GenericsText(Generics([TypeParam(b, "")], wb));
    assert ParamText(TypeParam(a, "")) == a;
    assert ParamText(TypeParam(b, "")) == b;
    assert ta == "< " + a + " >";
    assert tb == "< " + b + " >";
    if ta == tb {
      assert |a| == |b|;
      assert ta[2..2 + |a|] == a;
      assert tb[2..2 + |b|] == b;
    }
  }

  /** A character that may continue a Rust identifier. Every non-ASCII
      character is admitted: names come from the parser, so a non-ASCII
      character in one is already an identifier character, and the only
      non-identifier character a name can carry is the `#` of `r#`. */
  predicate IsIdentChar(c: char)
  {
    ('a' <= c <= 'z') || ('A' <= c <= 'Z') || ('0' <= c <= '9') || c == '_' || c as int >= 0x80
  }

  /** A Rust identifier as the token printer renders it. */
  predicate IsIdent(s: string)
  {
    |s| > 0 && forall i :: 0 <= i < |s| ==> IsIdentChar(s[i])
  }

  function DigitChar(d: nat): (c: char)
    requires d < 10
    ensures '0' <= c <= '9'
    ensures c as int - '0' as int == d
  {
    ('0' as int + d) as char
  }

  /** Decimal rendering of a natural number, as `format!("{i}")` prints it. */
  function NatToDecimal(n: nat): (s: string)
    ensures |s| >= 1
    ensures n < 10 <==> |s| == 1
    ensures forall i :: 0 <= i < |s| ==> '0' <= s[i] <= '9'
  {
    if n < 10 then [DigitChar(n)] else NatToDecimal(n / 10) + [DigitChar(n % 10)]
  }

  /** Distinct numbers render to distinct decimal strings. */
  lemma {:induction false} NatToDecimalInjective(m: nat, n: nat)
    ensures NatToDecimal(m) == NatToDecimal(n) ==> m == n
  {
    if NatToDecimal(m) == NatToDecimal(n) {
      if m >= 10 && n >= 10 {
        var sm, sn := NatToDecimal(m), NatToDecimal(n);
        assert sm[|sm| - 1] == DigitChar(m % 10);
        assert sn[|sn| - 1] == DigitChar(n % 10);
        assert sm[..|sm| - 1] == NatToDecimal(m / 10);
        assert sn[..|sn| - 1] == NatToDecimal(n / 10);
        NatToDecimalInjective(m / 10, n / 10);
      } else if m < 10 && n < 10 {
        assert NatToDecimal(m)[0] == DigitChar(m);
        assert NatToDecimal(n)[0] == DigitChar(n);
      }
    }
  }
}
