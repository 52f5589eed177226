/** Failure-carrying values shared by every component: the optional value,
    the diagnostics both macros can report, and the result of a fallible step. */
module Base {

  datatype Option<+T> = None | Some(value: T)

  /** Every diagnostic the two macros and the registry can raise. Message
      text and spans are not modelled, only which failure it is and the
      data it names. */
  datatype Error =
    | UnexpectedArguments                   // an attribute was given arguments
    | ExpectedImpl                          // `impl_cached_method` on something other than `impl`
    | TraitImpl                             // `impl Trait for Type`
    | MissingReturnType(fnName: string)     // a cached `fn` without `-> T`
    | ExpectedTypePath                      // the impl's self type is not a path
    | AlreadyRegistered(key: string)        // a second method block for the same key
    | ExpectedStruct                        // `add_cache_field` on something other than `struct`
    | ExpectedNamedFields                   // tuple or unit struct
    | CacheFieldsNotDefined(key: string)    // nothing registered under the struct's name
    | GenericsDiffer(registered: Signature, presented: Signature)
    | InvalidIdent(text: string)            // `Ident::new` panics: the text is not an identifier

  /** The textual form of a generics list and its where-clause, as stored
      by the registry and compared on withdrawal. */
  datatype Signature = Signature(params: string, whereClause: Option<string>)

  datatype Result<+T> = Ok(value: T) | Err(error: Error)
}
