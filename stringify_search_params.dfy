/** `stringifySearchParams`: the second copy of the query-string stringifier, taking a
    `SearchParams` object. Its filter, rendering and join are those of `stringifyParams`. */
module SearchParamsQuery {
  import opened Values
  import opened Records
  import opened QueryText
  import opened ParamsQuery

  /** `"?" + Object.keys(searchParams).filter(...).map(...).join('&')`. */
  function StringifySearchParams(searchParams: Entries<Scalar>): (r: string)
    ensures |r| >= 1 && r[0] == '?'
  {
    "?" + Join(RenderAll(Filtered(searchParams)), '&')
  }

  /** The two copies agree on every input. */
  lemma SameAsStringifyParams(searchParams: Entries<Scalar>)
    ensures StringifySearchParams(searchParams) == StringifyParams(searchParams)
  {
  }

  /** Reading the query back gives the emitted properties, in order, as text. */
  lemma ParseStringifySearch(searchParams: Entries<Scalar>)
    requires QuerySafe(searchParams)
    ensures ParseQuery(StringifySearchParams(searchParams)) == AsText(Filtered(searchParams))
  {
    ParseStringify(searchParams);
  }

  /** A key occurs in the query exactly when its value is not `null`, `undefined`, `''` or `NaN`. */
  lemma SearchKeyOccursIff(searchParams: Entries<Scalar>, key: string)
    requires QuerySafe(searchParams)
    ensures key in KeysOf(ParseQuery(StringifySearchParams(searchParams)))
        <==> exists i :: 0 <= i < |searchParams| && searchParams[i].0 == key && Emitted(searchParams[i].1)
  {
    KeyOccursIff(searchParams, key);
  }

  /** One `&` between consecutive kept pairs: kept count minus one, or none. */
  lemma SearchAmpersandCount(searchParams: Entries<Scalar>)
    requires QuerySafe(searchParams)
    ensures Count(StringifySearchParams(searchParams), '&')
         == if Filtered(searchParams) == [] then 0 else |Filtered(searchParams)| - 1
  {
    AmpersandCount(searchParams);
  }

  /** Empty or fully filtered input gives the bare `?`, and only such input does. */
  lemma SearchBareQuestionMarkIff(searchParams: Entries<Scalar>)
    ensures StringifySearchParams(searchParams) == "?"
        <==> forall i :: 0 <= i < |searchParams| ==> !Emitted(searchParams[i].1)
  {
    BareQuestionMarkIff(searchParams);
  }

  /** The example in the documentation comment of `stringifySearchParams`. */
  lemma SearchDocumentedExample()
    ensures StringifySearchParams([("q", Str("apple")), ("category", Str("fruits")), ("price", Int(10)), ("inStock", Bool(true))])
         == "?q=apple&category=fruits" + "&price=10&inStock=true"
  {
    DocumentedExample();
  }

  /** The pagination parameters of the package test, whose expected text it checks against
      a conversion the class does not have. */
  lemma SearchPaginationExample()
    ensures StringifySearchParams([("page", Int(1)), ("per_page", Int(10)), ("sort_by", Str("title")), ("order_by", Str("asc"))])
         == "?page=1&per_page=10" + "&sort_by=title&order_by=asc"
  {
    PaginationExample();
  }
}
