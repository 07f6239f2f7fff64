/**
 * The string-backed enumeration `PackagingTypeEntity\Category` and its
 * `from` lookup.
 */
module Categories {

  import opened Wrappers

  datatype Category = PARCEL | PALLET | SHELTER

  /** The backing value `$case->value` of each case; each value names exactly one case. */
  function Value(c: Category): (r: string)
    ensures c == PARCEL <==> r == "parcel"
    ensures c == PALLET <==> r == "pallet"
    ensures c == SHELTER <==> r == "shelter"
  {
    match c
    case PARCEL => "parcel"
    case PALLET => "pallet"
    case SHELTER => "shelter"
  }

  /**
   * `Category::from($s)`: the case whose backing value is `s`; None stands
   * for the `ValueError` thrown for any other string.
   */
  function From(s: string): (r: Option<Category>)
    ensures r.Some? ==> Value(r.value) == s
    ensures r.None? <==> forall c: Category :: Value(c) != s
  {
    if s == "parcel" then Some(PARCEL)
    else if s == "pallet" then Some(PALLET)
    else if s == "shelter" then Some(SHELTER)
    else None
  }

  /** The three backing values are pairwise distinct. */
  lemma ValueInjective(a: Category, b: Category)
    ensures Value(a) == Value(b) ==> a == b
  {
  }

  /** Decoding the backing value of a case gives that case back. */
  lemma FromValue(c: Category)
    ensures From(Value(c)) == Some(c)
  {
  }
}
