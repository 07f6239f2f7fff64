/**
 * The string-backed enumeration `PackagingTypeSortField`, whose value is sent
 * as the `sortBy` query parameter of the list request.
 */
module SortFields {

  datatype PackagingTypeSortField = ID | NAME | CUSTOM

  /** The backing value `$case->value` of each case; each value names exactly one case. */
  function Value(f: PackagingTypeSortField): (r: string)
    ensures f == ID <==> r == "id"
    ensures f == NAME <==> r == "name"
    ensures f == CUSTOM <==> r == "sortOrder"
  {
    match f
    case ID => "id"
    case NAME => "name"
    case CUSTOM => "sortOrder"
  }

  /** The three backing values are pairwise distinct. */
  lemma ValueInjective(a: PackagingTypeSortField, b: PackagingTypeSortField)
    ensures Value(a) == Value(b) ==> a == b
  {
  }
}
