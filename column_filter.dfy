/** The per-column text filters of the table components: a row is kept when
    every filter box's text occurs in the matching column. Text columns are
    compared after lower-casing both sides; numeric columns compare the
    number's decimal text with the filter as typed. */
module ColumnFilter {
  import opened Text

  /** `field.toLowerCase().includes(filter.toLowerCase())`. */
  predicate FoldedMatch(field: string, filter: string)
  {
    Contains(Lower(field), Lower(filter))
  }

  /** `n.toString().includes(filter)`. */
  predicate NumberMatch(n: int, filter: string)
  {
    Contains(IntToString(n), filter)
  }

  /** The message shown when filtering leaves nothing of a non-empty table. */
  const NoMatches: string := "No se encontraron resultados con los filtros aplicados"

  /** An empty filter box matches every field. */
  lemma EmptyFilterMatches(field: string, n: int)
    ensures FoldedMatch(field, "")
    ensures NumberMatch(n, "")
  {
    ContainsEmpty(Lower(field));
    ContainsEmpty(IntToString(n));
  }

  /** Folded matching ignores the case of both the field and the filter. */
  lemma FoldedMatchIgnoresCase(field: string, filter: string)
    ensures FoldedMatch(field, filter) == FoldedMatch(Lower(field), filter)
    ensures FoldedMatch(field, filter) == FoldedMatch(field, Lower(filter))
  {
    LowerIdempotent(field);
    LowerIdempotent(filter);
  }

  /** A filter longer than the field never matches it. */
  lemma LongFilterMisses(field: string, filter: string)
    requires |filter| > |field|
    ensures !FoldedMatch(field, filter)
  {
    if FoldedMatch(field, filter) {
      ContainsLength(Lower(field), Lower(filter));
    }
  }

  /** A number's text is a match for the number itself. */
  lemma NumberMatchesItself(n: int)
    ensures NumberMatch(n, IntToString(n))
  {
    ContainsSelf(IntToString(n));
  }
}
