/** The search box shared by the list screens:
    `rows.filter(row => field(row).toLowerCase().includes(term.toLowerCase()))`,
    on one field or on either of two. */
module Search {
  import Text
  import Records

  /** The rows whose `field` contains `term`, ignoring case, in their
      original order. The empty term keeps every row. */
  function ByField<T(==)>(rows: seq<T>, field: T -> string, term: string): (r: seq<T>)
    ensures forall k :: 0 <= k < |r| ==> r[k] in rows && Text.Matches(field(r[k]), term)
    ensures forall k :: 0 <= k < |rows| && Text.Matches(field(rows[k]), term) ==> rows[k] in r
    ensures Records.IsSubsequence(r, rows)
    ensures forall k :: 0 <= k < |rows| ==>
              multiset(r)[rows[k]] == if Text.Matches(field(rows[k]), term) then multiset(rows)[rows[k]] else 0
    ensures term == "" ==> r == rows
  {
    var keep := (x: T) => Text.Matches(field(x), term);
    var r := Records.Filter(rows, keep);
    assert term == "" ==> r == rows by {
      if term == "" {
        forall k | 0 <= k < |rows| ensures keep(rows[k]) {
          Text.EmptyTermMatches(field(rows[k]));
        }
        Records.FilterKeepsAll(rows, keep);
      }
    }
    r
  }

  /** The rows whose `first` or `second` field contains `term`, ignoring
      case, in their original order. The empty term keeps every row. */
  function ByEitherField<T(==)>(rows: seq<T>, first: T -> string, second: T -> string, term: string): (r: seq<T>)
    ensures forall k :: 0 <= k < |r| ==>
              r[k] in rows && (Text.Matches(first(r[k]), term) || Text.Matches(second(r[k]), term))
    ensures forall k :: 0 <= k < |rows| && (Text.Matches(first(rows[k]), term) || Text.Matches(second(rows[k]), term)) ==>
              rows[k] in r
    ensures Records.IsSubsequence(r, rows)
    ensures forall k :: 0 <= k < |rows| ==>
              multiset(r)[rows[k]] ==
              if Text.Matches(first(rows[k]), term) || Text.Matches(second(rows[k]), term) then multiset(rows)[rows[k]] else 0
    ensures term == "" ==> r == rows
  {
    var keep := (x: T) => Text.Matches(first(x), term) || Text.Matches(second(x), term);
    var r := Records.Filter(rows, keep);
    assert term == "" ==> r == rows by {
      if term == "" {
        forall k | 0 <= k < |rows| ensures keep(rows[k]) {
          Text.EmptyTermMatches(first(rows[k]));
        }
        Records.FilterKeepsAll(rows, keep);
      }
    }
    r
  }
}
