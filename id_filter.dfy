/**
 * The OR-filter the bulk deletions of src/database/config.rs and src/database/script.rs
 * build in a loop: `Column::Id.eq(id)` for the first id, `.or(Column::Id.eq(id))` for each next one.
 */
module IdFilter {

  datatype Filter = IdEq(id: string) | Or(left: Filter, right: Filter)

  /** Whether a row with this id satisfies the filter. */
  predicate Matches(f: Filter, id: string) {
    match f
    case IdEq(x) => x == id
    case Or(l, r) => Matches(l, id) || Matches(r, id)
  }

  /** The filter loop: for a non-empty list, a filter matching exactly the listed ids. */
  method BuildFilter(ids: seq<string>) returns (f: Filter)
    requires |ids| > 0
    ensures forall id :: Matches(f, id) <==> id in ids
  {
    f := IdEq(ids[0]);
    var i := 1;
    while i < |ids|
      invariant 1 <= i <= |ids|
      invariant forall id :: Matches(f, id) <==> id in ids[..i]
    {
      f := Or(f, IdEq(ids[i]));
      assert ids[..i + 1] == ids[..i] + [ids[i]];
      i := i + 1;
    }
    assert ids[..i] == ids;
  }
}
