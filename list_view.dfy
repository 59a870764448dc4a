/**
 * What the three admin list pages put on screen once their state is known:
 * a loading skeleton, or the page with the total of the full collection, the
 * rows of the filtered one, and an empty-state notice.
 */
module ListView {
  import opened Records
  import opened Text

  /**
   * `field?.toLowerCase().includes(q)` for an already lower-cased `q`: a
   * missing field never matches, not even the empty query.
   */
  predicate FieldContains(field: Option<string>, q: string)
  {
    field.Some? && Includes(Lower(field.value), q)
  }

  /** A present field matches the empty query; an absent one matches nothing. */
  lemma FieldContainsEmpty(field: Option<string>)
    ensures FieldContains(field, "") <==> field.Some?
  {
    if field.Some? {
      IncludesEmpty(Lower(field.value));
    }
  }

  datatype Screen<T> = LoadingScreen | ListPage(total: nat, rows: seq<T>, emptyNotice: bool)

  /** The render of a list page with state `loading`, the full collection `all` and the `filtered` one. */
  function Render<T>(loading: bool, all: seq<T>, filtered: seq<T>): (s: Screen<T>)
    ensures s.LoadingScreen? <==> loading
    ensures !loading ==> s.total == |all| && s.rows == filtered
    ensures !loading ==> (s.emptyNotice <==> |filtered| == 0)
  {
    if loading then LoadingScreen else ListPage(|all|, filtered, |filtered| == 0)
  }
}
