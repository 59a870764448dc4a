/**
 * The admin poem list: the full collection fetched from `GET /poems`, a
 * search box filtering it by title or author, and delete-then-refetch.
 */
module AdminPoems {
  import opened Records
  import opened Seqs
  import opened Text
  import opened Browser
  import Api
  import ListView

  /** The search predicate: the lower-cased title or author includes the lower-cased query. */
  predicate Matches(p: Poem, search: string)
  {
    var q := Lower(search);
    Includes(Lower(p.title), q) || Includes(Lower(p.author), q)
  }

  /** `poems.filter(...)` as the search effect computes it. */
  function FilterPoems(poems: seq<Poem>, search: string): (r: seq<Poem>)
    ensures IsSubsequence(r, poems)
    ensures forall p :: p in r <==> p in poems && Matches(p, search)
    ensures forall p :: multiset(r)[p] == if Matches(p, search) then multiset(poems)[p] else 0
  {
    FilterCounts(p => Matches(p, search), poems);
    Filter(p => Matches(p, search), poems)
  }

  /** An empty search keeps the whole collection, in order. */
  lemma EmptySearchKeepsAll(poems: seq<Poem>)
    ensures FilterPoems(poems, "") == poems
  {
    forall i | 0 <= i < |poems|
      ensures Matches(poems[i], "")
    {
      IncludesEmpty(Lower(poems[i].title));
    }
  }

  /** Queries that differ only in letter case select the same poems. */
  lemma SearchIgnoresCase(poems: seq<Poem>, q1: string, q2: string)
    requires Lower(q1) == Lower(q2)
    ensures FilterPoems(poems, q1) == FilterPoems(poems, q2)
  {
    FilterCongruent(p => Matches(p, q1), p => Matches(p, q2), poems);
  }

  /** The header `handleDelete` sets itself: `Bearer ${localStorage.getItem("token")}`. */
  function ExplicitBearer(token: Option<string>): map<string, string>
  {
    map[Api.Authorization := "Bearer " + (if token.Some? then token.value else "null")]
  }

  function DeleteCall(id: string): Api.Call
  {
    Api.Call(Api.DELETE, "/poems/" + id, NoBody)
  }

  class PoemsView {
    var poems: seq<Poem>
    var filtered: seq<Poem>
    var search: string
    var loading: bool

    /** The settled state: the shown list is the search applied to the whole collection. */
    predicate Valid()
      reads this
    {
      filtered == FilterPoems(poems, search)
    }

    constructor ()
      ensures poems == [] && filtered == [] && search == "" && loading
      ensures Valid()
    {
      poems, filtered, search, loading := [], [], "", true;
    }

    /** The search effect, which re-runs whenever `search` or `poems` changes. */
    method FilterEffect()
      modifies this`filtered
      ensures filtered == FilterPoems(poems, search)
    {
      filtered := FilterPoems(poems, search);
    }

    /** Typing in the search box, followed by the search effect. */
    method SetSearch(q: string)
      modifies this`search, this`filtered
      ensures search == q && filtered == FilterPoems(poems, q)
      ensures Valid()
    {
      search := q;
      FilterEffect();
    }

    /**
     * `fetchPoems`: both lists take the response, and the search effect then
     * re-runs because `poems` changed, so the current query still applies; a
     * failure only raises a toast.
     */
    method FetchPoems(env: Env, response: Response<seq<Poem>>)
      requires Valid()
      modifies this`poems, this`filtered, this`loading, env
      ensures Valid()
      ensures !loading
      ensures env.storage == old(env.storage)
      ensures response.Ok? ==> poems == response.data && filtered == FilterPoems(response.data, search)
      ensures response.Failed? ==> poems == old(poems) && filtered == old(filtered)
      ensures env.trace == old(env.trace)
        + [Sent(Api.Dispatched(Api.FetchPoems(), map[], old(env.GetText(TokenKey))))]
        + (if response.Failed? then [Toasted(ErrorToast, "Failed to load poems")] else [])
    {
      loading := true;
      env.Send(Api.FetchPoems(), map[]);
      match response {
        case Ok(_, data) =>
          poems := data;
          filtered := data;
          FilterEffect();
        case Failed =>
          env.Toast(ErrorToast, "Failed to load poems");
      }
      loading := false;
    }

    /**
     * `handleDelete`: on success the list is fetched again (`refetch` is that
     * second response) rather than edited locally; on failure nothing changes
     * but a toast.
     */
    method HandleDelete(env: Env, id: string, deleted: Response<()>, refetch: Response<seq<Poem>>)
      requires Valid()
      modifies this`poems, this`filtered, this`loading, env
      ensures Valid()
      ensures env.storage == old(env.storage)
      ensures deleted.Failed? ==>
        poems == old(poems) && filtered == old(filtered) && loading == old(loading)
        && env.trace == old(env.trace) + [
          Sent(Api.Dispatched(DeleteCall(id), ExplicitBearer(old(env.GetText(TokenKey))), old(env.GetText(TokenKey)))),
          Toasted(ErrorToast, "Delete failed")]
      ensures deleted.Ok? ==>
        !loading
        && poems == (if refetch.Ok? then refetch.data else old(poems))
        && filtered == FilterPoems(poems, search)
        && env.trace == old(env.trace) + [
          Sent(Api.Dispatched(DeleteCall(id), ExplicitBearer(old(env.GetText(TokenKey))), old(env.GetText(TokenKey)))),
          Toasted(SuccessToast, "Poem deleted"),
          Sent(Api.Dispatched(Api.FetchPoems(), map[], old(env.GetText(TokenKey))))]
          + (if refetch.Failed? then [Toasted(ErrorToast, "Failed to load poems")] else [])
    {
      env.Send(DeleteCall(id), ExplicitBearer(env.GetText(TokenKey)));
      match deleted {
        case Ok(_, _) =>
          env.Toast(SuccessToast, "Poem deleted");
          FetchPoems(env, refetch);
        case Failed =>
          env.Toast(ErrorToast, "Delete failed");
      }
    }

    /** The page: "No poems found" exactly when `filtered` is empty; the total counts `poems`. */
    function Screen(): (s: ListView.Screen<Poem>)
      reads this
      ensures s.LoadingScreen? <==> loading
      ensures !loading ==> s.total == |poems| && (s.emptyNotice <==> filtered == [])
    {
      ListView.Render(loading, poems, filtered)
    }
  }
}
