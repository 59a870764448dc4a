/**
 * The admin subscriber list: `GET /subscribe`, kept only when the body is an
 * array, and a search over the email.
 */
module AdminSubscribers {
  import opened Records
  import opened Seqs
  import opened Text
  import opened Browser
  import Api
  import ListView

  /** The search predicate: the email exists and includes the lower-cased query. */
  predicate Matches(s: Subscriber, search: string)
  {
    ListView.FieldContains(s.email, Lower(search))
  }

  function FilterSubscribers(subscribers: seq<Subscriber>, search: string): (r: seq<Subscriber>)
    ensures IsSubsequence(r, subscribers)
    ensures forall s :: s in r <==> s in subscribers && Matches(s, search)
    ensures forall s :: multiset(r)[s] == if Matches(s, search) then multiset(subscribers)[s] else 0
  {
    FilterCounts(s => Matches(s, search), subscribers);
    Filter(s => Matches(s, search), subscribers)
  }

  predicate HasEmail(s: Subscriber) { s.email.Some? }

  /** The empty query lists exactly the subscribers that have an email, so one without is never listed. */
  lemma EmptySearchKeepsThoseWithEmail(subscribers: seq<Subscriber>)
    ensures FilterSubscribers(subscribers, "") == Filter(HasEmail, subscribers)
  {
    forall i | 0 <= i < |subscribers|
      ensures Matches(subscribers[i], "") == HasEmail(subscribers[i])
    {
      ListView.FieldContainsEmpty(subscribers[i].email);
    }
    FilterCongruent(s => Matches(s, ""), HasEmail, subscribers);
  }

  /** `Array.isArray(res.data) ? res.data : []`. */
  function Normalise(data: Json<Subscriber>): (list: seq<Subscriber>)
    ensures data.JArray? ==> list == data.items
    ensures !data.JArray? ==> list == []
  {
    if data.JArray? then data.items else []
  }

  class SubscribersView {
    var subscribers: seq<Subscriber>
    var filtered: seq<Subscriber>
    var search: string
    var loading: bool

    /** The settled state: the shown list is the search applied to the whole collection. */
    predicate Valid()
      reads this
    {
      filtered == FilterSubscribers(subscribers, search)
    }

    constructor ()
      ensures subscribers == [] && filtered == [] && search == "" && loading
      ensures Valid()
    {
      subscribers, filtered, search, loading := [], [], "", true;
    }

    /** The search effect, which re-runs whenever `search` or `subscribers` changes. */
    method FilterEffect()
      modifies this`filtered
      ensures filtered == FilterSubscribers(subscribers, search)
    {
      filtered := FilterSubscribers(subscribers, search);
    }

    method SetSearch(q: string)
      modifies this`search, this`filtered
      ensures search == q && filtered == FilterSubscribers(subscribers, q)
      ensures Valid()
    {
      search := q;
      FilterEffect();
    }

    /**
     * `fetchSubscribers`: success stores the normalised list, failure empties
     * both lists; the search effect then re-runs, so only matching subscribers
     * are shown.
     */
    method FetchSubscribers(env: Env, response: Response<Json<Subscriber>>)
      modifies this`subscribers, this`filtered, this`loading, env
      ensures Valid()
      ensures !loading
      ensures env.storage == old(env.storage)
      ensures env.trace == old(env.trace)
        + [Sent(Api.Dispatched(Api.Call(Api.GET, "/subscribe", NoBody), map[], old(env.GetText(TokenKey))))]
      ensures response.Ok? ==> subscribers == Normalise(response.data) && filtered == FilterSubscribers(subscribers, search)
      ensures response.Failed? ==> subscribers == [] && filtered == []
    {
      loading := true;
      env.Send(Api.Call(Api.GET, "/subscribe", NoBody), map[]);
      match response {
        case Ok(_, data) =>
          var list := Normalise(data);
          subscribers := list;
          filtered := list;
        case Failed =>
          subscribers := [];
          filtered := [];
      }
      // The search effect re-runs because the collection changed.
      FilterEffect();
      loading := false;
    }

    /** The table is shown exactly when `filtered` is non-empty; the total counts `subscribers`. */
    function Screen(): (s: ListView.Screen<Subscriber>)
      reads this
      ensures s.LoadingScreen? <==> loading
      ensures !loading ==> s.total == |subscribers| && (s.emptyNotice <==> filtered == [])
    {
      ListView.Render(loading, subscribers, filtered)
    }
  }
}
