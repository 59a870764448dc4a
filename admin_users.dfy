/**
 * The admin user list: `GET /users`, whose body may be the list itself or an
 * object holding it under `users`, and a search over name and email.
 */
module AdminUsers {
  import opened Records
  import opened Seqs
  import opened Text
  import opened Browser
  import Api
  import ListView

  /** The search predicate: the name or the email, whichever exist, includes the lower-cased query. */
  predicate Matches(u: User, search: string)
  {
    var q := Lower(search);
    ListView.FieldContains(u.name, q) || ListView.FieldContains(u.email, q)
  }

  function FilterUsers(users: seq<User>, search: string): (r: seq<User>)
    ensures IsSubsequence(r, users)
    ensures forall u :: u in r <==> u in users && Matches(u, search)
    ensures forall u :: multiset(r)[u] == if Matches(u, search) then multiset(users)[u] else 0
  {
    FilterCounts(u => Matches(u, search), users);
    Filter(u => Matches(u, search), users)
  }

  /** A user with neither a name nor an email is never listed, whatever the query. */
  lemma NamelessNeverListed(users: seq<User>, search: string, u: User)
    requires u.name.None? && u.email.None?
    ensures u !in FilterUsers(users, search)
  {
  }

  predicate Identified(u: User) { u.name.Some? || u.email.Some? }

  /** The empty query lists exactly the users that have a name or an email. */
  lemma EmptySearchKeepsIdentified(users: seq<User>)
    ensures FilterUsers(users, "") == Filter(Identified, users)
  {
    forall i | 0 <= i < |users|
      ensures Matches(users[i], "") == Identified(users[i])
    {
      ListView.FieldContainsEmpty(users[i].name);
      ListView.FieldContainsEmpty(users[i].email);
    }
    FilterCongruent(u => Matches(u, ""), Identified, users);
  }

  /**
   * The list a response body stands for: the body itself when it is an array,
   * else its `users` field when that is an array, else the empty list.
   */
  function Normalise(data: Json<User>): (list: seq<User>)
    ensures data.JArray? ==> list == data.items
    ensures data.JObject? && "users" in data.fields && data.fields["users"].JArray? ==>
      list == data.fields["users"].items
    ensures !data.JArray? && !(data.JObject? && "users" in data.fields && data.fields["users"].JArray?) ==>
      list == []
  {
    match data
    case JArray(items) => items
    case JObject(fields) =>
      if "users" in fields && fields["users"].JArray? then fields["users"].items else []
    case _ => []
  }

  /** Both body shapes the backend may send give the same list. */
  lemma NormaliseShapesAgree(list: seq<User>, others: map<string, Json<User>>)
    ensures Normalise(JObject(others["users" := JArray(list)])) == Normalise(JArray(list)) == list
  {
  }

  class UsersView {
    var users: seq<User>
    var filtered: seq<User>
    var search: string
    var loading: bool

    /** The settled state: the shown list is the search applied to the whole collection. */
    predicate Valid()
      reads this
    {
      filtered == FilterUsers(users, search)
    }

    constructor ()
      ensures users == [] && filtered == [] && search == "" && loading
      ensures Valid()
    {
      users, filtered, search, loading := [], [], "", true;
    }

    /** The search effect, which re-runs whenever `search` or `users` changes. */
    method FilterEffect()
      modifies this`filtered
      ensures filtered == FilterUsers(users, search)
    {
      filtered := FilterUsers(users, search);
    }

    method SetSearch(q: string)
      modifies this`search, this`filtered
      ensures search == q && filtered == FilterUsers(users, q)
      ensures Valid()
    {
      search := q;
      FilterEffect();
    }

    /**
     * `fetchUsers`: success stores the normalised list, failure empties both
     * lists; the search effect then re-runs, so only matching users are shown.
     */
    method FetchUsers(env: Env, response: Response<Json<User>>)
      modifies this`users, this`filtered, this`loading, env
      ensures Valid()
      ensures !loading
      ensures env.storage == old(env.storage)
      ensures env.trace == old(env.trace)
        + [Sent(Api.Dispatched(Api.Call(Api.GET, "/users", NoBody), map[], old(env.GetText(TokenKey))))]
      ensures response.Ok? ==> users == Normalise(response.data) && filtered == FilterUsers(users, search)
      ensures response.Failed? ==> users == [] && filtered == []
    {
      loading := true;
      env.Send(Api.Call(Api.GET, "/users", NoBody), map[]);
      match response {
        case Ok(_, data) =>
          var list := Normalise(data);
          users := list;
          filtered := list;
        case Failed =>
          users := [];
          filtered := [];
      }
      // The search effect re-runs because the collection changed.
      FilterEffect();
      loading := false;
    }

    /** The table is shown exactly when `filtered` is non-empty; the total counts `users`. */
    function Screen(): (s: ListView.Screen<User>)
      reads this
      ensures s.LoadingScreen? <==> loading
      ensures !loading ==> s.total == |users| && (s.emptyNotice <==> filtered == [])
    {
      ListView.Render(loading, users, filtered)
    }
  }

  /**
   * A user with neither a name nor an email is not shown even before anything
   * is typed: the page counts one user and shows the empty notice.
   */
  method NamelessUserNotShown(storage: map<string, Value>, id: string) returns (s: ListView.Screen<User>)
    ensures s.ListPage? && s.total == 1 && s.rows == [] && s.emptyNotice
  {
    var env := new Env(storage);
    var view := new UsersView();
    view.FetchUsers(env, Ok(200, JArray([User(id, None, None, None)])));
    s := view.Screen();
  }
}
