/**
 * The older single-page admin panel: its own access check, dashboard
 * statistics drawn from three unauthenticated requests, and an inner form
 * that creates a poem with an explicit bearer header and then asks the
 * backend to mail subscribers.
 */
module AdminPanel {
  import opened Records
  import opened Browser
  import Api
  import ProtectedRoute

  const Backend := "https://full-stack-poetry-management-system.onrender.com"
  const PoemsUrl := Backend + "/api/poems"
  const UsersUrl := Backend + "/api/users"
  const SubscribersCountUrl := Backend + "/subscribers-count"
  const SendEmailUrl := Backend + "/api/email/send-email"

  const MissingToken := "Authentication token is missing. Please log in again."
  const Added := "Poem added successfully!"
  const AddFailed := "Failed to add poem."

  /** "Access Denied" is shown unless a user is present whose role is `"admin"`. */
  predicate AccessDenied(user: Option<User>)
  {
    user.None? || user.value.role != Some("admin")
  }

  /** Once the route guard has finished loading, the panel's own check admits exactly whom the guard admits. */
  lemma AccessAgreesWithGate(user: Option<User>)
    ensures AccessDenied(user) <==> ProtectedRoute.Gate(false, user) != ProtectedRoute.RenderOutlet
  {
  }

  /** The dashboard numbers; `email` is absent from the initial state and set by the first successful refresh. */
  datatype Stats = Stats(poems: nat, users: nat, email: Option<nat>, recentPoems: seq<Poem>)

  const InitialStats := Stats(0, 0, None, [])

  /** `poems.slice(-3)`: the last three poems, or all of them when there are fewer, in their order. */
  function Recent(poems: seq<Poem>): (r: seq<Poem>)
    ensures |r| == if |poems| < 3 then |poems| else 3
    ensures r == poems[|poems| - |r|..]
  {
    if |poems| <= 3 then poems else poems[|poems| - 3..]
  }

  /** The statistics the three response bodies give. */
  function DeriveStats(poems: seq<Poem>, users: seq<User>, subscribers: seq<Subscriber>): (s: Stats)
    ensures s.poems == |poems| && s.users == |users| && s.email == Some(|subscribers|)
    ensures s.recentPoems == Recent(poems)
  {
    Stats(|poems|, |users|, Some(|subscribers|), Recent(poems))
  }

  /** The recent poems are taken from the poems that were counted. */
  lemma RecentWithinCount(poems: seq<Poem>, users: seq<User>, subscribers: seq<Subscriber>)
    ensures |DeriveStats(poems, users, subscribers).recentPoems| <= DeriveStats(poems, users, subscribers).poems
    ensures forall p :: p in DeriveStats(poems, users, subscribers).recentPoems ==> p in poems
  {
  }

  function RawGet(url: string): Api.Request
  {
    Api.Request(Api.GET, url, map[], NoBody)
  }

  class Dashboard {
    var stats: Stats

    constructor ()
      ensures stats == InitialStats
    {
      stats := InitialStats;
    }

    /**
     * `fetchDashboardStats`: the three requests are made one after another,
     * the first failure stops the rest, and the statistics change only when
     * all three succeed.
     */
    method FetchDashboardStats(env: Env, poemsRes: Response<seq<Poem>>, usersRes: Response<seq<User>>,
                               emailRes: Response<seq<Subscriber>>)
      modifies this`stats, env
      ensures env.storage == old(env.storage)
      ensures env.trace == old(env.trace) + [Sent(RawGet(PoemsUrl))]
        + (if poemsRes.Ok? then [Sent(RawGet(UsersUrl))] else [])
        + (if poemsRes.Ok? && usersRes.Ok? then [Sent(RawGet(SubscribersCountUrl))] else [])
      ensures poemsRes.Ok? && usersRes.Ok? && emailRes.Ok? ==>
        stats == DeriveStats(poemsRes.data, usersRes.data, emailRes.data)
      ensures !(poemsRes.Ok? && usersRes.Ok? && emailRes.Ok?) ==> stats == old(stats)
    {
      env.SendRaw(RawGet(PoemsUrl));
      if poemsRes.Failed? {
        return;
      }
      env.SendRaw(RawGet(UsersUrl));
      if usersRes.Failed? {
        return;
      }
      env.SendRaw(RawGet(SubscribersCountUrl));
      if emailRes.Failed? {
        return;
      }
      stats := DeriveStats(poemsRes.data, usersRes.data, emailRes.data);
    }
  }

  /** The create request, which carries the stored token itself rather than through the shared client. */
  function CreateRequest(title: string, content: string, author: string, token: string): Api.Request
  {
    Api.Request(Api.POST, PoemsUrl, map[Api.Authorization := "Bearer " + token], NewPoem(title, content, author))
  }

  function NotifyRequest(title: string, author: string, now: string): Api.Request
  {
    Api.Request(Api.POST, SendEmailUrl, map[], PoemNotice(title, author, now))
  }

  /** The inner add-poem form of the panel. */
  class QuickPoemForm {
    var title: string
    var content: string
    var author: string
    var loading: bool
    var message: string

    constructor ()
      ensures title == "" && content == "" && author == "" && !loading && message == ""
    {
      title, content, author, loading, message := "", "", "", false, "";
    }

    /**
     * `handleSubmit`. `now` is the ISO timestamp the clock would give. The
     * plain axios import keeps the default status check, so a create or a
     * notification answered outside 2xx throws like a network error and
     * reports the whole submission as failed, keeping the fields. A create
     * resolved with a 2xx status other than 201 changes nothing but `loading`.
     */
    method HandleSubmit(env: Env, created: Response<()>, notified: Response<()>, now: string)
      modifies this, env
      ensures !loading
      ensures env.storage == old(env.storage)
      ensures !Api.HasToken(old(env.GetText(TokenKey))) ==>
        message == MissingToken && env.trace == old(env.trace)
        && title == old(title) && content == old(content) && author == old(author)
      ensures Api.HasToken(old(env.GetText(TokenKey))) ==>
        env.trace == old(env.trace)
          + [Sent(CreateRequest(old(title), old(content), old(author), old(env.GetText(TokenKey)).value))]
          + (if Resolved(created) && created.status == 201 then [Sent(NotifyRequest(old(title), old(author), now))] else [])
      ensures Api.HasToken(old(env.GetText(TokenKey))) && Resolved(created) && created.status == 201 && Resolved(notified) ==>
        message == Added && title == "" && content == "" && author == ""
      ensures Api.HasToken(old(env.GetText(TokenKey))) && !(Resolved(created) && created.status == 201 && Resolved(notified)) ==>
        title == old(title) && content == old(content) && author == old(author)
      ensures Api.HasToken(old(env.GetText(TokenKey))) && (!Resolved(created) || (created.status == 201 && !Resolved(notified))) ==>
        message == AddFailed
      ensures Api.HasToken(old(env.GetText(TokenKey))) && Resolved(created) && created.status != 201 ==>
        message == old(message)
    {
      loading := true;
      var token := env.GetText(TokenKey);
      if !Api.HasToken(token) {
        message := MissingToken;
        loading := false;
        return;
      }
      env.SendRaw(CreateRequest(title, content, author, token.value));
      if !Resolved(created) {
        message := AddFailed;
      } else if created.status == 201 {
        message := Added;
        env.SendRaw(NotifyRequest(title, author, now));
        if Resolved(notified) {
          title, content, author := "", "", "";
        } else {
          message := AddFailed;
        }
      }
      loading := false;
    }
  }
}
