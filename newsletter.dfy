/**
 * The newsletter signup box: an empty address is refused locally; any other
 * text is posted to `/subscribe`, and the server's message is shown.
 */
module Newsletter {
  import opened Records
  import opened Browser
  import Api

  const EmptyMessage := "Please enter a valid email."
  const FailureMessage := "Subscription failed. Try again."

  function SubscribeCall(email: string): Api.Call
  {
    Api.Call(Api.POST, "/subscribe", EmailOnly(email))
  }

  class NewsletterSignup {
    var email: string
    var message: string
    var loading: bool

    constructor ()
      ensures email == "" && message == "" && !loading
    {
      email, message, loading := "", "", false;
    }

    /**
     * `handleSubscribe`: only emptiness is checked, not the form of the
     * address; success clears the box, failure keeps it.
     */
    method HandleSubscribe(env: Env, response: Response<SubscribeReply>)
      modifies this, env
      ensures env.storage == old(env.storage)
      ensures old(email) == "" ==>
        message == EmptyMessage && email == old(email) && loading == old(loading)
        && env.trace == old(env.trace)
      ensures old(email) != "" ==>
        !loading
        && env.trace == old(env.trace) + [Sent(Api.Dispatched(SubscribeCall(old(email)), map[], old(env.GetText(TokenKey))))]
      ensures old(email) != "" && response.Ok? ==> message == response.data.message && email == ""
      ensures old(email) != "" && response.Failed? ==> message == FailureMessage && email == old(email)
    {
      if email == "" {
        message := EmptyMessage;
        return;
      }
      loading := true;
      env.Send(SubscribeCall(email), map[]);
      match response {
        case Ok(_, reply) =>
          message := reply.message;
          email := "";
        case Failed =>
          message := FailureMessage;
      }
      loading := false;
    }
  }

  /** An address without `@` passes the local check and is posted. */
  method UncheckedAddressIsPosted(storage: map<string, Value>) returns (trace: seq<Effect>)
    ensures |trace| == 1 && trace[0].Sent?
    ensures trace[0].request.verb == Api.POST && trace[0].request.url == "/subscribe"
    ensures trace[0].request.body == EmailOnly("not-an-email")
  {
    var env := new Env(storage);
    var signup := new NewsletterSignup();
    signup.email := "not-an-email";
    signup.HandleSubscribe(env, Failed);
    trace := env.trace;
  }
}
