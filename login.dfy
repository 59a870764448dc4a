/**
 * The login page: client-side validation of email and password, then
 * `POST /auth/login`; on success the credential and the identity are stored,
 * the auth context is told, and the reader is sent to the poems.
 */
module Login {
  import opened Records
  import opened Text
  import opened Browser
  import Api

  const EmailError := "Enter a valid email"
  const PasswordError := "Password must be at least 6 characters"
  const GeneralError := "Invalid email or password"

  /** The errors `validate` records: each field is judged on its own, so both can appear. */
  function LoginErrors(email: string, password: string): (errors: map<string, string>)
    ensures "email" in errors <==> '@' !in email
    ensures "password" in errors <==> |password| < 6
    ensures errors.Keys <= {"email", "password"}
    ensures "email" in errors ==> errors["email"] == EmailError
    ensures "password" in errors ==> errors["password"] == PasswordError
  {
    var withEmail := if '@' in email then map[] else map["email" := EmailError];
    if |password| < 6 then withEmail["password" := PasswordError] else withEmail
  }

  /** A form passes `validate` exactly when the email has an `@` and the password at least six characters. */
  lemma LoginValidIff(email: string, password: string)
    ensures LoginErrors(email, password) == map[] <==> '@' in email && |password| >= 6
  {
    if '@' !in email {
      assert "email" in LoginErrors(email, password);
    } else if |password| < 6 {
      assert "password" in LoginErrors(email, password);
    }
  }

  /** The two checks are independent: a form failing both gets both messages. */
  lemma BothLoginErrors(email: string, password: string)
    requires '@' !in email && |password| < 6
    ensures LoginErrors(email, password) == map["email" := EmailError, "password" := PasswordError]
  {
  }

  /** The request a valid form sends. */
  function LoginCall(email: string, password: string): Api.Call
  {
    Api.LoginUser(Credentials(email, password))
  }

  class LoginPage {
    var email: string
    var password: string
    var errors: map<string, string>
    var loading: bool

    constructor ()
      ensures email == "" && password == "" && errors == map[] && !loading
    {
      email, password, errors, loading := "", "", map[], false;
    }

    /** `validate`: builds the error map field by field, shows it, and reports whether it is empty. */
    method Validate() returns (ok: bool)
      modifies this`errors
      ensures errors == LoginErrors(email, password)
      ensures ok <==> errors == map[]
    {
      var newErrors: map<string, string> := map[];
      IncludesChar(email, '@');
      if !Includes(email, "@") {
        newErrors := newErrors["email" := EmailError];
      }
      if |password| < 6 {
        newErrors := newErrors["password" := PasswordError];
      }
      errors := newErrors;
      ok := |newErrors| == 0;
    }

    /**
     * `handleSubmit`: an invalid form sends nothing; a valid one posts the
     * credentials and, when that succeeds, stores `token`, then `user`,
     * calls `login`, and navigates to `/poems`, in that order.
     */
    method HandleSubmit(env: Env, response: Response<LoginData>)
      modifies this`errors, this`loading, env
      ensures LoginErrors(email, password) != map[] ==>
        errors == LoginErrors(email, password) && loading == old(loading)
        && env.storage == old(env.storage) && env.trace == old(env.trace)
      ensures LoginErrors(email, password) == map[] ==> !loading
      ensures LoginErrors(email, password) == map[] && response.Ok? ==>
        errors == map[]
        && env.storage == old(env.storage)[TokenKey := Text(response.data.token)][UserKey := UserJson(response.data)]
        && env.trace == old(env.trace) + [
          Sent(Api.Dispatched(LoginCall(email, password), map[], old(env.GetText(TokenKey)))),
          Stored(TokenKey, Text(response.data.token)),
          Stored(UserKey, UserJson(response.data)),
          LoggedIn(response.data),
          Navigated("/poems", false, None)]
      ensures LoginErrors(email, password) == map[] && response.Failed? ==>
        errors == map["general" := GeneralError]
        && env.storage == old(env.storage)
        && env.trace == old(env.trace) + [Sent(Api.Dispatched(LoginCall(email, password), map[], old(env.GetText(TokenKey))))]
    {
      var ok := Validate();
      if !ok {
        return;
      }
      loading := true;
      errors := map[];
      env.Send(LoginCall(email, password), map[]);
      match response {
        case Ok(_, data) =>
          env.SetItem(TokenKey, Text(data.token));
          env.SetItem(UserKey, UserJson(data));
          env.Login(data);
          env.Navigate("/poems", false, None);
        case Failed =>
          errors := map["general" := GeneralError];
      }
      loading := false;
    }
  }
}
