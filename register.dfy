/**
 * The registration page: client-side validation of name, email and password,
 * then `POST /auth/register`; success sends the reader to the login page
 * with a message.
 */
module Register {
  import opened Records
  import opened Text
  import opened Browser
  import Api

  const NameError := "Name must be at least 3 characters"
  const EmailError := "Enter valid email"
  const PasswordError := "Password must be 6+ characters"
  const GeneralError := "Registration failed. Try again."
  const SuccessMessage := "Registration successful! Please log in."

  /** The errors `validate` records, one per failing field. */
  function RegisterErrors(name: string, email: string, password: string): (errors: map<string, string>)
    ensures "name" in errors <==> |name| < 3
    ensures "email" in errors <==> '@' !in email
    ensures "password" in errors <==> |password| < 6
    ensures errors.Keys <= {"name", "email", "password"}
    ensures "name" in errors ==> errors["name"] == NameError
    ensures "email" in errors ==> errors["email"] == EmailError
    ensures "password" in errors ==> errors["password"] == PasswordError
  {
    var withName := if |name| < 3 then map["name" := NameError] else map[];
    var withEmail := if '@' in email then withName else withName["email" := EmailError];
    if |password| < 6 then withEmail["password" := PasswordError] else withEmail
  }

  /** A form passes `validate` exactly when no field fails its own check. */
  lemma RegisterValidIff(name: string, email: string, password: string)
    ensures RegisterErrors(name, email, password) == map[] <==> |name| >= 3 && '@' in email && |password| >= 6
  {
    if |name| < 3 {
      assert "name" in RegisterErrors(name, email, password);
    } else if '@' !in email {
      assert "email" in RegisterErrors(name, email, password);
    } else if |password| < 6 {
      assert "password" in RegisterErrors(name, email, password);
    }
  }

  function RegisterCall(name: string, email: string, password: string): Api.Call
  {
    Api.RegisterUser(Registration(name, email, password))
  }

  class RegisterPage {
    var name: string
    var email: string
    var password: string
    var errors: map<string, string>
    var loading: bool

    constructor ()
      ensures name == "" && email == "" && password == "" && errors == map[] && !loading
    {
      name, email, password, errors, loading := "", "", "", map[], false;
    }

    /** `validate`: three independent checks into one error map, then whether it is empty. */
    method Validate() returns (ok: bool)
      modifies this`errors
      ensures errors == RegisterErrors(name, email, password)
      ensures ok <==> errors == map[]
    {
      var newErrors: map<string, string> := map[];
      if |name| < 3 {
        newErrors := newErrors["name" := NameError];
      }
      IncludesChar(email, '@');
      if !Includes(email, "@") {
        newErrors := newErrors["email" := EmailError];
      }
      if |password| < 6 {
        newErrors := newErrors["password" := PasswordError];
      }
      errors := newErrors;
      ok := |newErrors| == 0;
    }

    /** `handleSubmit`: an invalid form sends nothing; a valid one posts and then navigates or shows the general error. */
    method HandleSubmit(env: Env, response: Response<()>)
      modifies this`errors, this`loading, env
      ensures env.storage == old(env.storage)
      ensures RegisterErrors(name, email, password) != map[] ==>
        errors == RegisterErrors(name, email, password) && loading == old(loading)
        && env.trace == old(env.trace)
      ensures RegisterErrors(name, email, password) == map[] ==> !loading
      ensures RegisterErrors(name, email, password) == map[] && response.Ok? ==>
        errors == map[]
        && env.trace == old(env.trace) + [
          Sent(Api.Dispatched(RegisterCall(name, email, password), map[], old(env.GetText(TokenKey)))),
          Navigated("/login", false, Some(SuccessMessage))]
      ensures RegisterErrors(name, email, password) == map[] && response.Failed? ==>
        errors == map["general" := GeneralError]
        && env.trace == old(env.trace) + [
          Sent(Api.Dispatched(RegisterCall(name, email, password), map[], old(env.GetText(TokenKey))))]
    {
      var ok := Validate();
      if !ok {
        return;
      }
      loading := true;
      env.Send(RegisterCall(name, email, password), map[]);
      match response {
        case Ok(_, _) =>
          env.Navigate("/login", false, Some(SuccessMessage));
        case Failed =>
          errors := map["general" := GeneralError];
      }
      loading := false;
    }
  }
}
