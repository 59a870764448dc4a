/**
 * The browser as the pages see it: `localStorage` as a key-to-value map, and
 * an ordered trace of every outward effect (storage writes, HTTP requests,
 * navigation, the auth context's `login`, toasts, the form's `onSubmit`).
 * Responses are not produced here: each page method receives the outcome of
 * its request as a parameter.
 */
module Browser {
  import opened Records
  import Api

  /** A stored value; JSON text is represented by the record it encodes. */
  datatype Value = Text(text: string) | DraftForm(fields: PoemFields) | UserJson(data: LoginData)

  datatype ToastKind = SuccessToast | ErrorToast

  datatype Effect =
    | Stored(key: string, value: Value)
    | Removed(key: string)
    | Sent(request: Api.Request)
    | Navigated(to: string, replace: bool, message: Option<string>)
    | LoggedIn(data: LoginData)
    | Toasted(kind: ToastKind, text: string)
    | Submitted(payload: Payload)

  const TokenKey := "token"
  const UserKey := "user"

  class Env {
    var storage: map<string, Value>
    var trace: seq<Effect>

    constructor (storage: map<string, Value>)
      ensures this.storage == storage && trace == []
    {
      this.storage := storage;
      trace := [];
    }

    /** `localStorage.getItem(key)` for a key that holds text, `null` otherwise. */
    function GetText(key: string): Option<string>
      reads this
    {
      if key in storage && storage[key].Text? then Some(storage[key].text) else None
    }

    method SetItem(key: string, value: Value)
      modifies this
      ensures storage == old(storage)[key := value]
      ensures trace == old(trace) + [Stored(key, value)]
    {
      storage := storage[key := value];
      trace := trace + [Stored(key, value)];
    }

    method RemoveItem(key: string)
      modifies this
      ensures storage == old(storage) - {key}
      ensures trace == old(trace) + [Removed(key)]
    {
      storage := storage - {key};
      trace := trace + [Removed(key)];
    }

    /**
     * A request through the shared client: the config is built from the call
     * and `headers`, passed through the interceptor with the stored token,
     * and sent.
     */
    method Send(call: Api.Call, headers: map<string, string>)
      modifies this
      ensures storage == old(storage)
      ensures trace == old(trace) + [Sent(Api.Dispatched(call, headers, old(GetText(TokenKey))))]
    {
      var config := new Api.RequestConfig(call.verb, call.path, headers, call.body);
      config := Api.Intercept(config, GetText(TokenKey));
      trace := trace + [Sent(config.Snapshot())];
    }

    /** A request through plain axios, which has no interceptor. */
    method SendRaw(request: Api.Request)
      modifies this
      ensures storage == old(storage)
      ensures trace == old(trace) + [Sent(request)]
    {
      trace := trace + [Sent(request)];
    }

    method Navigate(to: string, replace: bool, message: Option<string>)
      modifies this
      ensures storage == old(storage)
      ensures trace == old(trace) + [Navigated(to, replace, message)]
    {
      trace := trace + [Navigated(to, replace, message)];
    }

    /** The auth context's `login(data)`; the context itself is not part of this model. */
    method Login(data: LoginData)
      modifies this
      ensures storage == old(storage)
      ensures trace == old(trace) + [LoggedIn(data)]
    {
      trace := trace + [LoggedIn(data)];
    }

    method Toast(kind: ToastKind, text: string)
      modifies this
      ensures storage == old(storage)
      ensures trace == old(trace) + [Toasted(kind, text)]
    {
      trace := trace + [Toasted(kind, text)];
    }

    /** The poem form's `onSubmit` prop, supplied by the page that hosts the form. */
    method Submit(payload: Payload)
      modifies this
      ensures storage == old(storage)
      ensures trace == old(trace) + [Submitted(payload)]
    {
      trace := trace + [Submitted(payload)];
    }
  }
}
