/**
 * The values the front end exchanges with the backend and keeps in local
 * storage: poems, users, subscribers, the login reply, the poem form's fields
 * and the payload it submits, and the shape of a JSON response body.
 */
module Records {

  /** A JavaScript value that may be `null`/`undefined`. */
  datatype Option<T> = None | Some(value: T)

  /**
   * The outcome of one HTTP request: the server answered with a status and a
   * body, or the request threw before any answer. Pages that do not read the
   * status receive `Ok` only for an answer the client resolved.
   */
  datatype Response<T> = Ok(status: int, data: T) | Failed

  /**
   * axios's default status check: only a 2xx answer resolves; any other
   * status rejects the promise just as a network error does.
   */
  predicate Resolved<T>(r: Response<T>)
  {
    r.Ok? && 200 <= r.status < 300
  }

  /** A poem as the admin list receives it from `GET /poems`. */
  datatype Poem = Poem(id: string, title: string, author: string, content: string)

  /** A user record of `GET /users`; every field may be missing. */
  datatype User = User(id: string, name: Option<string>, email: Option<string>, role: Option<string>)

  /** A subscriber record of `GET /subscribe`; the email may be missing. */
  datatype Subscriber = Subscriber(id: string, email: Option<string>)

  /** The reply of `POST /auth/login`: the bearer credential and the identity. */
  datatype LoginData = LoginData(token: string, id: string, name: string, email: string, role: string)

  /** The reply of `POST /subscribe`. */
  datatype SubscribeReply = SubscribeReply(message: string)

  /** A response body as far as `Array.isArray` and field access can tell it apart. */
  datatype Json<T> = JArray(items: seq<T>) | JObject(fields: map<string, Json<T>>) | JNull | JScalar

  /** The state of the poem authoring form; `tags` is the comma-separated text the author types. */
  datatype PoemFields = PoemFields(
    title: string, author: string, content: string, summary: string, theme: string,
    tags: string, coverImage: string, status: string, featured: bool)

  /** What the poem form hands to its `onSubmit` callback; `sendNotification` is absent in edit mode. */
  datatype Payload = Payload(
    title: string, author: string, content: string, summary: string, theme: string,
    tags: seq<string>, coverImage: string, status: string, featured: bool,
    sendNotification: Option<bool>)

  /** Request bodies. */
  datatype Body =
    | NoBody
    | Credentials(email: string, password: string)
    | Registration(name: string, email: string, password: string)
    | EmailOnly(email: string)
    | NewPoem(title: string, content: string, author: string)
    | PoemNotice(title: string, author: string, date: string)
}
