/** Abstract outcomes of the HTTP calls the views make, and the JavaScript
    truthiness rule the views apply to the messages that come back.
    The backend is not part of this model: every call is an input value. */
module Http {

  datatype Option<+T> = None | Some(value: T)

  /** A string is truthy in JavaScript exactly when it is present and non-empty. */
  predicate Truthy(m: Option<string>) {
    m.Some? && m.value != ""
  }

  /** `m || fallback`: the message itself when it is truthy, else the fallback. */
  function OrElse(m: Option<string>, fallback: string): (r: string)
    ensures r == fallback || (m == Some(r) && r != "")
    ensures fallback != "" ==> r != ""
    ensures Truthy(m) ==> r == m.value
  {
    if Truthy(m) then m.value else fallback
  }

  /** The `{ success, message, data }` object every backend response carries.
      An absent or falsy `success` is `false`; an absent `message` or `data` is `None`. */
  datatype Envelope<T> = Envelope(success: bool, message: Option<string>, data: Option<T>)

  /** The message field of a response body; `None` when the body is not an envelope. */
  function MessageOf<T>(body: Option<Envelope<T>>): (m: Option<string>)
    ensures body.Some? ==> m == body.value.message
    ensures body.None? ==> m.None?
  {
    if body.Some? then body.value.message else None
  }

  /** The data field of a response body; `None` when the body or its data is missing. */
  function DataOf<T>(body: Option<Envelope<T>>): (d: Option<T>)
    ensures body.Some? ==> d == body.value.data
    ensures body.None? ==> d.None?
  {
    if body.Some? then body.value.data else None
  }

  /** What one axios request ends in, before axios decides whether to reject.
      `body` is `None` when the response data is not an envelope object (an empty
      or plain-text body): reading a field of it gives `undefined`, reading a
      field of that field throws a TypeError. */
  datatype Exchange<T> =
    | Answered(status: int, body: Option<Envelope<T>>)
    | NoAnswer   // the request went out and no response came back
    | NotSent    // the request could not be set up

  /** Which statuses axios resolves with instead of rejecting (`validateStatus`). */
  datatype StatusRule = Only2xx | Below500

  /** HTTP success, the default `validateStatus` and the fetch API's `response.ok`. */
  predicate IsOk(status: int) {
    200 <= status < 300
  }

  predicate Accepts(rule: StatusRule, status: int) {
    match rule
    case Only2xx => IsOk(status)
    case Below500 => status < 500
  }

  /** What a `catch` block receives. */
  datatype Thrown =
    | AxiosResponse(status: int, message: Option<string>)  // `err.response` is set
    | AxiosRequest                                          // only `err.request` is set
    | AxiosSetup                                            // an axios error with neither
    | NotAxios                                              // any other error, such as a TypeError

  datatype Settled<T> = Fulfilled(status: int, body: Option<Envelope<T>>) | Rejected(thrown: Thrown)

  /** How axios settles a request under a status rule. */
  function Axios<T>(x: Exchange<T>, rule: StatusRule): (s: Settled<T>)
    ensures s.Fulfilled? <==> x.Answered? && Accepts(rule, x.status)
    ensures s.Fulfilled? ==> s.status == x.status && s.body == x.body
    ensures s.Rejected? ==> s.thrown != NotAxios
    ensures s.Rejected? && x.Answered? ==> s.thrown == AxiosResponse(x.status, MessageOf(x.body))
    ensures x.NoAnswer? ==> s == Rejected(AxiosRequest)
    ensures x.NotSent? ==> s == Rejected(AxiosSetup)
  {
    match x
    case Answered(status, body) =>
      if Accepts(rule, status) then Fulfilled(status, body)
      else Rejected(AxiosResponse(status, MessageOf(body)))
    case NoAnswer => Rejected(AxiosRequest)
    case NotSent => Rejected(AxiosSetup)
  }

  /** With `validateStatus: status < 500` only a server error (or no response
      at all) reaches the `catch` block. */
  lemma Below500RejectsOnlyServerErrors<T>(x: Exchange<T>)
    ensures Axios(x, Below500).Rejected? <==> !x.Answered? || x.status >= 500
  {
  }

  /** The messages a view's `catch` block picks from, by the kind of error. */
  datatype CatchMessages = CatchMessages(responseFallback: string, noResponse: string,
                                         otherAxios: string, unexpected: string)

  /** The classification written `if (axios.isAxiosError(err)) { if (err.response) …
      else if (err.request) … else … } else …`. */
  function Classify(t: Thrown, m: CatchMessages): (msg: string)
    ensures t.AxiosResponse? ==> msg == OrElse(t.message, m.responseFallback)
    ensures t.AxiosRequest? ==> msg == m.noResponse
    ensures t.AxiosSetup? ==> msg == m.otherAxios
    ensures t.NotAxios? ==> msg == m.unexpected
  {
    match t
    case AxiosResponse(_, message) => OrElse(message, m.responseFallback)
    case AxiosRequest => m.noResponse
    case AxiosSetup => m.otherAxios
    case NotAxios => m.unexpected
  }

  /** Unless the server's own message is shown, the chosen message is one of the
      four fixed texts, and exactly the one for the error's kind. */
  lemma ClassifyPicksOne(t: Thrown, m: CatchMessages)
    ensures Classify(t, m) in {m.responseFallback, m.noResponse, m.otherAxios, m.unexpected}
            || (t.AxiosResponse? && Truthy(t.message) && Classify(t, m) == t.message.value)
  {
  }

  /** What `await fetch(…)` followed by `await response.json()` ends in. */
  datatype FetchReply<T> =
    | Replied(status: int, json: Json<T>)
    | NetworkError(reason: string)   // fetch rejects; `reason` is the error's message

  datatype Json<T> = Parsed(envelope: Envelope<T>) | Unparsable(reason: string)
}
