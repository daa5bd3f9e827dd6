/** The interface of the HTTP kernel that the controllers call: the request
    accessors (`body`, `getId`, `getCommentId`, `getSearchParams`), the
    per-client session (`get`, `set`, `destroy`) and the response
    (`setCookie`, `send`). The kernel's own implementation (routing, parsing,
    serialisation) is not part of this model; these members state only what
    the handlers rely on. */
module Http {
  import opened Wrappers
  import opened JsValue

  /** The status codes the controllers send. */
  datatype StatusCode =
    | OK
    | Created
    | NoContent
    | BadRequest
    | Unauthorized
    | Forbidden
    | NotFound
    | InternalServerError

  /** The single reply a handler passes to `res.send`. */
  datatype Envelope = Envelope(
    statusCode: StatusCode,
    message: string,
    redirect: Option<string>,
    template: Option<string>,
    payload: Option<Value>)

  /** `{statusCode, message}` and nothing else. */
  function Plain(status: StatusCode, message: string): Envelope {
    Envelope(status, message, None, None, None)
  }

  /** `{statusCode, message, redirect}`. */
  function Redirect(status: StatusCode, message: string, to: string): Envelope {
    Envelope(status, message, Some(to), None, None)
  }

  /** `{statusCode, message, template}`. */
  function View(status: StatusCode, message: string, template: string): Envelope {
    Envelope(status, message, None, Some(template), None)
  }

  /** An outbound cookie; only its name and value matter to the handlers. */
  datatype Cookie = Cookie(name: string, value: string)

  /** A per-client session: an opaque id and a key/value store. */
  class Session {
    const id: string
    var store: map<string, Value>
    var destroyed: bool

    constructor (id: string)
      ensures this.id == id && store == map[] && !destroyed
    {
      this.id := id;
      store := map[];
      destroyed := false;
    }

    /** `session.get(key)`: a missing key reads as `undefined`. */
    function Get(key: string): Value
      reads this
    {
      if key in store then store[key] else Undefined
    }

    /** `session.set(key, value)`; a destroyed session ignores it. */
    method Set(key: string, v: Value)
      modifies this
      ensures destroyed == old(destroyed)
      ensures store == if destroyed then old(store) else old(store)[key := v]
    {
      if !destroyed {
        store := store[key := v];
      }
    }

    /** `session.destroy()`: the store is dropped and the id no longer resolves. */
    method Destroy()
      modifies this
      ensures destroyed && store == map[]
    {
      destroyed := true;
      store := map[];
    }
  }

  /** The outbound side of one exchange: the cookies accumulated so far and
      the envelope once it has been sent. */
  class Response {
    var cookies: seq<Cookie>
    var sent: Option<Envelope>

    constructor ()
      ensures cookies == [] && sent == None
    {
      cookies := [];
      sent := None;
    }

    /** `res.setCookie(c)`, allowed only before `send`. */
    method SetCookie(c: Cookie)
      requires sent == None
      modifies this
      ensures cookies == old(cookies) + [c] && sent == None
    {
      cookies := cookies + [c];
    }

    /** `res.send(e)`, allowed once per exchange. */
    method Send(e: Envelope)
      requires sent == None
      modifies this
      ensures sent == Some(e) && cookies == old(cookies)
    {
      sent := Some(e);
    }
  }

  /** An inbound request as the handlers see it: the parsed form body, the
      query string, the `:id` path parameters already coerced to numbers
      (`getId` is the first, `getCommentId` the last) and the session. */
  datatype Request = Request(
    body: map<string, string>,
    query: map<string, string>,
    id: Number,
    commentId: Number,
    session: Session)
  {
    /** `req.body.k`: a missing field reads as `undefined`. */
    function Body(k: string): Value {
      if k in body then Str(body[k]) else Undefined
    }

    /** `req.getSearchParams().get(k)`: a missing parameter reads as `null`. */
    function Search(k: string): Value {
      if k in query then Str(query[k]) else Null
    }
  }
}
