/**
 * The parts of an HTTP exchange the handlers touch: the cookies, status code
 * and JSON body of the response, and the way a handler ends.
 */
module Http {
  import opened Common
  import opened Errors

  /** `res.cookie(name, value, options)`: `expires` is a time in milliseconds
      since the epoch, `None` for a session cookie. */
  datatype Cookie = Cookie(name: string, value: string, expires: Option<int>, httpOnly: bool, secure: bool)

  /** How a handler ends: it sent a response, it called `next()` to hand the
      request on, or it called `next(err)` (a thrown error inside a
      `catchAsync` handler ends the same way). */
  datatype Outcome = Sent | Passed | Failed(err: Err)

  /** The response object, with a body of type `B`. */
  class Response<B> {
    var cookies: seq<Cookie>
    var statusCode: Option<int>
    var body: Option<B>

    constructor ()
      ensures cookies == [] && statusCode == None && body == None
    {
      cookies := [];
      statusCode := None;
      body := None;
    }

    /** `res.cookie(...)`: the cookie is added to the response. */
    method SetCookie(c: Cookie)
      modifies this
      ensures cookies == old(cookies) + [c]
      ensures statusCode == old(statusCode) && body == old(body)
    {
      cookies := cookies + [c];
    }

    /** `res.status(code).json(b)`. */
    method Send(code: int, b: B)
      modifies this
      ensures statusCode == Some(code) && body == Some(b)
      ensures cookies == old(cookies)
    {
      statusCode := Some(code);
      body := Some(b);
    }
  }
}
