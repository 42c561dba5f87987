/** The slice of Express and Node's HTTP response that the handlers touch:
    how a handler or middleware finishes (exactly one of redirect, render,
    `next()` or `next(err)`), the error objects passed to `next`, the user
    record kept in the session and shown by the profile view, and the
    response's header map. */
module Express {
  import opened Wrappers

  /** An `Error` object handed to `next(err)`: its message and, when the
      handler set one, its `status`. */
  datatype HttpError = HttpError(message: string, status: Option<int>)

  /** The LINE profile (`LineProfile` in src/controllers/authController.ts),
      the only thing the login flow keeps in the session. */
  datatype LineProfile = LineProfile(
    userId: string,
    displayName: string,
    pictureUrl: Option<string>,
    statusMessage: Option<string>)

  /** How one call of a handler or middleware ends. */
  datatype Outcome =
    | Redirect(location: string)               // res.redirect(location)
    | Render(view: string, user: LineProfile)  // res.render(view, { user })
    | Next                                     // next()
    | NextErr(error: HttpError)                // next(error)

  /** The response object's outgoing headers. */
  class Response {
    var headers: map<string, string>

    constructor (headers: map<string, string>)
      ensures this.headers == headers
    {
      this.headers := headers;
    }

    /** `res.setHeader(name, value)`: replaces any header of the same name
        and touches no other. */
    method SetHeader(name: string, value: string)
      modifies this
      ensures headers == old(headers)[name := value]
    {
      headers := headers[name := value];
    }
  }
}
