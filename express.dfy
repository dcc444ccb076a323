/** The framework state that the application code reads and writes: the
    server-side session kept by express-session, JavaScript error objects,
    and one request/response pair ("exchange") with the flash messages queued
    during it and the reply that ends it. JavaScript `undefined` and `null` are
    `None`, except where a member's documentation says `undefined` only. */
module Express {

  datatype Option<+T> = None | Some(value: T)

  /** A MongoDB ObjectId, in its string form. */
  type ObjectId = string

  /** The user document that passport keeps on `req.user`. */
  datatype User = User(id: ObjectId, username: string, email: string)

  /** One connect-flash message, queued by `req.flash(kind, message)`. */
  datatype Flash = Flash(kind: string, message: string)

  /** A JavaScript Error object as Express passes it to `next(err)`; the
      error handler assigns to its `message` in place. */
  class ErrorObject {
    var message: Option<string>
    var statusCode: Option<int>

    /** `new ExpressError(message, statusCode)`. */
    constructor (message: string, statusCode: int)
      ensures this.message == Some(message) && this.statusCode == Some(statusCode)
    {
      this.message := Some(message);
      this.statusCode := Some(statusCode);
    }
  }

  /** How a request ends: not yet answered, a redirect, a rendered view with
      its status, the `error` view with a status and a message, or an error
      handed on to the next error-handling middleware. */
  datatype Reply =
    | Pending
    | Redirected(location: string)
    | Rendered(view: string, status: int)
    | RenderedError(status: int, message: string)
    | Forwarded(err: ErrorObject)

  /** The server-side session: the remembered "return-to" URL and the key
      passport serialises into it on login. The serializer configured for the
      User model (passport-local-mongoose) stores the username. */
  class Session {
    var returnTo: Option<string>
    var passportUser: Option<string>

    /** A fresh session holds neither. */
    constructor ()
      ensures returnTo == None && passportUser == None
    {
      returnTo := None;
      passportUser := None;
    }
  }

  /** One request (`req`) together with its response (`res`). */
  class Exchange {
    const originalUrl: string
    const session: Session
    /** `req.user`, set by passport. */
    var user: Option<User>
    /** Flash messages queued during this request. */
    var flashes: seq<Flash>
    /** `res.locals.currentUser`. */
    var currentUser: Option<User>
    var reply: Reply

    constructor (originalUrl: string, session: Session, user: Option<User>)
      ensures this.originalUrl == originalUrl && this.session == session && this.user == user
      ensures flashes == [] && currentUser == None && reply == Pending
    {
      this.originalUrl := originalUrl;
      this.session := session;
      this.user := user;
      flashes := [];
      currentUser := None;
      reply := Pending;
    }
  }

  /** The effect of passport's `req.login(user, cb)` once it has finished:
      on success `req.user` is the user and the session holds the user's
      username, the key passport-local-mongoose serialises;
      on failure `req.user` is reset and the session is left as it was. */
  method PassportLogIn(ex: Exchange, u: User, failure: Option<ErrorObject>)
    modifies ex, ex.session
    ensures ex.user == (if failure.None? then Some(u) else None)
    ensures ex.session.passportUser ==
      (if failure.None? then Some(u.username) else old(ex.session.passportUser))
    ensures ex.session.returnTo == old(ex.session.returnTo)
    ensures ex.flashes == old(ex.flashes) && ex.reply == old(ex.reply)
    ensures ex.currentUser == old(ex.currentUser)
  {
    if failure.None? {
      ex.user := Some(u);
      ex.session.passportUser := Some(u.username);
    } else {
      ex.user := None;
    }
  }

  /** The effect of passport's synchronous `req.logOut()`: no user on the
      request and none in the session, whatever was there before. */
  method PassportLogOut(ex: Exchange)
    modifies ex, ex.session
    ensures ex.user == None && ex.session.passportUser == None
    ensures ex.session.returnTo == old(ex.session.returnTo)
    ensures ex.flashes == old(ex.flashes) && ex.reply == old(ex.reply)
    ensures ex.currentUser == old(ex.currentUser)
  {
    ex.user := None;
    ex.session.passportUser := None;
  }
}
