/** The request-level behaviour configured in app.js: the middleware that
    remembers the "return-to" URL in the session, the catch-all that turns an
    unmatched route into a 404 error, the error handler's defaults, and the
    session duration constants. */
module App {
  import opened Express

  // ---------------------------------------------------------------------
  // Session durations

  /** The session cookie's `maxAge`, in milliseconds. */
  const CookieMaxAgeMs: nat := 1000 * 60 * 60 * 24 * 7
  /** The session store's `touchAfter`, in seconds. */
  const TouchAfterSeconds: nat := 24 * 60 * 60

  const MsPerSecond: nat := 1000
  const SecondsPerDay: nat := 86_400

  /** The cookie lives exactly seven days and the store rewrites an unchanged
      session at most once a day. */
  lemma SessionDurations()
    ensures CookieMaxAgeMs == 7 * SecondsPerDay * MsPerSecond == 604_800_000
    ensures TouchAfterSeconds == SecondsPerDay
    ensures CookieMaxAgeMs == 7 * TouchAfterSeconds * MsPerSecond
  {
  }

  // ---------------------------------------------------------------------
  // The "return-to" slot

  /** The two paths the middleware does not record: `['/login', '/']` tested
      with `includes`, that is by exact string equality. */
  predicate IsExcluded(url: string)
  {
    url == "/login" || url == "/"
  }

  /** The slot after one request to `url`: unchanged for an excluded path,
      otherwise exactly `url`. */
  function NextReturnTo(returnTo: Option<string>, url: string): (r: Option<string>)
    ensures IsExcluded(url) ==> r == returnTo
    ensures !IsExcluded(url) ==> r == Some(url)
  {
    if IsExcluded(url) then returnTo else Some(url)
  }

  /** The slot after the requests `urls`, in order, starting from `initial`. */
  function ReturnToAfter(initial: Option<string>, urls: seq<string>): Option<string>
  {
    if urls == [] then initial
    else NextReturnTo(ReturnToAfter(initial, urls[..|urls| - 1]), urls[|urls| - 1])
  }

  /** `urls[i]` is recorded and every later URL is excluded. */
  predicate LastRecordedAt(urls: seq<string>, i: int)
  {
    0 <= i < |urls| && !IsExcluded(urls[i]) && forall j :: i < j < |urls| ==> IsExcluded(urls[j])
  }

  /** When every request was to an excluded path, the slot keeps what it
      held before. */
  lemma {:induction false} ExcludedRequestsKeepSlot(initial: Option<string>, urls: seq<string>)
    requires forall j :: 0 <= j < |urls| ==> IsExcluded(urls[j])
    ensures ReturnToAfter(initial, urls) == initial
  {
    if urls != [] {
      var front := urls[..|urls| - 1];
      assert forall j :: 0 <= j < |front| ==> front[j] == urls[j];
      ExcludedRequestsKeepSlot(initial, front);
    }
  }

  /** The last writer wins: after any sequence of requests served one at a
      time, the slot holds the last URL that is not excluded, whatever it held
      before. */
  lemma {:induction false} LastWriterWins(initial: Option<string>, urls: seq<string>, i: int)
    requires LastRecordedAt(urls, i)
    ensures ReturnToAfter(initial, urls) == Some(urls[i])
  {
    var n := |urls| - 1;
    if i < n {
      var front := urls[..n];
      assert IsExcluded(urls[n]);
      assert forall j :: 0 <= j < |front| ==> front[j] == urls[j];
      assert LastRecordedAt(front, i);
      LastWriterWins(initial, front, i);
    }
  }

  /** The middleware registered before the routes: record the URL of every
      request except `/login` and `/`, and expose the current user to the
      templates. */
  method RememberReturnTo(ex: Exchange)
    modifies ex, ex.session
    ensures ex.session.returnTo == NextReturnTo(old(ex.session.returnTo), ex.originalUrl)
    ensures ex.currentUser == ex.user
    ensures ex.user == old(ex.user) && ex.reply == old(ex.reply) && ex.flashes == old(ex.flashes)
    ensures ex.session.passportUser == old(ex.session.passportUser)
  {
    if !IsExcluded(ex.originalUrl) {
      ex.session.returnTo := Some(ex.originalUrl);
    }
    ex.currentUser := ex.user;
  }

  /** One session serving the requests `urls` one at a time, each passing
      through the middleware; overlapping requests are not modelled. */
  method Browse(session: Session, urls: seq<string>, user: Option<User>)
    modifies session
    ensures session.returnTo == ReturnToAfter(old(session.returnTo), urls)
    ensures session.passportUser == old(session.passportUser)
  {
    var k := 0;
    while k < |urls|
      invariant 0 <= k <= |urls|
      invariant session.returnTo == ReturnToAfter(old(session.returnTo), urls[..k])
      invariant session.passportUser == old(session.passportUser)
    {
      var ex := new Exchange(urls[k], session, user);
      RememberReturnTo(ex);
      assert urls[..k + 1][..k] == urls[..k];
      k := k + 1;
    }
    assert urls[..k] == urls;
  }

  // ---------------------------------------------------------------------
  // Errors

  /** The catch-all `app.all('*')`: any request no earlier route answered is
      handed on as an error with status 404 and message "Page not found". */
  method CatchAll(ex: Exchange) returns (err: ErrorObject)
    modifies ex
    ensures fresh(err)
    ensures err.statusCode == Some(404) && err.message == Some("Page not found")
    ensures ex.reply == Forwarded(err)
    ensures ex.user == old(ex.user) && ex.flashes == old(ex.flashes)
    ensures ex.currentUser == old(ex.currentUser)
  {
    err := new ErrorObject("Page not found", 404);
    ex.reply := Forwarded(err);
  }

  const DefaultStatus: int := 500
  const DefaultMessage: string := "Oh No! Something went wrong"

  /** `const { statusCode = 500 } = err`: the default replaces only an
      undefined status code. Here `None` is `undefined` only; a null
      status code is kept as null, which this model does not represent. */
  function ResponseStatus(statusCode: Option<int>): (status: int)
    ensures statusCode.Some? ==> status == statusCode.value
    ensures statusCode.None? ==> status == DefaultStatus
  {
    match statusCode
    case Some(code) => code
    case None => DefaultStatus
  }

  /** `if (!err.message) err.message = ...`: a missing or empty message is
      replaced by the generic one, any other message is kept. */
  function ResponseMessage(message: Option<string>): (m: string)
    ensures m != ""
    ensures message.Some? && message.value != "" ==> m == message.value
    ensures message.None? || message.value == "" ==> m == DefaultMessage
  {
    if message.None? || message.value == "" then DefaultMessage else message.value
  }

  /** The error handler: normalise the error's message in place and render
      the `error` view with the error's status, 500 by default. */
  method HandleError(err: ErrorObject, ex: Exchange)
    modifies err, ex
    ensures err.message == Some(ResponseMessage(old(err.message)))
    ensures err.statusCode == old(err.statusCode)
    ensures ex.reply == RenderedError(ResponseStatus(err.statusCode), ResponseMessage(old(err.message)))
    ensures ex.user == old(ex.user) && ex.flashes == old(ex.flashes)
    ensures ex.currentUser == old(ex.currentUser)
  {
    if err.message.None? || err.message.value == "" {
      err.message := Some(DefaultMessage);
    }
    ex.reply := RenderedError(ResponseStatus(err.statusCode), err.message.value);
  }

  /** A request that no route answers ends in the `error` view with status
      404 and the message "Page not found". */
  method ServeUnmatched(ex: Exchange)
    modifies ex
    ensures ex.reply == RenderedError(404, "Page not found")
    ensures ex.user == old(ex.user) && ex.flashes == old(ex.flashes)
    ensures ex.currentUser == old(ex.currentUser)
  {
    var err := CatchAll(ex);
    HandleError(err, ex);
  }
}
