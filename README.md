# YelpCamp request logic in Dafny

YelpCamp is a server-rendered campground listings site built on Express,
Mongoose and Passport. Most of its code is framework wiring. This project
models the parts that carry logic of their own and proves what they promise:

- **The "return-to" slot** (`app.js`). A middleware runs before every route.
  It stores the request's original URL in the session field `returnTo`,
  except for the two paths `/login` and `/`. After a successful login,
  `login` redirects to that field, or to `/campgrounds` when it is unset.
  The session is the class `Express.Session`. The middleware is the method
  `App.RememberReturnTo`. The pure step `App.NextReturnTo` and its fold
  `App.ReturnToAfter` specify them. `App.LastWriterWins` and
  `App.ExcludedRequestsKeepSlot` prove the "last writer wins" property.
- **Error normalisation** (`app.js`). An unmatched route becomes a 404
  "Page not found" error. The error handler defaults the status to 500 and
  replaces an empty message in place. The same file fixes the session
  duration constants.
- **Campground virtuals and shape rules** (`models/campground.js`):
  - the image `thumbnail`, a first-occurrence rewrite of `/upload`;
  - the map `popUpMarkup`;
  - the validators on `geometry`;
  - the review-removal request that the post-delete hook builds.
- **The user controller** (`controllers/users.js`): registration with
  automatic login, login's redirect choice, and logout. The library calls
  are inputs to the model: `User.register` is an arrow parameter and the
  `req.login` callback error is an option.

Files:

- `express.dfy` models the framework state: the session, JavaScript error
  objects, and a request/response pair with its flash messages and reply.
- `js_string.dfy` gives the JavaScript semantics of `indexOf` (for a start
  position within the string), of `replace` with a string pattern, and of
  `substring`.
- `app.dfy`, `campground.dfy` and `users.dfy` model the three source files.

JavaScript `undefined` and `null` are `None`, except in `CampgroundModel.Interpolate` and
`App.ResponseStatus`, where `None` is `undefined` only: a null title prints
"null", and a null `statusCode` is not replaced by 500.

Four behaviours of the code worth stating plainly:

- The code records `returnTo` on every request that reaches the middleware,
  not only when an unauthenticated user hits a gated route. Requests that
  `express.static` answers (app.js:50) never reach it; a request for a
  missing asset does, and is recorded.
- The code never clears `returnTo` after login.
- The exclusion of the login page is exact string equality, so
  `/login?x=1` is recorded (`UsersController.LoginPageWithQueryIsRemembered`).
- The cascade after a campground is deleted filters reviews on the field
  `id`, not on the review identifiers' own field `_id`.

## Model

| member | source | states |
|---|---|---|
| App.SessionDurations | app.js:58-76 | cookie `maxAge` is 604,800,000 ms = 7 days; store `touchAfter` is 86,400 s = 1 day; the cookie lives seven touch periods |
| App.NextReturnTo | app.js:139-141 | a request to exactly `/login` or `/` leaves the slot unchanged; any other URL becomes the slot's value exactly |
| App.ExcludedRequestsKeepSlot | app.js:137-147 | after a sequence of requests all to `/login` or `/`, the slot holds what it held before |
| App.LastWriterWins | app.js:137-147 | after any sequence of requests served one at a time the slot holds the last URL outside `/login` and `/`, whatever it held before |
| App.RememberReturnTo | app.js:137-147 | the middleware sets `returnTo` by that rule, sets `res.locals.currentUser` to `req.user`, and changes nothing else |
| App.Browse | app.js:137-147 | one session serving a sequence of requests one at a time ends with the slot given by `ReturnToAfter` on those URLs |
| App.CatchAll | app.js:158-160 | an unmatched request is forwarded as a new error with status 404 and message "Page not found" |
| App.ResponseStatus | app.js:163 | the status is the error's `statusCode` when defined, otherwise 500 |
| App.ResponseMessage | app.js:164 | a missing or empty message becomes "Oh No! Something went wrong"; a non-empty one is kept; the result is never empty |
| App.HandleError | app.js:162-167 | the handler writes the normalised message back into the error object, keeps its status code, and renders the error view with the defaulted status and message |
| App.ServeUnmatched | app.js:158-167 | catch-all followed by the handler renders the error view with status 404 and "Page not found"; the user, flashes and `res.locals.currentUser` are untouched |
| JsString.IndexOfFrom | models/campground.js:12 | for a start index within the string, the result is an occurrence of the pattern at or after the start index with none before it, or there is no occurrence at all from that index |
| JsString.IndexOf | models/campground.js:12 | the first occurrence of the pattern, or none exactly when the pattern occurs nowhere |
| JsString.ReplaceFirst | models/campground.js:12 | with no occurrence the string is unchanged; otherwise the text before the first occurrence is kept, the replacement follows, and the rest follows it unchanged |
| JsString.Substring | models/campground.js:61 | the indices are clamped to the string and taken in either order; the result is the slice between them |
| CampgroundModel.Thumbnail | models/campground.js:11-13 | the thumbnail throws exactly when the image has no url |
| CampgroundModel.ThumbnailWithoutUpload | models/campground.js:12 | a url with no "/upload" is its own thumbnail |
| CampgroundModel.ThumbnailInsertsAfterFirstUpload | models/campground.js:12 | with "/upload" first at index i, the text up to and including that "/upload" is kept, "/w_200" follows, then the rest of the url unchanged; the length grows by exactly 6 |
| CampgroundModel.Interpolate | models/campground.js:60 | a defined title is printed as itself; a missing one prints as "undefined" |
| CampgroundModel.Excerpt | models/campground.js:61 | the excerpt is a prefix of the description of length min(20, length of the description) |
| CampgroundModel.PopUpMarkup | models/campground.js:59-62 | the markup throws exactly when the description is missing |
| CampgroundModel.PopUpMarkupShape | models/campground.js:60-61 | the markup opens with `<strong>` and the anchor to "/campgrounds/" + id with the title as text, and ends with `<p>` + excerpt + `...</p>` |
| CampgroundModel.GeometryErrors | models/campground.js:47-57 | `geometry.type` fails exactly when the tag is not "Point"; `geometry.coordinates` fails exactly when it is absent; no other path fails |
| CampgroundModel.GeometryAccepted | models/campground.js:47-57 | a geometry is accepted if and only if its tag is "Point" and its coordinates are present |
| CampgroundModel.PointWithoutPositionAccepted | models/campground.js:53-56 | the schema accepts a Point whose coordinates are empty or hold a single number, which is not a position as section 3.1.2 of RFC 7946 requires |
| CampgroundModel.PostDeleteRequest | models/campground.js:67-77 | a removal request is built if and only if a document was deleted; its `$in` list is exactly that document's reviews, on the field `id` |
| Express.ErrorObject.constructor | app.js:159 | `new ExpressError(message, statusCode)` holds that message and status code |
| Express.PassportLogIn | controllers/users.js:12 | a successful login puts the user on the request and the user's username (the key passport-local-mongoose serialises, app.js:134) in the session; a failed one clears `req.user` and leaves the session as it was |
| Express.PassportLogOut | controllers/users.js:35 | logging out leaves no user on the request or in the session, whatever was there |
| UsersController.RenderRegister | controllers/users.js:3-5 | renders the registration form and changes nothing else on the request |
| UsersController.RenderLogin | controllers/users.js:23-25 | renders the login form and changes nothing else on the request |
| UsersController.Register | controllers/users.js:7-21 | the registration call gets a record of email and username, and the password separately. If registration throws: the message is flashed as an error, the reply redirects to /register, and no login is attempted. If the login callback reports an error: it is forwarded with no flash and no redirect. Otherwise: "Welcome to Yelpcamp" is flashed, the user is logged in with the username in the session, and the reply redirects to /campgrounds. `res.locals.currentUser` and `returnTo` are untouched |
| UsersController.RedirectTarget | controllers/users.js:30 | the remembered URL when it is set and non-empty, otherwise "/campgrounds"; never empty |
| UsersController.Login | controllers/users.js:27-32 | flashes "Welcome back!", redirects to that target, and leaves the session untouched |
| UsersController.Logout | controllers/users.js:34-38 | always logs out, flashes "Good Bye" and redirects to /campgrounds, whatever the prior state; `returnTo` and `res.locals.currentUser` are kept |
| UsersController.LoginReturnsToLastRecorded | controllers/users.js:30 | after browsing, posting the login form redirects to the last URL the middleware recorded (the listing if that URL is empty) |
| UsersController.LoginWithoutHistory | controllers/users.js:30 | with nothing remembered and only `/login` or `/` visited, login redirects to the listing |
| UsersController.LoginPageWithQueryIsRemembered | app.js:139 | `/login?x=1` and `/register` are recorded, so login can redirect back to them |

## Left out

- Framework configuration and I/O are not modelled. This covers the database connection, the Mongo session store, the Helmet content-security lists, static serving, view rendering, method-override, mongo-sanitize, `app.listen` and the `console.log` calls.
- The cookie's `expires` is not modelled. It is `Date.now()` at start-up plus a week, so it depends on the clock.
- Flash storage and consumption are not modelled. This includes `res.locals.success` and `res.locals.error`, which read and clear the stored messages. A flash is an appended message only.
- Credential handling is not modelled: hashing, verification, deserialisation, and the uniqueness of email (a database index). Serialisation is modelled only as the key stored in the session, the username. Only the outcomes of `User.register` and `req.login` enter the model, as parameters.
- App.LastWriterWins / App.Browse: requests of one session are taken to be served one at a time. With overlapping requests, express-session (app.js:65-79) writes back each request's whole session copy when it ends, so the slot holds the value of the request that saves last, and a login that overlaps a recorded request can write back the stale `returnTo` it loaded. Concurrency is not part of this model.
- Passport is assumed to keep the session across authentication. If a passport version regenerates the session on login, `returnTo` would be lost; the version is not part of this model.
- `req.logOut()` is modelled as passport's synchronous form, as the code calls it without a callback.
- UsersController.Register: does not model an exception thrown inside the login callback, which escapes the `try`.
- CampgroundModel.PostDeleteRequest: states only the request the hook builds. The reviews it actually removes depend on how Mongoose casts a filter on the undeclared field `id`, which is not part of this model.
- CampgroundModel.GeometryErrors: treats any present coordinates list as satisfying `required`. Whether Mongoose's `required` rejects an empty array depends on its version, which is not part of this model. Mongoose defaults an omitted array path to `[]`, so `None` stands only for an explicit null; an omitted coordinates list behaves as `Some([])`. The casting of values to String and Number is also left out.
- JsString.IndexOfFrom: requires the start position to lie within the string; JavaScript clamps a larger position to the length (so `"abc".indexOf("", 10)` is 3), which no caller here relies on.
- CampgroundModel.Interpolate: does not model a null title, which a template literal prints as "null"; `None` is an undefined title only.
- App.ResponseStatus: does not model a null `statusCode`, which the destructuring default keeps as null; `None` is an undefined status code only.
- JsString.ReplaceFirst: does not model the `$` substitution patterns of a replacement string; the only replacement used, "/upload/w_200", contains none.
- The error class `ExpressError` (utils/ExpressError.js) is not part of this model; `Express.ErrorObject.constructor` assumes it stores the message and status code it is given.
- The route tables, the ownership checks, body validation and the campground and review CRUD controllers are in files that are not part of this model (routes/users.js, routes/campgrounds.js, middleware.js, schemas.js, controllers/campgrounds.js, controllers/reviews.js, utils/ExpressError.js).
- The seed script (seeds/index.js) is not modelled: it uses random numbers and writes to the database.
- routes/reviews.js only wires middleware and controllers; it has no logic of its own to model.
- Strings are sequences of Dafny `char`, which are Unicode scalar values, while JavaScript strings are UTF-16 code units. A url, title or description with a character outside the Basic Multilingual Plane, and a `substring(0, 20)` that splits its surrogate pair, cannot be represented; the model covers text of Basic Multilingual Plane characters only.
