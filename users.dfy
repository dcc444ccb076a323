/** The user controller: rendering the forms, registration with automatic
    login, login's redirect to the remembered page, and logout. The calls
    into passport-local-mongoose and passport are not part of this model:
    their outcomes are parameters. */
module UsersController {
  import opened Express
  import App

  const ListingPath: string := "/campgrounds"
  const RegisterPath: string := "/register"

  const WelcomeNew: string := "Welcome to Yelpcamp"
  const WelcomeBack: string := "Welcome back!"
  const GoodBye: string := "Good Bye"

  /** The fields of the registration form (`req.body`). */
  datatype RegisterForm = RegisterForm(username: string, email: string, password: string)

  /** The document `new User({ email, username })` handed to registration. */
  datatype UserDraft = UserDraft(email: string, username: string)

  /** What `await User.register(user, password)` does: resolve with the
      stored user, or throw an error with a message. */
  datatype Registration = Registered(user: User) | Threw(message: string)

  /** `renderRegister`: show the registration form. */
  method RenderRegister(ex: Exchange)
    modifies ex
    ensures ex.reply == Rendered("users/register", 200)
    ensures ex.user == old(ex.user) && ex.flashes == old(ex.flashes)
    ensures ex.currentUser == old(ex.currentUser)
  {
    ex.reply := Rendered("users/register", 200);
  }

  /** `renderLogin`: show the login form. */
  method RenderLogin(ex: Exchange)
    modifies ex
    ensures ex.reply == Rendered("users/login", 200)
    ensures ex.user == old(ex.user) && ex.flashes == old(ex.flashes)
    ensures ex.currentUser == old(ex.currentUser)
  {
    ex.reply := Rendered("users/login", 200);
  }

  /** `register`. The draft record holds the email and the username only; the
      password goes to the registration call alone. When registration throws,
      its message is flashed as an error and the user is sent back to the
      form, and no login is attempted. When it succeeds the new user is logged
      in: a login error is handed to the error handler with no flash and no
      redirect; otherwise the user is welcomed and sent to the listing. */
  method Register(ex: Exchange, form: RegisterForm,
                  register: (UserDraft, string) -> Registration,
                  loginError: Option<ErrorObject>)
    modifies ex, ex.session
    ensures ex.session.returnTo == old(ex.session.returnTo)
    ensures ex.currentUser == old(ex.currentUser)
    ensures match register(UserDraft(form.email, form.username), form.password)
      case Threw(message) =>
        && ex.flashes == old(ex.flashes) + [Flash("error", message)]
        && ex.reply == Redirected(RegisterPath)
        && ex.user == old(ex.user)
        && ex.session.passportUser == old(ex.session.passportUser)
      case Registered(u) =>
        if loginError.Some? then
          && ex.reply == Forwarded(loginError.value)
          && ex.flashes == old(ex.flashes)
          && ex.user == None
          && ex.session.passportUser == old(ex.session.passportUser)
        else
          && ex.reply == Redirected(ListingPath)
          && ex.flashes == old(ex.flashes) + [Flash("success", WelcomeNew)]
          && ex.user == Some(u)
          && ex.session.passportUser == Some(u.username)
  {
    var draft := UserDraft(form.email, form.username);
    var outcome := register(draft, form.password);
    match outcome {
      case Threw(message) =>
        ex.flashes := ex.flashes + [Flash("error", message)];
        ex.reply := Redirected(RegisterPath);
      case Registered(u) =>
        PassportLogIn(ex, u, loginError);
        if loginError.Some? {
          ex.reply := Forwarded(loginError.value);
        } else {
          ex.flashes := ex.flashes + [Flash("success", WelcomeNew)];
          ex.reply := Redirected(ListingPath);
        }
    }
  }

  /** `req.session.returnTo || '/campgrounds'`: the remembered URL unless it
      is missing or empty. */
  function RedirectTarget(returnTo: Option<string>): (url: string)
    ensures url != ""
    ensures returnTo.Some? && returnTo.value != "" ==> url == returnTo.value
    ensures returnTo.None? || returnTo.value == "" ==> url == ListingPath
  {
    if returnTo.Some? && returnTo.value != "" then returnTo.value else ListingPath
  }

  /** `login`, reached once passport has authenticated the user: welcome
      back and go to the remembered page. The slot is read, never cleared. */
  method Login(ex: Exchange)
    modifies ex
    ensures ex.flashes == old(ex.flashes) + [Flash("success", WelcomeBack)]
    ensures ex.reply == Redirected(RedirectTarget(ex.session.returnTo))
    ensures ex.user == old(ex.user) && ex.currentUser == old(ex.currentUser)
  {
    ex.flashes := ex.flashes + [Flash("success", WelcomeBack)];
    var redirectUrl := RedirectTarget(ex.session.returnTo);
    ex.reply := Redirected(redirectUrl);
  }

  /** `logout`: log out whatever the session held, say good bye, go to the
      listing. */
  method Logout(ex: Exchange)
    modifies ex, ex.session
    ensures ex.user == None && ex.session.passportUser == None
    ensures ex.session.returnTo == old(ex.session.returnTo)
    ensures ex.flashes == old(ex.flashes) + [Flash("success", GoodBye)]
    ensures ex.reply == Redirected(ListingPath)
    ensures ex.currentUser == old(ex.currentUser)
  {
    PassportLogOut(ex);
    ex.flashes := ex.flashes + [Flash("success", GoodBye)];
    ex.reply := Redirected(ListingPath);
  }

  /** After a session has made the requests `urls` and then posts the login
      form, login sends the user to the last URL the middleware recorded,
      whatever was remembered before. */
  lemma {:induction false} LoginReturnsToLastRecorded(initial: Option<string>, urls: seq<string>, i: nat)
    requires App.LastRecordedAt(urls, i)
    ensures var slot := App.NextReturnTo(App.ReturnToAfter(initial, urls), "/login");
      RedirectTarget(slot) == if urls[i] == "" then ListingPath else urls[i]
  {
    App.LastWriterWins(initial, urls, i);
  }

  /** With nothing remembered and only excluded pages visited, login lands on
      the listing. */
  lemma {:induction false} LoginWithoutHistory(urls: seq<string>)
    requires forall j :: 0 <= j < |urls| ==> App.IsExcluded(urls[j])
    ensures RedirectTarget(App.NextReturnTo(App.ReturnToAfter(None, urls), "/login")) == ListingPath
  {
    App.ExcludedRequestsKeepSlot(None, urls);
  }

  /** The exclusion is exact: a login page with a query string is recorded,
      so login can send the user back to it. */
  lemma LoginPageWithQueryIsRemembered()
    ensures RedirectTarget(App.ReturnToAfter(None, ["/login?x=1", "/login"])) == "/login?x=1"
    ensures RedirectTarget(App.ReturnToAfter(None, ["/register", "/"])) == "/register"
  {
  }
}
