/**
 * The session gate: `login` sets the session's authentication flag when the
 * demo credentials match, `logout` clears the session, and `login_required`
 * sends a request without the flag to the login page before the view runs.
 */
module Auth {
  import opened Text
  import opened Store
  import opened Web
  import opened Search

  const AdminUsername := "admin"
  const AdminPassword := "admin"

  /** The submitted credentials match: the username is compared stripped, the password as typed. */
  predicate CredentialsMatch(form: map<string, string>): (ok: bool)
    ensures ok ==> "username" in form && "password" in form && form["password"] == AdminPassword
  {
    Strip(FormGet(form, "username")) == AdminUsername && FormGet(form, "password") == AdminPassword
  }

  datatype Endpoint = LoginPage | IndexPage

  /** The response of `login` and `logout`. */
  datatype AuthReply = RedirectTo(endpoint: Endpoint) | ShowLoginForm

  /** The user session, reduced to its `is_authenticated` flag (absent counts as false). */
  class Session {
    var isAuthenticated: bool

    constructor ()
      ensures !isAuthenticated
    {
      isAuthenticated := false;
    }

    /**
     * `login`: a submitted form with matching credentials sets the flag and
     * redirects to the search page; anything else renders the form and leaves
     * the flag as it was (a failed attempt does not sign anyone out).
     */
    method Login(req: Request) returns (reply: AuthReply, flashes: seq<Flash>)
      modifies this
      ensures var ok := req.verb == Post && CredentialsMatch(req.form);
              && isAuthenticated == (old(isAuthenticated) || ok)
              && reply == (if ok then RedirectTo(IndexPage) else ShowLoginForm)
              && flashes == (if ok then [Flash("Signed in successfully.", "success")]
                             else if req.verb == Post then [Flash("Invalid credentials. Please try again.", "danger")]
                             else [])
    {
      flashes := [];
      if req.verb == Post {
        var username := Strip(FormGet(req.form, "username"));
        var password := FormGet(req.form, "password");
        if username == AdminUsername && password == AdminPassword {
          isAuthenticated := true;
          flashes := flashes + [Flash("Signed in successfully.", "success")];
          return RedirectTo(IndexPage), flashes;
        }
        flashes := flashes + [Flash("Invalid credentials. Please try again.", "danger")];
      }
      reply := ShowLoginForm;
    }

    /** `logout`: clears the session and redirects to the login page. */
    method Logout() returns (reply: AuthReply, flashes: seq<Flash>)
      modifies this
      ensures !isAuthenticated
      ensures reply == RedirectTo(LoginPage) && flashes == [Flash("You have been signed out.", "info")]
    {
      isAuthenticated := false;
      reply := RedirectTo(LoginPage);
      flashes := [Flash("You have been signed out.", "info")];
    }
  }

  /** What `login_required` decides before the wrapped view runs. */
  datatype Gate = Proceed | RedirectToLogin

  function LoginRequired(isAuthenticated: bool): (g: Gate)
    ensures g == Proceed <==> isAuthenticated
  {
    if !isAuthenticated then RedirectToLogin else Proceed
  }

  /** The response of the guarded search page. */
  datatype GuardedReply = Redirected(endpoint: Endpoint) | Served(reply: Reply)

  /**
   * The search page behind `login_required`: without the flag the request is
   * redirected to the login page and no statement reaches the database.
   */
  method GuardedIndex(isAuthenticated: bool, store: DataStore, req: Request)
    returns (reply: GuardedReply, issued: seq<Query>, connected: bool)
    ensures !isAuthenticated ==> reply == Redirected(LoginPage) && issued == [] && !connected
    ensures isAuthenticated ==> && reply == Served(IndexReply(store, req))
                                && issued == IndexQueries(store, req)
                                && connected == OpensConnection(req)
  {
    if LoginRequired(isAuthenticated) == RedirectToLogin {
      return Redirected(LoginPage), [], false;
    }
    var r;
    r, issued, connected := Index(store, req);
    reply := Served(r);
  }

  /** The admin username with any whitespace around it is accepted. */
  lemma PaddedUsernameAccepted(pre: string, post: string)
    requires AllSpace(pre) && AllSpace(post)
    ensures CredentialsMatch(map["username" := pre + AdminUsername + post, "password" := AdminPassword])
  {
    StripPadded(pre, AdminUsername, post);
  }

  /** The password is compared as typed: any whitespace after it makes it wrong. */
  lemma PasswordNotStripped(username: string, pad: string)
    requires pad != []
    ensures !CredentialsMatch(map["username" := username, "password" := AdminPassword + pad])
  {
    var form := map["username" := username, "password" := AdminPassword + pad];
    assert |FormGet(form, "password")| != |AdminPassword|;
  }

  /** A form without a username never matches. */
  lemma MissingUsernameRejected(form: map<string, string>)
    requires "username" !in form
    ensures !CredentialsMatch(form)
  {
  }
}
