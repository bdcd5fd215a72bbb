/**
 The login gate: which page a visitor may see given the stored login flag,
 which login form submissions are accepted, and the session record the login
 and logout handlers write.
 */
module Session {
  import opened Common

  /** `t` occurs in `s` starting at index `i`. */
  predicate OccursAt(s: string, t: string, i: int) {
    0 <= i <= |s| - |t| && s[i..i + |t|] == t
  }

  /** `s.includes(t)`: `t` occurs in `s` as a contiguous piece. */
  predicate Contains(s: string, t: string) {
    exists i | 0 <= i <= |s| - |t| :: OccursAt(s, t, i)
  }

  /** A string contains itself. */
  lemma ContainsItself(s: string)
    ensures Contains(s, s)
  {
    assert s[0..|s|] == s;
    assert OccursAt(s, s, 0);
  }

  /** A string contains no other string of the same length. */
  lemma NotContainsOtherOfSameLength(s: string, t: string)
    requires |s| == |t| && s != t
    ensures !Contains(s, t)
  {
    assert s[0..|s|] == s;
  }

  /** What `checkAuthentication` decides for the page being loaded. */
  datatype Access = RedirectToLogin | RedirectToMenu | Proceed

  /** The pages a signed-out visitor may not see: the menu and the confirmation page. */
  predicate Protected(page: string) {
    Contains(page, "index.html") || page == "" || Contains(page, "confirm.html")
  }

  /** `checkAuthentication`, with the stored flag and the current page name as inputs. */
  function Gate(loggedIn: bool, page: string): (r: Access)
    ensures r == RedirectToLogin ==> !loggedIn && Protected(page)
    ensures r == RedirectToMenu ==> loggedIn && Contains(page, "login.html")
  {
    if !loggedIn && Protected(page) && page != "login.html" then RedirectToLogin
    else if loggedIn && Contains(page, "login.html") then RedirectToMenu
    else Proceed
  }

  /** The login form's only check: both fields are filled in. */
  predicate LoginAccepted(email: string, password: string) {
    email != "" && password != ""
  }

  lemma LoginPageNotProtected()
    ensures !Protected("login.html")
  {
    assert "login.html"[0] != "index.html"[0];
    NotContainsOtherOfSameLength("login.html", "index.html");
  }

  /**
   A signed-out visitor is sent to the login page exactly on a protected page
   and is never sent to the menu; the check that the page is not the login
   page itself never changes the outcome.
   */
  lemma GateSignedOut(page: string)
    ensures Gate(false, page) == if Protected(page) then RedirectToLogin else Proceed
  {
    LoginPageNotProtected();
  }

  /** A signed-in visitor is sent to the menu exactly from the login page and never to the login page. */
  lemma GateSignedIn(page: string)
    ensures Gate(true, page) == if Contains(page, "login.html") then RedirectToMenu else Proceed
  {
  }

  lemma GateExamples()
    ensures Gate(false, "index.html") == RedirectToLogin
    ensures Gate(false, "confirm.html") == RedirectToLogin
    ensures Gate(false, "login.html") == Proceed
    ensures Gate(true, "login.html") == RedirectToMenu
    ensures Gate(true, "index.html") == Proceed
  {
    ContainsItself("index.html");
    ContainsItself("confirm.html");
    ContainsItself("login.html");
    LoginPageNotProtected();
    assert "index.html"[0] != "login.html"[0];
    NotContainsOtherOfSameLength("index.html", "login.html");
  }

  lemma LoginExamples()
    ensures LoginAccepted("a@b.com", "x")
    ensures !LoginAccepted("", "x")
    ensures !LoginAccepted("a@b.com", "")
  {
  }

  /** The stored `isLoggedIn` flag and `userEmail` entry. */
  class SessionState {
    var loggedIn: bool
    var userEmail: Option<string>

    constructor (loggedIn: bool, userEmail: Option<string>)
      ensures this.loggedIn == loggedIn && this.userEmail == userEmail
    {
      this.loggedIn := loggedIn;
      this.userEmail := userEmail;
    }

    /**
     The login form's submit handler: store the email and the flag when both
     fields are filled in; `accepted` is true exactly when the handler then
     goes to index.html.
     */
    method Login(email: string, password: string) returns (accepted: bool)
      modifies this
      ensures accepted == LoginAccepted(email, password)
      ensures accepted ==> loggedIn && userEmail == Some(email)
      ensures !accepted ==> loggedIn == old(loggedIn) && userEmail == old(userEmail)
    {
      accepted := email != "" && password != "";
      if accepted {
        userEmail := Some(email);
        loggedIn := true;
      }
    }

    /** Remove both stored entries, as the logout handler does. */
    method SignOut()
      modifies this
      ensures !loggedIn && userEmail == None
    {
      loggedIn := false;
      userEmail := None;
    }
  }
}
