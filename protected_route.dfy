/**
 * The route guard (src/components/ProtectedRoute.tsx): a signed-out visitor is
 * sent to the login page, remembering where they were going; anyone signed in
 * sees the page. The admin flag is accepted but does not restrict anything.
 */
module ProtectedRoute {
  import opened Lists
  import Api
  import Session

  /** What the guard renders: a replacing redirect carrying the requested location, or the page itself. */
  datatype Decision = Redirect(to: string, from: string, replace: bool) | Render

  /** The guard for a page at `location`. */
  function Decide(session: Session.SessionStore, adminOnly: bool, location: string): (d: Decision)
    reads session
    ensures d.Render? <==> session.IsAuthenticated()
    ensures d.Redirect? ==> d == Redirect("/login", location, true)
  {
    if !session.IsAuthenticated() then Redirect("/login", location, true)
    else
      // the admin branch has an empty body: every signed-in user is let through
      Render
  }

  /** The admin flag changes nothing: an admin-only page is guarded exactly like any other. */
  lemma AdminFlagIgnored(session: Session.SessionStore, location: string)
    ensures Decide(session, true, location) == Decide(session, false, location)
  {
  }

  /**
   * Right after a reload the session store has no user yet, whatever token is
   * stored, so a protected page first redirects to the login page.
   */
  method ReloadRedirects(storedToken: Option<string>, storedUser: Option<Session.User>, location: string)
    returns (d: Decision)
    ensures d == Redirect("/login", location, true)
  {
    var session := new Session.SessionStore(storedToken, storedUser);
    d := Decide(session, false, location);
  }

  /** After a successful login the same page is rendered. */
  method LoginThenRender(token: string, u: Session.User, location: string) returns (before: Decision, after: Decision)
    ensures before.Redirect? && after == Render
  {
    var session := new Session.SessionStore(None, None);
    before := Decide(session, false, location);
    var ok := session.Login(Api.Ok(token), Api.Ok(u));
    after := Decide(session, false, location);
  }
}
