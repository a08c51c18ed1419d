/**
 * The route guard around the shop's pages: what it renders, and where its
 * effect navigates, for a path and the current session.
 */
module SessionGuard {
  import opened Wrappers
  import Session

  const LandingPath := "/"

  /** Whether the children are rendered, and the path the effect pushes, if any. */
  datatype Decision = Decision(renderChildren: bool, redirect: Option<string>)

  function Guard(pathname: string, hasSession: bool): (d: Decision)
    ensures d.renderChildren <==> pathname == LandingPath || hasSession
    ensures d.redirect.Some? <==> !d.renderChildren
    ensures d.redirect.Some? ==> d.redirect.value == LandingPath
  {
    var redirect := if pathname == LandingPath || hasSession then None else Some(LandingPath);
    var render := !(pathname != LandingPath && !hasSession);
    Decision(render, redirect)
  }

  /** The guard over the browser's store: the landing page is always open, other pages need a session. */
  lemma GuardOverStorage(pathname: string, v: Option<map<string, string>>)
    ensures pathname == LandingPath ==> Guard(pathname, Session.HasSessionOf(v)) == Decision(true, None)
    ensures pathname != LandingPath && Session.HasSessionOf(v)
            ==> Guard(pathname, Session.HasSessionOf(v)) == Decision(true, None)
    ensures pathname != LandingPath && !Session.HasSessionOf(v)
            ==> Guard(pathname, Session.HasSessionOf(v)) == Decision(false, Some(LandingPath))
  {
  }

  /** Clearing the session shuts every page but the landing page, and sends the visitor there. */
  lemma ClearedSessionRedirects(pathname: string, m: map<string, string>)
    requires pathname != LandingPath
    ensures Guard(pathname, Session.HasSessionOf(Session.ClearSessionOf(Some(m)))) == Decision(false, Some(LandingPath))
  {
    Session.ClearThenNone(Some(m));
  }
}
