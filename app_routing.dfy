/**
  The application shell's routing rules: the role read off the path, and what
  happens when the sign-in widget reports back (where to navigate, and whether
  the signed-in user is stored or cleared). The current path is the pathname
  followed by the query string; the `redirect` query parameter arrives already
  extracted.
 */
module AppRouting {
  import opened Wrappers
  import Text

  datatype Role = Admin | Customer

  /** `pathname.startsWith("/admin") ? "admin" : "customer"`, used both initially and on every path change. */
  function RoleOf(pathname: string): (r: Role)
    ensures r == Admin <==> Text.StartsWith(pathname, "/admin")
  {
    if Text.StartsWith(pathname, "/admin") then Admin else Customer
  }

  /** `isAuthPage`: the current path contains one of the six sign-in routes. */
  predicate IsAuthPage(path: string) {
    Text.Includes(path, "/login") || Text.Includes(path, "/signup")
    || Text.Includes(path, "/callback") || Text.Includes(path, "/error")
    || Text.Includes(path, "/prompt-password") || Text.Includes(path, "/reset-password")
  }

  /** The second test, on the same six words without their leading slash. */
  predicate MentionsAuthWord(path: string) {
    Text.Includes(path, "error") || Text.Includes(path, "signup")
    || Text.Includes(path, "login") || Text.Includes(path, "callback")
    || Text.Includes(path, "prompt-password") || Text.Includes(path, "reset-password")
  }

  /** A route contains its own name without the leading slash. */
  lemma SlashedIncludes(route: string, w: string)
    requires route == "/" + w
    ensures Text.Includes(route, w)
  {
    assert route[1..1 + |w|] == w;
    Text.IncludesAt(route, w, 1);
  }

  /** A path that passes the first test passes the second. */
  lemma {:induction false} AuthPageMentionsAuthWord(path: string)
    requires IsAuthPage(path)
    ensures MentionsAuthWord(path)
  {
    if Text.Includes(path, "/login") {
      SlashedIncludes("/login", "login");
      Text.IncludesTrans(path, "/login", "login");
    } else if Text.Includes(path, "/signup") {
      SlashedIncludes("/signup", "signup");
      Text.IncludesTrans(path, "/signup", "signup");
    } else if Text.Includes(path, "/callback") {
      SlashedIncludes("/callback", "callback");
      Text.IncludesTrans(path, "/callback", "callback");
    } else if Text.Includes(path, "/error") {
      SlashedIncludes("/error", "error");
      Text.IncludesTrans(path, "/error", "error");
    } else if Text.Includes(path, "/prompt-password") {
      SlashedIncludes("/prompt-password", "prompt-password");
      Text.IncludesTrans(path, "/prompt-password", "prompt-password");
    } else {
      SlashedIncludes("/reset-password", "reset-password");
      Text.IncludesTrans(path, "/reset-password", "reset-password");
    }
  }

  /** A query parameter is truthy when present and not empty. */
  predicate Truthy(param: Option<string>) {
    param.Some? && param.value != ""
  }

  /** What becomes of the stored user. */
  datatype SessionUpdate<U> = SetUser(user: U) | ClearUser

  /** The effects of one sign-in report: the navigation target and the session update. */
  datatype Outcome<U> = Outcome(navigateTo: string, session: SessionUpdate<U>)

  /**
    `onSuccess`, branch by branch as written. `user` is `None` when the widget
    reports no signed-in user. The contract is the decision table the branches
    amount to: four of them can never be taken (the "/" fallback for a
    signed-in user off the sign-in pages, both `?redirect=` targets for a
    signed-out user off them, and the `/login?redirect=` and "/login" targets
    for a signed-out user on them), so the `?redirect=` targets the handler
    builds itself are never used.
   */
  function OnAuthResult<U>(user: Option<U>, currentPath: string, redirect: Option<string>): (o: Outcome<U>)
    ensures user.Some? ==> o.session == SetUser(user.value)
    ensures user.None? ==> o.session == ClearUser
    ensures user.Some? && Truthy(redirect) ==> o.navigateTo == redirect.value
    ensures user.Some? && !Truthy(redirect) && !IsAuthPage(currentPath) ==> o.navigateTo == currentPath
    ensures user.Some? && !Truthy(redirect) && IsAuthPage(currentPath) ==> o.navigateTo == "/"
    ensures user.None? && !IsAuthPage(currentPath) ==> o.navigateTo == "/login"
    ensures user.None? && IsAuthPage(currentPath) ==> o.navigateTo == currentPath
  {
    var isAuthPage := IsAuthPage(currentPath);
    if user.Some? then
      var to :=
        if Truthy(redirect) then redirect.value
        else if !isAuthPage then
          if !Text.Includes(currentPath, "/login") && !Text.Includes(currentPath, "/signup") then currentPath
          else "/"
        else "/";
      Outcome(to, SetUser(user.value))
    else
      assert isAuthPage ==> MentionsAuthWord(currentPath) by {
        if isAuthPage {
          AuthPageMentionsAuthWord(currentPath);
        }
      }
      var to :=
        if !isAuthPage then
          if Text.Includes(currentPath, "/signup") then "/signup?redirect=" + currentPath
          else if Text.Includes(currentPath, "/login") then "/login?redirect=" + currentPath
          else "/login"
        else if Truthy(redirect) then
          // never taken: on a sign-in page the path always mentions a sign-in word
          if !MentionsAuthWord(currentPath) then "/login?redirect=" + redirect.GetOr("")
          else currentPath
        else if isAuthPage then currentPath
        else "/login";
      Outcome(to, ClearUser)
  }
}
