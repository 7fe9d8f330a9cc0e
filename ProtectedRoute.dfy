/** The route guard component: it renders its children only for a user
    object whose `userType` is "USER" and redirects to the login page
    otherwise. */
module ProtectedRoute {
  import opened Js
  import LoginModel
  import App

  /** `<Navigate to=... replace />`, or the guarded children. */
  datatype Element = Redirect(to: string, replace: bool) | Children

  /** The guard as written: `!user || user.userType !== "USER"` redirects. */
  function Decide(user: Value): (e: Element)
    ensures e.Children? <==> Truthy(user) && Get(user, "userType") == Str("USER")
    ensures e.Redirect? ==> e == Redirect("/login", true)
  {
    if !Truthy(user) || Get(user, "userType") != Str("USER") then Redirect("/login", true)
    else Children
  }

  /** Every user object the client builds, from the login response or from a
      decoded token, has only `userEmail`, `userRole` and `userId`; none has
      a `userType`, so the guard as written redirects all of them. */
  lemma GuardRejectsEveryClientUser(email: Value, role: Value, id: Value)
    ensures Decide(LoginModel.UserObject(email, role, id)) == Redirect("/login", true)
  {
  }

  /** The same for the user built from token claims. */
  lemma GuardRejectsTokenUser(decoded: LoginModel.Claims, email: Value, role: Value, id: Value)
    ensures Decide(LoginModel.CreateUserFromToken(decoded, email, role, id)) == Redirect("/login", true)
  {
  }

  /** The guard keyed on the field the client's users carry: a CUSTOMER
      `userRole`. */
  function DecideByRole(user: Value): (e: Element)
    ensures e.Children? <==> Truthy(user) && Get(user, "userRole") == Str("CUSTOMER")
    ensures e.Redirect? ==> e == Redirect("/login", true)
  {
    if !Truthy(user) || Get(user, "userRole") != Str("CUSTOMER") then Redirect("/login", true)
    else Children
  }

  /** The corrected guard admits exactly the users the application's
      customer dashboard gate admits. */
  lemma DecideByRoleAgreesWithDashboardGate(user: Value, token: Value)
    ensures DecideByRole(user).Children? <==> App.Route(App.Dashboard, user, token).Show?
  {
  }

  /** In particular a customer who logged in passes the corrected guard. */
  lemma DecideByRoleAdmitsCustomer(email: Value, id: Value)
    ensures DecideByRole(LoginModel.UserObject(email, Str("CUSTOMER"), id)) == Children
  {
  }
}
