/** The user record built from a decoded authentication token. */
module LoginModel {
  import opened Js

  /** The claims read from the decoded token; an absent claim is undefined. */
  datatype Claims = Claims(sub: Value, role: Value, userId: Value)

  /** The session user object `{ userEmail, userRole, userId }` that both
      login paths build and store. */
  function UserObject(email: Value, role: Value, id: Value): (user: Value)
    ensures user.Obj? && |user.props| == 3
    ensures Get(user, "userEmail") == email
    ensures Get(user, "userRole") == role
    ensures Get(user, "userId") == id
    ensures forall k :: k != "userEmail" && k != "userRole" && k != "userId" ==> Get(user, k) == Undefined
  {
    var props := [("userEmail", email), ("userRole", role), ("userId", id)];
    LookupOfThree(props);
    Obj(props)
  }

  /** Each field takes the token's claim when it is truthy and the caller's
      fallback otherwise. */
  function CreateUserFromToken(decoded: Claims, fallbackEmail: Value, fallbackRole: Value, fallbackId: Value): (user: Value)
    ensures Get(user, "userEmail") == (if Truthy(decoded.sub) then decoded.sub else fallbackEmail)
    ensures Get(user, "userRole") == (if Truthy(decoded.role) then decoded.role else fallbackRole)
    ensures Get(user, "userId") == (if Truthy(decoded.userId) then decoded.userId else fallbackId)
    ensures forall k :: k != "userEmail" && k != "userRole" && k != "userId" ==> Get(user, k) == Undefined
  {
    UserObject(Or(decoded.sub, fallbackEmail), Or(decoded.role, fallbackRole), Or(decoded.userId, fallbackId))
  }

  /** A token without any of the three claims yields exactly the fallbacks. */
  lemma NoClaimsGiveFallbacks(fallbackEmail: Value, fallbackRole: Value, fallbackId: Value)
    ensures CreateUserFromToken(Claims(Undefined, Undefined, Undefined), fallbackEmail, fallbackRole, fallbackId)
         == UserObject(fallbackEmail, fallbackRole, fallbackId)
  {
  }

  /** A token carrying all three claims ignores the fallbacks. */
  lemma AllClaimsIgnoreFallbacks(decoded: Claims, fallbackEmail: Value, fallbackRole: Value, fallbackId: Value)
    requires Truthy(decoded.sub) && Truthy(decoded.role) && Truthy(decoded.userId)
    ensures CreateUserFromToken(decoded, fallbackEmail, fallbackRole, fallbackId)
         == UserObject(decoded.sub, decoded.role, decoded.userId)
  {
  }
}
