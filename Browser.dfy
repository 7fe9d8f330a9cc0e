/** The two Web Storage areas the client keeps its session in. */
module Browser {
  import opened Js
  import opened Outcomes

  /** The two keys the client uses in one storage area. "token" holds a
      string; "user" holds `JSON.stringify(user)`, kept here as the value it
      serialises, so that parsing it back gives the same value. */
  datatype Area = Area(token: Option<string>, user: Option<Value>)

  /** An area after `clear()`, or one never written. */
  const EmptyArea: Area := Area(None, None)

  /** `area.getItem("token")`: the stored string, or null. */
  function TokenItem(a: Area): (v: Value)
    ensures Truthy(v) <==> a.token.Some? && a.token.value != ""
  {
    match a.token
    case Some(t) => Str(t)
    case None => Null
  }

  /** localStorage (kept across browser restarts) and sessionStorage (kept
      for the tab's lifetime). */
  class Storage {
    var local: Area
    var session: Area

    constructor (local: Area, session: Area)
      ensures this.local == local && this.session == session
    {
      this.local := local;
      this.session := session;
    }
  }
}
