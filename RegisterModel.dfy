/** The registration payload built from the sign-up form. */
module RegisterModel {
  import opened Js

  /** Exactly the five fields the register endpoint receives. */
  datatype RegisterPayload =
    RegisterPayload(userName: Value, userEmail: Value, userPassword: Value, userGender: Value, userRole: Value)

  const DefaultRole: string := "CUSTOMER"

  /** Copies four fields unchanged, defaults a falsy role to "CUSTOMER", and
      drops every other field of the form. */
  function BuildRegisterPayload(form: Record): (p: RegisterPayload)
    ensures p.userName == Lookup(form, "userName")
    ensures p.userEmail == Lookup(form, "userEmail")
    ensures p.userPassword == Lookup(form, "userPassword")
    ensures p.userGender == Lookup(form, "userGender")
    ensures Truthy(Lookup(form, "userRole")) ==> p.userRole == Lookup(form, "userRole")
    ensures !Truthy(Lookup(form, "userRole")) ==> p.userRole == Str(DefaultRole)
    ensures Truthy(p.userRole)
  {
    RegisterPayload(
      Lookup(form, "userName"),
      Lookup(form, "userEmail"),
      Lookup(form, "userPassword"),
      Lookup(form, "userGender"),
      Or(Lookup(form, "userRole"), Str(DefaultRole)))
  }

  /** The payload as the JSON object that is sent. */
  function PayloadRecord(p: RegisterPayload): Record {
    [("userName", p.userName), ("userEmail", p.userEmail), ("userPassword", p.userPassword),
     ("userGender", p.userGender), ("userRole", p.userRole)]
  }

  lemma PayloadRecordFields(p: RegisterPayload)
    ensures Lookup(PayloadRecord(p), "userName") == p.userName
    ensures Lookup(PayloadRecord(p), "userEmail") == p.userEmail
    ensures Lookup(PayloadRecord(p), "userPassword") == p.userPassword
    ensures Lookup(PayloadRecord(p), "userGender") == p.userGender
    ensures Lookup(PayloadRecord(p), "userRole") == p.userRole
  {
    var r := PayloadRecord(p);
    LookupFirstMatch(r, "userName", 0);
    LookupFirstMatch(r, "userEmail", 1);
    LookupFirstMatch(r, "userPassword", 2);
    LookupFirstMatch(r, "userGender", 3);
    LookupFirstMatch(r, "userRole", 4);
  }

  /** Building a payload from a payload gives it back: the role default
      applies once. */
  lemma BuildIsIdempotent(form: Record)
    ensures BuildRegisterPayload(PayloadRecord(BuildRegisterPayload(form))) == BuildRegisterPayload(form)
  {
    PayloadRecordFields(BuildRegisterPayload(form));
  }

  /** Fields outside the five never reach the payload. */
  lemma ExtraFieldsDropped(form: Record, key: string, v: Value)
    requires key != "userName" && key != "userEmail" && key != "userPassword"
    requires key != "userGender" && key != "userRole"
    ensures BuildRegisterPayload(SetProp(form, key, v)) == BuildRegisterPayload(form)
  {
  }
}
