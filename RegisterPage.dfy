/** The sign-up form: field edits, the confirm-password indicator, the
    password rule and the registration request. */
module RegisterPage {
  import opened Js
  import RegisterModel

  /** The form state; every field holds what its input shows. */
  datatype Form = Form(userName: string, userEmail: string, userPassword: string,
                       userGender: string, userRole: string)

  /** The inputs wired to `handleChange`, by their `name` attribute. */
  datatype Field = UserName | UserEmail | UserPassword | UserGender

  const InitialForm: Form := Form("", "", "", "", "CUSTOMER")

  function FieldValue(f: Form, name: Field): string {
    match name
    case UserName => f.userName
    case UserEmail => f.userEmail
    case UserPassword => f.userPassword
    case UserGender => f.userGender
  }

  /** `{ ...prevForm, [name]: value }`. */
  function WithField(f: Form, name: Field, value: string): (g: Form)
    ensures FieldValue(g, name) == value
    ensures forall other :: other != name ==> FieldValue(g, other) == FieldValue(f, other)
    ensures g.userRole == f.userRole
  {
    match name
    case UserName => f.(userName := value)
    case UserEmail => f.(userEmail := value)
    case UserPassword => f.(userPassword := value)
    case UserGender => f.(userGender := value)
  }

  /** The form as the JSON body posted to the register endpoint. */
  function FormRecord(f: Form): Record {
    [("userName", Str(f.userName)), ("userEmail", Str(f.userEmail)),
     ("userPassword", Str(f.userPassword)), ("userGender", Str(f.userGender)),
     ("userRole", Str(f.userRole))]
  }

  /** The characters of the class `[!@#$%^&*(),.?":{}|<>]`. */
  const Specials: set<char> :=
    {'!', '@', '#', '$', '%', '^', '&', '*', '(', ')', ',', '.', '?', '"', ':', '{', '}', '|', '<', '>'}

  /** `/\d/`: an ASCII decimal digit. */
  const Digits: set<char> := {'0', '1', '2', '3', '4', '5', '6', '7', '8', '9'}

  /** A regular-expression test with a one-character class: some character
      of `s` is in `cs`. */
  function HasCharIn(s: string, cs: set<char>): (b: bool)
    ensures b <==> exists i :: 0 <= i < |s| && s[i] in cs
  {
    if |s| == 0 then false
    else if s[0] in cs then true
    else
      var rest := HasCharIn(s[1..], cs);
      assert forall i :: 1 <= i < |s| ==> s[i] == s[1..][i - 1];
      rest
  }

  /** `validatePassword`: at least one digit and one listed special
      character. */
  predicate ValidatePassword(password: string): (ok: bool)
    ensures ok <==> (exists i :: 0 <= i < |password| && password[i] in Digits) &&
                    (exists j :: 0 <= j < |password| && password[j] in Specials)
  {
    HasCharIn(password, Digits) && HasCharIn(password, Specials)
  }

  /** The checks `handleRegister` makes before posting, in order. */
  datatype Check = PasswordsDiffer | WeakPassword | Accepted

  function CheckRegistration(password: string, confirm: string): (c: Check)
    ensures c == Accepted <==> password == confirm && ValidatePassword(password)
    ensures c == PasswordsDiffer <==> password != confirm
  {
    if password != confirm then PasswordsDiffer
    else if !ValidatePassword(password) then WeakPassword
    else Accepted
  }

  /** Letters alone never pass the password rule. */
  lemma LettersOnlyRejected(password: string)
    requires forall i :: 0 <= i < |password| ==> 'a' <= password[i] <= 'z'
    ensures !ValidatePassword(password)
  {
  }

  /** A password with a digit and a listed special character passes. */
  lemma DigitAndSpecialAccepted(password: string, i: nat, j: nat)
    requires i < |password| && j < |password|
    requires password[i] in Digits && password[j] in Specials
    ensures ValidatePassword(password)
  {
  }

  /** The posted form is already what `buildRegisterPayload` would make of
      it: every field is kept and the CUSTOMER role needs no default. */
  lemma PostedFormIsPayload(f: Form)
    requires f.userRole == "CUSTOMER"
    ensures var p := RegisterModel.BuildRegisterPayload(FormRecord(f));
      p == RegisterModel.RegisterPayload(Str(f.userName), Str(f.userEmail), Str(f.userPassword),
                                         Str(f.userGender), Str("CUSTOMER"))
  {
    var r := FormRecord(f);
    LookupFirstMatch(r, "userName", 0);
    LookupFirstMatch(r, "userEmail", 1);
    LookupFirstMatch(r, "userPassword", 2);
    LookupFirstMatch(r, "userGender", 3);
    LookupFirstMatch(r, "userRole", 4);
  }

  class Component {
    var form: Form
    var confirmPassword: string
    var passwordMatch: bool
    var alerts: seq<string>
    /** Forms posted to the register endpoint, in order. */
    var requests: seq<Form>
    var navigations: seq<string>

    /** No input edits the role, so it stays CUSTOMER. */
    ghost predicate Valid()
      reads this
    {
      form.userRole == "CUSTOMER"
    }

    constructor ()
      ensures Valid()
      ensures form == InitialForm && confirmPassword == "" && passwordMatch
      ensures alerts == [] && requests == [] && navigations == []
    {
      form := InitialForm;
      confirmPassword := "";
      passwordMatch := true;
      alerts, requests, navigations := [], [], [];
    }

    /** `handleChange`: one field changes. The match indicator is not
      recomputed, so editing the password after the confirmation leaves it
      as it was. */
    method HandleChange(name: Field, value: string)
      requires Valid()
      modifies this
      ensures Valid()
      ensures form == WithField(old(form), name, value)
      ensures confirmPassword == old(confirmPassword) && passwordMatch == old(passwordMatch)
      ensures alerts == old(alerts) && requests == old(requests) && navigations == old(navigations)
    {
      form := WithField(form, name, value);
    }

    /** `handleConfirmPasswordChange`: stores the confirmation and compares
      it with the current password. */
    method HandleConfirmPasswordChange(value: string)
      requires Valid()
      modifies this
      ensures Valid()
      ensures confirmPassword == value
      ensures passwordMatch <==> form.userPassword == value
      ensures form == old(form)
      ensures alerts == old(alerts) && requests == old(requests) && navigations == old(navigations)
    {
      confirmPassword := value;
      passwordMatch := form.userPassword == value;
    }

    /** `handleRegister`: the two checks in order, each ending the handler
      with its alert; otherwise the form is posted and `serverAccepts` is
      the request's outcome. */
    method HandleRegister(serverAccepts: bool)
      requires Valid()
      modifies this
      ensures Valid()
      ensures form == old(form) && confirmPassword == old(confirmPassword) && passwordMatch == old(passwordMatch)
      ensures CheckRegistration(form.userPassword, confirmPassword) == PasswordsDiffer ==>
        alerts == old(alerts) + ["Passwords do not match."] &&
        requests == old(requests) && navigations == old(navigations)
      ensures CheckRegistration(form.userPassword, confirmPassword) == WeakPassword ==>
        alerts == old(alerts) + ["Password must contain at least one number and one special character."] &&
        requests == old(requests) && navigations == old(navigations)
      ensures CheckRegistration(form.userPassword, confirmPassword) == Accepted ==>
        requests == old(requests) + [form] &&
        (serverAccepts ==> alerts == old(alerts) + ["Registration successful! You can now login."] &&
                           navigations == old(navigations) + ["/login"]) &&
        (!serverAccepts ==> alerts == old(alerts) + ["Registration failed. Please check the details."] &&
                            navigations == old(navigations))
    {
      if form.userPassword != confirmPassword {
        alerts := alerts + ["Passwords do not match."];
        return;
      }
      if !ValidatePassword(form.userPassword) {
        alerts := alerts + ["Password must contain at least one number and one special character."];
        return;
      }
      requests := requests + [form];
      if serverAccepts {
        alerts := alerts + ["Registration successful! You can now login."];
        navigations := navigations + ["/login"];
      } else {
        alerts := alerts + ["Registration failed. Please check the details."];
      }
    }
  }
}
