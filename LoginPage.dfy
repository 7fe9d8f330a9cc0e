/** The login form: one credential request, "remember me" persistence, the
    hand-over to the application and the role-based redirect. */
module LoginPage {
  import opened Js
  import opened Outcomes
  import opened Browser
  import LoginModel

  /** The fields destructured from the login response. */
  datatype LoginResponse = LoginResponse(token: Value, role: Value, userId: Value)

  datatype Toast = Success(text: string) | Error(text: string)

  /** What a submission captured when it was made: the handler's closure sees
      the form state of the render in which the button was pressed. */
  datatype Submission = Submission(email: string, password: string, remember: bool)

  /** `{ userEmail, userRole: role, userId }`. */
  function SessionUser(email: string, response: LoginResponse): Value {
    LoginModel.UserObject(Str(email), response.role, response.userId)
  }

  /** The session user carries the submitted email and the role and id the
      server returned. */
  lemma SessionUserFields(email: string, response: LoginResponse)
    ensures Get(SessionUser(email, response), "userEmail") == Str(email)
    ensures Get(SessionUser(email, response), "userRole") == response.role
    ensures Get(SessionUser(email, response), "userId") == response.userId
  {
  }

  /** What "remember me" writes to localStorage: the token as a string and
      the serialised user. */
  function RememberedArea(token: Value, user: Value): (a: Area)
    ensures a.token == Some(ToString(token)) && a.user == Some(user)
  {
    Area(Some(ToString(token)), Some(user))
  }

  /** The arguments the page passes to `onLogin`, in the order the
      application's `handleLogin(receivedToken, receivedUser)` takes them.
      The page as written passes `(user, token)`; see
      `OnLoginArgumentsAsWritten`. */
  function OnLoginArguments(user: Value, token: Value): (args: (Value, Value))
    ensures args.0 == token && args.1 == user
  {
    (token, user)
  }

  /** `onLogin(user, token)`, the order the page uses. */
  function OnLoginArgumentsAsWritten(user: Value, token: Value): (args: (Value, Value))
    ensures args.0 == user && args.1 == token
  {
    (user, token)
  }

  /** A successful login always says so; a role other than CUSTOMER adds
      an error toast. */
  function SuccessToasts(role: Value): (ts: seq<Toast>)
    ensures |ts| > 0 && ts[0] == Success("Login successful!")
    ensures role == Str("CUSTOMER") <==> |ts| == 1
    ensures role != Str("CUSTOMER") ==> ts == [Success("Login successful!"), Error("Role not supported yet")]
  {
    if role == Str("CUSTOMER") then [Success("Login successful!")]
    else [Success("Login successful!"), Error("Role not supported yet")]
  }

  /** Only the CUSTOMER role is redirected, to its dashboard. */
  function SuccessRedirect(role: Value): (nav: seq<string>)
    ensures role == Str("CUSTOMER") ==> nav == ["/dashboard"]
    ensures role != Str("CUSTOMER") ==> nav == []
  {
    if role == Str("CUSTOMER") then ["/dashboard"] else []
  }

  class Component {
    var userEmail: string
    var userPassword: string
    var remember: bool
    var loading: bool
    var pending: Option<Submission>
    /** Credentials posted to the login endpoint, in order. */
    var requests: seq<(string, string)>
    /** Arguments of each `onLogin` call. */
    var onLoginCalls: seq<(Value, Value)>
    var toasts: seq<Toast>
    var navigations: seq<string>

    /** The loading flag is up exactly while a submission awaits its answer. */
    ghost predicate Valid()
      reads this
    {
      loading <==> pending.Some?
    }

    constructor ()
      ensures Valid()
      ensures userEmail == "" && userPassword == "" && !remember && !loading
      ensures requests == [] && onLoginCalls == [] && toasts == [] && navigations == []
    {
      userEmail, userPassword, remember, loading := "", "", false, false;
      pending := None;
      requests, onLoginCalls, toasts, navigations := [], [], [], [];
    }

    method SetEmail(value: string)
      requires Valid()
      modifies this
      ensures Valid()
      ensures userEmail == value
      ensures userPassword == old(userPassword) && remember == old(remember) && loading == old(loading)
      ensures pending == old(pending) && requests == old(requests) && onLoginCalls == old(onLoginCalls)
      ensures toasts == old(toasts) && navigations == old(navigations)
    {
      userEmail := value;
    }

    method SetPassword(value: string)
      requires Valid()
      modifies this
      ensures Valid()
      ensures userPassword == value
      ensures userEmail == old(userEmail) && remember == old(remember) && loading == old(loading)
      ensures pending == old(pending) && requests == old(requests) && onLoginCalls == old(onLoginCalls)
      ensures toasts == old(toasts) && navigations == old(navigations)
    {
      userPassword := value;
    }

    /** The checkbox's `onChange`: `setRemember(!remember)`. */
    method ToggleRemember()
      requires Valid()
      modifies this
      ensures Valid()
      ensures remember == !old(remember)
      ensures userEmail == old(userEmail) && userPassword == old(userPassword) && loading == old(loading)
      ensures pending == old(pending) && requests == old(requests) && onLoginCalls == old(onLoginCalls)
      ensures toasts == old(toasts) && navigations == old(navigations)
    {
      remember := !remember;
    }

    /** Submitting the form up to the awaited request: the flag goes up and
      the credentials are posted. The submit button is disabled while
      loading, so a submission never starts while another is pending. */
    method HandleLogin()
      requires Valid() && !loading
      modifies this
      ensures Valid() && loading
      ensures pending == Some(Submission(userEmail, userPassword, remember))
      ensures requests == old(requests) + [(userEmail, userPassword)]
      ensures userEmail == old(userEmail) && userPassword == old(userPassword) && remember == old(remember)
      ensures onLoginCalls == old(onLoginCalls) && toasts == old(toasts) && navigations == old(navigations)
    {
      loading := true;
      pending := Some(Submission(userEmail, userPassword, remember));
      requests := requests + [(userEmail, userPassword)];
    }

    /** The `try` branch of `handleLogin` once the request resolves: the
      user is built from the submitted email and the response, persisted
      only when "remember me" was ticked, handed to the application in the
      page's own argument order (user first), and the role decides the
      redirect. The flag comes down. */
    method LoginSucceeded(data: LoginResponse, storage: Storage)
      requires Valid() && loading
      modifies this, storage
      ensures Valid() && !loading
      ensures userEmail == old(userEmail) && userPassword == old(userPassword) && remember == old(remember)
      ensures requests == old(requests) && storage.session == old(storage.session)
      ensures old(pending.value.remember) ==>
        storage.local == RememberedArea(data.token, SessionUser(old(pending.value.email), data))
      ensures !old(pending.value.remember) ==> storage.local == old(storage.local)
      ensures onLoginCalls ==
        old(onLoginCalls) + [OnLoginArgumentsAsWritten(SessionUser(old(pending.value.email), data), data.token)]
      ensures toasts == old(toasts) + SuccessToasts(data.role)
      ensures navigations == old(navigations) + SuccessRedirect(data.role)
    {
      var sub := pending.value;
      var user := SessionUser(sub.email, data);
      if sub.remember {
        storage.local := RememberedArea(data.token, user);
      }
      onLoginCalls := onLoginCalls + [OnLoginArgumentsAsWritten(user, data.token)];
      toasts := toasts + SuccessToasts(data.role);
      navigations := navigations + SuccessRedirect(data.role);
      loading := false;
      pending := None;
    }

    /** The `catch` branch: an error toast, nothing stored, no hand-over and
      no redirect. The flag comes down. */
    method LoginFailed()
      requires Valid() && loading
      modifies this
      ensures Valid() && !loading
      ensures userEmail == old(userEmail) && userPassword == old(userPassword) && remember == old(remember)
      ensures requests == old(requests) && onLoginCalls == old(onLoginCalls) && navigations == old(navigations)
      ensures toasts == old(toasts) + [Error("Invalid credentials")]
    {
      toasts := toasts + [Error("Invalid credentials")];
      loading := false;
      pending := None;
    }
  }
}
