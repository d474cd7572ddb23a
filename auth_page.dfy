/** The sign-in page: query parameters choose the mode and the user type, the
    type buttons hide 'admin' while signing up, a submission registers or logs in,
    stores what the server returned and routes to the dashboard of the chosen
    type. The server call is an input (what it answered, or the message of what
    it threw); browser storage and the router are fields of `AuthPage`. */
module AuthPage {
  import opened Wrappers
  import opened Seqs
  import Text

  const UserTypes: seq<string> := ["student", "counselor", "admin"]

  /** The mode after the query's `mode`: 'signup' and 'login' set it, anything else
      (or nothing) keeps it. */
  function QueryMode(mode: Option<string>, isSignup: bool): (r: bool)
    ensures mode == Some("signup") ==> r
    ensures mode == Some("login") ==> !r
    ensures mode != Some("signup") && mode != Some("login") ==> r == isSignup
  {
    if mode == Some("signup") then true
    else if mode == Some("login") then false
    else isSignup
  }

  /** The user type after the query's `type`: taken only when it is one of the three. */
  function QueryType(userType: Option<string>, current: string): (r: string)
    ensures current in UserTypes ==> r in UserTypes
    ensures r != current ==> userType == Some(r) && r in UserTypes
    ensures userType.Some? && userType.value in UserTypes ==> r == userType.value
  {
    if Text.Truthy(userType) && userType.value in UserTypes then userType.value else current
  }

  function NotAdminWhile(isSignup: bool): string -> bool {
    (t: string) => !(isSignup && t == "admin")
  }

  /** The type buttons shown: all three when logging in, all but 'admin' when signing up. */
  function VisibleTypes(isSignup: bool): (r: seq<string>)
    ensures SubsequenceOf(r, UserTypes)
    ensures "admin" in r <==> !isSignup
    ensures "student" in r && "counselor" in r
  {
    Filter(NotAdminWhile(isSignup), UserTypes)
  }

  datatype AuthCall = RegisterCall | LoginCall

  /** The call a submission makes: a registration only when signing up as a student
      or a counselor; everything else logs in. */
  function ChooseCall(isSignup: bool, userType: string): (c: AuthCall)
    ensures c == RegisterCall <==> isSignup && userType != "admin"
  {
    if isSignup && userType != "admin" then RegisterCall else LoginCall
  }

  /** The page never registers an administrator, even when 'admin' was chosen before
      switching to sign-up (or came from the query), and every type it shows while
      signing up registers. */
  lemma AdminNeverRegisters(isSignup: bool, t: string)
    ensures ChooseCall(isSignup, "admin") == LoginCall
    ensures isSignup && t in VisibleTypes(isSignup) ==> ChooseCall(isSignup, t) == RegisterCall
  {
  }

  /** The route after a successful submission, by user type. */
  function RouteFor(userType: string): (r: Option<string>)
    ensures r.Some? <==> userType in UserTypes
    ensures userType == "student" ==> r == Some("/student-dashboard")
    ensures userType == "counselor" ==> r == Some("/counselor-dashboard")
    ensures userType == "admin" ==> r == Some("/admin-dashboard")
  {
    if userType == "student" then Some("/student-dashboard")
    else if userType == "counselor" then Some("/counselor-dashboard")
    else if userType == "admin" then Some("/admin-dashboard")
    else None
  }

  /** Distinct types lead to distinct dashboards. */
  lemma RoutesDistinct(a: string, b: string)
    requires a in UserTypes && b in UserTypes && a != b
    ensures RouteFor(a) != RouteFor(b)
  {
  }

  datatype Field = NameField | EmailField | PasswordField | EmergencyContactField | InstitutionField

  /** The inputs of the form: email and password always; the name and the
      institution when signing up as a student or a counselor; the emergency
      contact when signing up as a student. */
  function FormFields(isSignup: bool, userType: string): (fs: set<Field>)
    ensures EmailField in fs && PasswordField in fs
    ensures NameField in fs <==> ChooseCall(isSignup, userType) == RegisterCall
    ensures InstitutionField in fs <==> ChooseCall(isSignup, userType) == RegisterCall
    ensures EmergencyContactField in fs <==> isSignup && userType == "student"
  {
    {EmailField, PasswordField}
    + (if isSignup && userType != "admin" then {NameField, InstitutionField} else {})
    + (if isSignup && userType == "student" then {EmergencyContactField} else {})
  }

  /** The sign-up / log-in switch is hidden while 'admin' is chosen. */
  function ToggleShown(userType: string): (b: bool)
    ensures b <==> userType != "admin"
  {
    userType != "admin"
  }

  /** What the server call of a submission did: answered with an optional token and
      an optional serialised user, or threw an error with a message. */
  datatype SubmitResult = Answered(token: Option<string>, user: Option<string>) | Threw(message: string)

  const SignedUp := "Account created successfully!"
  const LoggedIn := "Logged in successfully!"
  const FallbackError := "Something went wrong"

  /** The message shown after a failure: the error's own, or the fallback for an empty one. */
  function ErrorMessage(message: string): (r: string)
    ensures r != ""
    ensures message != "" ==> r == message
  {
    if message != "" then message else FallbackError
  }

  /** The storage after a successful answer: the token and the user are written only
      when present, and nothing else changes. */
  function Persist(storage: map<string, string>, token: Option<string>, user: Option<string>): (s: map<string, string>)
    ensures Text.Truthy(token) ==> "authToken" in s && s["authToken"] == token.value
    ensures !Text.Truthy(token) ==> ("authToken" in s <==> "authToken" in storage)
                                    && ("authToken" in storage ==> s["authToken"] == storage["authToken"])
    ensures user.Some? ==> "authUser" in s && s["authUser"] == user.value
    ensures user.None? ==> ("authUser" in s <==> "authUser" in storage)
                           && ("authUser" in storage ==> s["authUser"] == storage["authUser"])
    ensures forall k :: k != "authToken" && k != "authUser" ==> (k in s <==> k in storage)
    ensures forall k :: k in storage && k != "authToken" && k != "authUser" ==> s[k] == storage[k]
  {
    var s1 := if Text.Truthy(token) then storage["authToken" := token.value] else storage;
    if user.Some? then s1["authUser" := user.value] else s1
  }

  /** A failed submission, or one with an empty answer, leaves storage as it was. */
  lemma EmptyAnswerStoresNothing(storage: map<string, string>)
    ensures Persist(storage, None, None) == storage
    ensures Persist(storage, Some(""), None) == storage
  {
  }

  class Page {
    var isSignup: bool
    var userType: string
    var message: string
    var messageType: string
    /** Browser storage. */
    var storage: map<string, string>
    /** The last route navigated to, if any. */
    var route: Option<string>

    /** The chosen type is always one of the three. */
    ghost predicate Valid()
      reads this
    {
      userType in UserTypes
    }

    /** The initial state: logging in as a student, no message, nothing navigated. */
    constructor (storage0: map<string, string>)
      ensures Valid()
      ensures !isSignup && userType == "student" && message == "" && messageType == ""
      ensures storage == storage0 && route.None?
    {
      isSignup, userType, message, messageType := false, "student", "", "";
      storage, route := storage0, None;
    }

    /** The query effect. */
    method ApplyQuery(mode: Option<string>, queryType: Option<string>)
      requires Valid()
      modifies this
      ensures Valid()
      ensures isSignup == QueryMode(mode, old(isSignup))
      ensures userType == QueryType(queryType, old(userType))
      ensures message == old(message) && messageType == old(messageType)
      ensures storage == old(storage) && route == old(route)
    {
      if mode == Some("signup") {
        isSignup := true;
      }
      if mode == Some("login") {
        isSignup := false;
      }
      if Text.Truthy(queryType) && queryType.value in UserTypes {
        userType := queryType.value;
      }
    }

    /** A type button click; only the shown buttons can be clicked. */
    method SelectType(t: string)
      requires Valid()
      requires t in VisibleTypes(isSignup)
      modifies this
      ensures Valid()
      ensures userType == t
      ensures isSignup == old(isSignup) && storage == old(storage) && route == old(route)
      ensures message == old(message) && messageType == old(messageType)
    {
      userType := t;
    }

    /** The sign-up / log-in switch, shown only while 'admin' is not chosen. */
    method ToggleMode()
      requires Valid()
      requires ToggleShown(userType)
      modifies this
      ensures Valid()
      ensures isSignup == !old(isSignup)
      ensures userType == old(userType) && storage == old(storage) && route == old(route)
      ensures message == old(message) && messageType == old(messageType)
    {
      isSignup := !isSignup;
    }

    /** `handleSubmit`: the call made, then, on an answer, the stored token and user,
        the success message and the dashboard route; on an error, the error message
        and no navigation. */
    method Submit(result: SubmitResult) returns (call: AuthCall)
      requires Valid()
      modifies this
      ensures Valid()
      ensures call == ChooseCall(isSignup, userType)
      ensures isSignup == old(isSignup) && userType == old(userType)
      ensures result.Answered? ==>
                && storage == Persist(old(storage), result.token, result.user)
                && message == (if call == RegisterCall then SignedUp else LoggedIn)
                && messageType == "success"
                && route == RouteFor(userType)
      ensures result.Threw? ==>
                && storage == old(storage) && route == old(route)
                && message == ErrorMessage(result.message) && messageType == "error"
    {
      call := ChooseCall(isSignup, userType);
      match result
      case Answered(token, user) =>
        storage := Persist(storage, token, user);
        message := if call == RegisterCall then SignedUp else LoggedIn;
        messageType := "success";
        route := RouteFor(userType);
      case Threw(m) =>
        message := ErrorMessage(m);
        messageType := "error";
    }

    /** The auto-clear effect, once its four seconds pass. */
    method ClearMessage()
      requires Valid()
      modifies this
      ensures Valid()
      ensures message == ""
      ensures messageType == old(messageType) && isSignup == old(isSignup) && userType == old(userType)
      ensures storage == old(storage) && route == old(route)
    {
      message := "";
    }
  }
}
