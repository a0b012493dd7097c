/** The App component as an object: its state slots are fields, and each
    event handler is a method that updates them in the order the handler
    calls its setters. Backend answers and the browser's host are
    parameters; each method that reaches the backend returns the requests it
    issued. Every method is tied to its transition in `Machine`, where the
    properties of the handlers are proved. */
module Controller {
  import opened Types
  import opened Text
  import Machine

  class App {
    var view: ViewState
    var user: Option<UserProfile>
    var email: string
    var password: string
    var isRegister: bool
    var authError: string
    var hostname: string

    /** The values of the state slots. */
    function State(): Machine.AppState
      reads this
    {
      Machine.AppState(view, user, email, password, isRegister, authError, hostname)
    }

    /** The `useState` initial values. */
    constructor ()
      ensures State() == Machine.Initial()
      ensures view == LOADING && user == None && !isRegister && authError == ""
    {
      view := LOADING;
      user := None;
      email := "";
      password := "";
      isRegister := false;
      authError := "";
      hostname := "";
    }

    /** The mount effect: record the host, then check the session. */
    method Mount(host: string, get: Outcome<Session>) returns (calls: seq<Call>)
      modifies this
      ensures Machine.Transition(State(), calls) == Machine.Mount(old(State()), host, get)
      ensures hostname == host && (view == LOGIN || view == DASHBOARD)
    {
      hostname := host;
      calls := CheckSession(get, host);
    }

    method CheckSession(get: Outcome<Session>, host: string) returns (calls: seq<Call>)
      modifies this
      ensures Machine.Transition(State(), calls) == Machine.CheckSession(old(State()), get, host)
      ensures get.Ok? ==> view == DASHBOARD && user == Some(Machine.ProfileOf(get.value))
      ensures get.Err? ==> view == LOGIN && user == old(user)
    {
      calls := [GetAccount];
      match get
      case Ok(session) =>
        user := Some(UserProfile(session.id, session.name, session.email));
        view := DASHBOARD;
      case Err(message) =>
        if message == FailedToFetch {
          authError := ConnectionMessage(host);
        }
        view := LOGIN;
    }

    /** Form submission; `uniqueId` stands for `ID.unique()`. */
    method HandleAuth(uniqueId: string, create: Outcome<()>, login: Outcome<()>,
                      get: Outcome<Session>, host: string) returns (calls: seq<Call>)
      modifies this
      ensures Machine.Transition(State(), calls)
           == Machine.HandleAuth(old(State()), uniqueId, create, login, get, host)
      ensures email == old(email) && password == old(password) && isRegister == old(isRegister)
    {
      authError := "";
      calls := [];
      if isRegister {
        calls := calls + [CreateAccount(uniqueId, email, password, DisplayName(email))];
        if create.Err? {
          authError := AuthErrorText(create.message, host);
          return;
        }
      }
      calls := calls + [CreateSession(email, password)];
      if login.Err? {
        authError := AuthErrorText(login.message, host);
        return;
      }
      var more := CheckSession(get, host);
      calls := calls + more;
    }

    /** The offline demo button: no backend request. */
    method HandleDemoLogin()
      modifies this
      ensures Machine.Transition(State(), []) == Machine.HandleDemoLogin(old(State()))
      ensures user == Some(Machine.DemoUser) && view == DASHBOARD && authError == ""
    {
      user := Some(UserProfile("demo-user", "Demo User", "demo@example.com"));
      view := DASHBOARD;
      authError := "";
    }

    /** Sign out; `delete` is what `account.deleteSession('current')` answers
        when it is called. */
    method HandleLogout(delete: Outcome<()>) returns (calls: seq<Call>)
      modifies this
      ensures Machine.Transition(State(), calls) == Machine.HandleLogout(old(State()), delete)
      ensures user == None && view == LOGIN
    {
      calls := [];
      if !(user.Some? && user.value.id == "demo-user") {
        calls := [DeleteSession("current")];
      }
      match delete
      case Ok(_) =>
        user := None;
        view := LOGIN;
      case Err(_) =>
        user := None;
        view := LOGIN;
    }

    /** The "Register" / "Sign In" switch under the form. */
    method ToggleMode()
      modifies this
      ensures Machine.Transition(State(), []) == Machine.ToggleMode(old(State()))
      ensures isRegister == !old(isRegister) && authError == ""
    {
      isRegister := !isRegister;
      authError := "";
    }

    /** The sidebar's `onChangeView`. */
    method ChangeView(target: ViewState)
      modifies this
      ensures Machine.Transition(State(), []) == Machine.ChangeView(old(State()), target)
    {
      view := target;
    }

    /** A click on one of the dashboard cards. */
    method OpenCard(c: Machine.Card)
      modifies this
      ensures Machine.Transition(State(), []) == Machine.OpenCard(old(State()), c)
    {
      match c
      case NotesCard => view := NOTES;
      case AccountsCard => view := ACCOUNTS;
      case StorageCard => view := STORAGE;
    }

    method SetEmail(value: string)
      modifies this
      ensures Machine.Transition(State(), []) == Machine.SetEmail(old(State()), value)
    {
      email := value;
    }

    method SetPassword(value: string)
      modifies this
      ensures Machine.Transition(State(), []) == Machine.SetPassword(old(State()), value)
    {
      password := value;
    }
  }
}
