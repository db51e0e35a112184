/**
 * The login/registration page: its form state and the two button handlers,
 * which check that both fields are filled, call the user store, and report
 * the result on the page and in the application state.
 */
module LoginPage {
  import opened Wrappers
  import opened UserService

  const RequiredMessage := "Username and password are required."
  const LoginSucceededMessage := "Login successful!"
  const LoginFailedMessage := "Login failed. Please check your username and password."

  function RegisteredMessage(username: string): string {
    "User '" + username + "' created successfully! You can now log in."
  }

  function RegistrationFailedMessage(username: string): string {
    "Failed to create user '" + username + "'. Username might already exist."
  }

  /** The value of the page's form state at one moment. */
  datatype LoginView = LoginView(
    regUsername: string,
    regPassword: string,
    regAgentSettings: string,
    registrationStatus: string,
    loginUsername: string,
    loginPassword: string,
    loginStatus: string)

  /** The page's form state; every field starts out empty. */
  class LoginPageState {
    var regUsername: string
    var regPassword: string
    var regAgentSettings: string
    var registrationStatus: string
    var loginUsername: string
    var loginPassword: string
    var loginStatus: string

    function View(): LoginView
      reads this
    {
      LoginView(regUsername, regPassword, regAgentSettings, registrationStatus,
                loginUsername, loginPassword, loginStatus)
    }

    constructor ()
      ensures View() == LoginView("", "", "", "", "", "", "")
    {
      regUsername, regPassword, regAgentSettings, registrationStatus := "", "", "", "";
      loginUsername, loginPassword, loginStatus := "", "", "";
    }
  }

  /** The two fields of the application state that logging in sets. */
  class AppState {
    var currentUsername: string
    var agentSettings: Option<string>

    constructor (currentUsername: string, agentSettings: Option<string>)
      ensures this.currentUsername == currentUsername && this.agentSettings == agentSettings
    {
      this.currentUsername := currentUsername;
      this.agentSettings := agentSettings;
    }
  }

  /**
   * "Register": with both fields filled, create the user with the typed
   * settings text (an empty field is stored as `""`, not `None`). On success
   * the registration fields are cleared; on failure they are kept and the
   * status names the user. The login half of the page is never touched.
   */
  method OnRegisterClick(page: LoginPageState, store: UserTable, hashing: Hashing, io: DbCall)
    requires store.Valid()
    modifies page, store
    ensures store.Valid()
    ensures var u, p := old(page.regUsername), old(page.regPassword);
      u == "" || p == "" ==>
        page.View() == old(page.View()).(registrationStatus := RequiredMessage) &&
        store.rows == old(store.rows) && store.nextId == old(store.nextId)
    ensures var u, p, s := old(page.regUsername), old(page.regPassword), old(page.regAgentSettings);
      u != "" && p != "" && hashing.Hashed? && io.Completes? && u !in old(store.rows) ==>
        page.View() == old(page.View()).(registrationStatus := RegisteredMessage(u),
                                         regUsername := "", regPassword := "", regAgentSettings := "") &&
        store.rows == old(store.rows)[u := UserRow(old(store.nextId), u, Bcrypt.Hash(p, hashing.salt), Some(s))] &&
        store.nextId == old(store.nextId) + 1
    ensures var u, p := old(page.regUsername), old(page.regPassword);
      u != "" && p != "" && !(hashing.Hashed? && io.Completes? && u !in old(store.rows)) ==>
        page.View() == old(page.View()).(registrationStatus := RegistrationFailedMessage(u)) &&
        store.rows == old(store.rows) && store.nextId == old(store.nextId)
  {
    if page.regUsername == "" || page.regPassword == "" {
      page.registrationStatus := RequiredMessage;
      return;
    }
    var success := store.CreateUser(page.regUsername, page.regPassword, Some(page.regAgentSettings), hashing := hashing, io := io);
    if success {
      page.registrationStatus := RegisteredMessage(page.regUsername);
      page.regUsername := "";
      page.regPassword := "";
      page.regAgentSettings := "";
    } else {
      page.registrationStatus := RegistrationFailedMessage(page.regUsername);
    }
  }

  /**
   * "Login": with both fields filled, check the password. On success the
   * application state takes the username and that user's stored settings and
   * the login fields are cleared; on failure both application fields become
   * `""` and the typed fields stay. The store is only read; every hash in a
   * valid table is well formed, so the password check never raises.
   */
  method OnLoginClick(page: LoginPageState, app: AppState, store: UserTable, verifyIo: DbCall, settingsIo: DbCall)
    requires store.Valid()
    modifies page, app
    ensures var u, p := old(page.loginUsername), old(page.loginPassword);
      u == "" || p == "" ==>
        page.View() == old(page.View()).(loginStatus := RequiredMessage) &&
        app.currentUsername == old(app.currentUsername) && app.agentSettings == old(app.agentSettings)
    ensures var u, p := old(page.loginUsername), old(page.loginPassword);
      u != "" && p != "" && VerifyPassword(store.rows, u, p, verifyIo) ==>
        page.View() == old(page.View()).(loginStatus := LoginSucceededMessage, loginUsername := "", loginPassword := "") &&
        app.currentUsername == u && app.agentSettings == GetAgentSettings(store.rows, u, settingsIo)
    ensures var u, p := old(page.loginUsername), old(page.loginPassword);
      u != "" && p != "" && !VerifyPassword(store.rows, u, p, verifyIo) ==>
        page.View() == old(page.View()).(loginStatus := LoginFailedMessage) &&
        app.currentUsername == "" && app.agentSettings == Some("")
  {
    if page.loginUsername == "" || page.loginPassword == "" {
      page.loginStatus := RequiredMessage;
      return;
    }
    if VerifyPassword(store.rows, page.loginUsername, page.loginPassword, verifyIo) {
      app.currentUsername := page.loginUsername;
      var agentSettingsText := GetAgentSettings(store.rows, page.loginUsername, settingsIo);
      app.agentSettings := agentSettingsText;
      page.loginStatus := LoginSucceededMessage;
      page.loginUsername := "";
      page.loginPassword := "";
    } else {
      page.loginStatus := LoginFailedMessage;
      app.currentUsername := "";
      app.agentSettings := Some("");
    }
  }

  /**
   * Registering a new user and then logging in with the same name and password
   * signs that user in with the settings text typed at registration, as long as
   * no call fails.
   */
  method RegisterThenLogIn(page: LoginPageState, app: AppState, store: UserTable, salt: Bcrypt.Salt,
                           username: string, password: string, settings: string)
    requires store.Valid() && username != "" && password != "" && username !in store.rows
    modifies page, app, store
    ensures store.Valid()
    ensures app.currentUsername == username && app.agentSettings == Some(settings)
  {
    page.regUsername, page.regPassword, page.regAgentSettings := username, password, settings;
    OnRegisterClick(page, store, Hashed(salt), Completes);
    assert store.rows[username].passwordHash == Bcrypt.Hash(password, salt);
    Bcrypt.CheckAcceptsHash(password, salt);
    page.loginUsername, page.loginPassword := username, password;
    OnLoginClick(page, app, store, Completes, Completes);
  }
}
