# Remote agents, user store and login of the demo UI, modelled in Dafny

This project models three small pieces of the demo web UI:

- **The "add remote agent" dialog** (`demo/ui/pages/agent_list.py`). Its form
  state is the class `AgentList.AgentState`, one field per field of the
  source's `AgentState`; `View()` gives its value as an `AgentView`. Each
  event handler is a method whose contract states the whole new view.
  The new view is written either as a field update of the old one ("nothing
  else changes") or through the functions `Loaded`, `BuildDetails` and `Saved`.
  The lemmas about those functions state what the dialog promises: how the
  Read and Save buttons react, what is sent for registration, and what a
  failed or successful save leaves behind. The agent-card fetch and the
  registration call are parameters (`CardFetch`, `Registration`). `agent_name`
  and `error` are `Option<string>`, because the handlers store `None` in them,
  and the source only tests their truthiness (`Wrappers.Truthy`).
- **The mode parser** (`ModeText`). `[mode.strip() for mode in text.split(',')]`
  is written out over Python's `str.strip`, `str.split(',')` and `', '.join`.
  It is proved to give one stripped, comma-free mode per comma-separated
  piece. It is also proved to invert the text the dialog shows, for every
  non-empty list of stripped, comma-free modes.
- **The user credential store** (`demo/ui/service/server/user_service.py`). The
  `users` table is the class `UserService.UserTable`: a map from username to
  row, plus the next auto-increment id. Its invariant (`TableInvariant`) holds
  the schema's guarantees. `create_user` and `update_agent_settings` are
  methods. The three read-only queries are functions over the map. bcrypt is
  the module `Bcrypt`, a concrete stand-in that keeps exactly these facts:
  - a password checks against its own hash;
  - a hash never equals the password;
  - any other password is rejected.
- **The login page handlers** (`demo/ui/pages/login_page.py`): `OnRegisterClick`
  and `OnLoginClick` over `LoginPageState`, the two `AppState` fields they set,
  and the user table.

Where the code and its informal description differ, the model follows the code:

- The reset after a successful save (`agent_list.py:239-250`) does not touch
  `agent_framework_type`, unlike "Cancel". `SaveSucceeded` states this.
- The round trip of the mode fields holds only for non-empty lists. `[]` is
  shown as `""`, which parses back to `[""]` (`ParseEmptyModes`).
- `load_agent_info` does not check manual mode; only the Read button guards it.
- `set_manual_input` changes nothing but the flag.
- The Save button follows `agent_list.py:85`. It can be shown in auto mode with
  an empty address, and then Save does nothing (`SaveButtonWithoutAddress`).

## Model

| member | source | states |
|---|---|---|
| `ModeText.Strip` | demo/ui/pages/agent_list.py:113 | `str.strip()`: the result has no whitespace at either end |
| `ModeText.StripIsTrim` | demo/ui/pages/agent_list.py:113 | what strip removes is leading and trailing whitespace only; the result is the contiguous piece of the input in between |
| `ModeText.StripStripped` | demo/ui/pages/agent_list.py:113 | strip leaves an already stripped string unchanged |
| `ModeText.Split` | demo/ui/pages/agent_list.py:113 | `str.split(',')` always yields at least one piece |
| `ModeText.SplitPieces` | demo/ui/pages/agent_list.py:113 | split yields commas + 1 pieces, none containing a comma |
| `ModeText.JoinSplit` | demo/ui/pages/agent_list.py:113 | joining the pieces with `,` gives back the text, so split loses nothing |
| `ModeText.ParseModes` | demo/ui/pages/agent_list.py:111-117 | the mode parser returns commas + 1 modes, each stripped and comma-free |
| `ModeText.ParsedPieces` | demo/ui/pages/agent_list.py:113 | each parsed mode is the strip of the piece at the same position |
| `ModeText.SplitJoinedModes` | demo/ui/pages/agent_list.py:54-55 | the pieces of `', '.join(modes)` are the modes, each after the first preceded by one space |
| `ModeText.ParseJoinedModes` | demo/ui/pages/agent_list.py:54-55 | parsing the shown text of a non-empty list of stripped, comma-free modes returns that list |
| `ModeText.JoinModes` | demo/ui/pages/agent_list.py:54-55 | `', '.join(modes)`: the modes in order, separated by a comma and a space (stated by `SplitJoinedModes` and `ParseJoinedModes`) |
| `ModeText.ParseEmptyModes` | demo/ui/pages/agent_list.py:54-55 | the empty list is shown as `""`, which parses to `[""]` |
| `AgentList.ShowRead` | demo/ui/pages/agent_list.py:81 | "Read" is offered in auto mode while no name is held (stated by `ButtonsExclusive` and `DefaultsButtons`) |
| `AgentList.ShowSave` | demo/ui/pages/agent_list.py:85 | "Save" is offered in manual mode, or when a name is held and no error (stated by `ButtonsExclusive` and `SaveButtonSends`) |
| `AgentList.Loaded` | demo/ui/pages/agent_list.py:127-148 | the form after "Read" (stated by `LoadOutcome`, `LoadThenSave` and `TransitionsConsistent`) |
| `AgentList.Saved` | demo/ui/pages/agent_list.py:168-250 | the form after "Save" (stated by `SaveSucceeded`, `SaveFailed`, `SaveButtonWithoutAddress` and `TransitionsConsistent`) |
| `AgentList.BuildDetails` | demo/ui/pages/agent_list.py:172-228 | details are built iff manual mode, or a non-empty address with no error or with testing off; they carry the manual flag |
| `AgentList.SaveSendsStrippedAddress` | demo/ui/pages/agent_list.py:175-176 | every details record sent has the stripped address field as its address |
| `AgentList.ManualSave` | demo/ui/pages/agent_list.py:172-185 | in manual mode, name = address = stripped address field, manual flag true, all other fields from the form |
| `AgentList.AutoSave` | demo/ui/pages/agent_list.py:197-210 | an auto-mode save with an address and no error sends the form's current name, description, modes, flags, framework type and test flag, with the stripped address, whatever edits preceded it |
| `AgentList.SaveSendsName` | demo/ui/pages/agent_list.py:145-148 | in a consistent form, every record sent carries a name (never `None`) |
| `AgentList.InconsistentSendsNoName` | demo/ui/pages/agent_list.py:199-201 | a form with no name and no error, which no handler produces, would send the name `None` |
| `AgentList.UntestedSave` | demo/ui/pages/agent_list.py:211-223 | an auto-mode save with an error and testing off sends only the address, with blank fields and both flags false |
| `AgentList.LoadOutcome` | demo/ui/pages/agent_list.py:127-148 | a read keeps address, mode switches and dialog flag; on success name, description, framework type (the provider's organization, or `""` without one), both mode lists and both capability flags come from the card and the error is None; on failure only the name (None) and the error ("Cannot connect to agent as " + address) change; button visibility after either |
| `AgentList.LoadThenSave` | demo/ui/pages/agent_list.py:127-148 | after a successful auto-mode read at a non-empty address, Save sends exactly the card's fields and the stripped address |
| `AgentList.ButtonsExclusive` | demo/ui/pages/agent_list.py:81-86 | Read and Save are never shown together; neither is shown exactly when auto mode has both a name and an error |
| `AgentList.DefaultsButtons` | demo/ui/tests/test_agent_state.py:9-22 | the default form offers Read, not Save, and is consistent |
| `AgentList.SaveButtonSends` | demo/ui/pages/agent_list.py:85 | when Save is shown and the address is non-empty, Save calls the registration |
| `AgentList.SaveButtonWithoutAddress` | demo/ui/pages/agent_list.py:224-228 | Save can be shown in auto mode with an empty address, and then leaves the state untouched |
| `AgentList.SaveSucceeded` | demo/ui/pages/agent_list.py:239-250 | a successful save equals the defaults except the framework type (kept) and the error (None); it then offers Read and not Save |
| `AgentList.SaveFailed` | demo/ui/pages/agent_list.py:230-237 | a failed save changes only the error, to "Failed to save agent: " + message; the dialog stays open; in auto mode Save disappears |
| `AgentList.TransitionsConsistent` | demo/ui/pages/agent_list.py:145-148 | read and save keep the invariant "name is None only while an error is shown" |
| `AgentList.AgentState.constructor` | demo/ui/tests/test_agent_state.py:9-22 | the initial form state is the defaults |
| `AgentList.AgentState.SetAgentAddress` | demo/ui/pages/agent_list.py:90-92 | only the address changes |
| `AgentList.AgentState.SetTestConnection` | demo/ui/pages/agent_list.py:95-97 | only the test-connection flag changes |
| `AgentList.AgentState.SetManualInput` | demo/ui/pages/agent_list.py:99-101 | only the manual flag changes; address, name and error are kept |
| `AgentList.AgentState.SetAgentDescription` | demo/ui/pages/agent_list.py:103-105 | only the description changes |
| `AgentList.AgentState.SetAgentFrameworkType` | demo/ui/pages/agent_list.py:107-109 | only the framework type changes |
| `AgentList.AgentState.SetInputModes` | demo/ui/pages/agent_list.py:111-113 | only the input modes change, to the parsed text |
| `AgentList.AgentState.SetOutputModes` | demo/ui/pages/agent_list.py:115-117 | only the output modes change, to the parsed text |
| `AgentList.AgentState.SetStreamSupported` | demo/ui/pages/agent_list.py:119-121 | only the streaming flag changes |
| `AgentList.AgentState.SetPushNotificationsSupported` | demo/ui/pages/agent_list.py:123-125 | only the push-notification flag changes |
| `AgentList.AgentState.LoadAgentInfo` | demo/ui/pages/agent_list.py:127-148 | the new form state is `Loaded(old state, fetch outcome)` |
| `AgentList.AgentState.CancelAgentDialog` | demo/ui/pages/agent_list.py:151-165 | from any state, the form becomes exactly the defaults |
| `AgentList.AgentState.SaveAgent` | demo/ui/pages/agent_list.py:168-250 | the registration receives `BuildDetails(old state)`, and its name is never `None`; the new state is `Saved(old state, outcome)` |
| `AgentList.AgentState.ResetAfterSave` | demo/ui/pages/agent_list.py:239-250 | after the reset the form equals the defaults, except that the framework type is kept and the error is None |
| `Bcrypt.Hash` | demo/ui/service/server/user_service.py:10 | `hashpw` with a given salt: the prefix, the salt, and a digest of the password (stated by `HashShape`) |
| `Bcrypt.Check` | demo/ui/service/server/user_service.py:51 | `checkpw`: the stored hash is well formed and equals the hash of the password under its own salt (stated by `CheckAcceptsHash` and `CheckRejectsOthers`) |
| `Bcrypt.HashShape` | demo/ui/service/server/user_service.py:10 | a hash is well formed, carries its salt, and differs from the password |
| `Bcrypt.CheckAcceptsHash` | demo/ui/service/server/user_service.py:51 | `checkpw(p, hashpw(p, salt))` holds for every salt |
| `Bcrypt.CheckRejectsOthers` | demo/ui/service/server/user_service.py:51 | any password other than the hashed one is rejected |
| `UserService.GetUserByUsername` | demo/ui/service/server/user_service.py:26-44 | a row is returned iff the database call completes and the username is present, and it is the stored row |
| `UserService.VerifyPassword` | demo/ui/service/server/user_service.py:46-52 | true iff the call completes, the user exists and the password checks against the stored hash |
| `UserService.GetAgentSettings` | demo/ui/service/server/user_service.py:69-74 | the stored settings (possibly None) of an existing user; None for an unknown user or a failed call |
| `UserService.CreatedUser` | demo/ui/service/server/user_service.py:7-18 | a row inserted under a fresh name keeps the invariant; its password verifies, no other password does; the hash is not the password; the settings read back; other users are unaffected |
| `UserService.UpdatedSettings` | demo/ui/service/server/user_service.py:54-67 | changing one user's settings keeps the invariant, makes them readable, and keeps every id, hash, other user and password check |
| `UserService.UserTable.constructor` | demo/ui/service/server/database_setup.py:11-16 | the new table is empty and its first id is 1 |
| `UserService.UserTable.CreateUser` | demo/ui/service/server/user_service.py:7-24 | the settings default to None; succeeds iff hashing and the database call complete and the name is new; then exactly one row is added, with the next id (larger than all others), the name, the hash and the given settings; otherwise nothing changes |
| `UserService.UserTable.UpdateAgentSettings` | demo/ui/service/server/user_service.py:54-67 | true iff the call completes and the user exists; then only that user's settings change; otherwise nothing changes; no row is ever removed |
| `LoginPage.LoginPageState.constructor` | demo/ui/pages/login_page.py:5-15 | every field of the page state starts empty |
| `LoginPage.OnRegisterClick` | demo/ui/pages/login_page.py:17-38 | an empty field sets the "required" status and leaves the store alone; otherwise the typed settings are passed as given, success clears the registration fields, failure keeps them and names the user; login fields never change |
| `LoginPage.OnLoginClick` | demo/ui/pages/login_page.py:40-61 | an empty field sets the "required" status and leaves the app state; success sets the current user and that user's stored settings and clears the login fields; failure sets both app fields to `""` and keeps the typed fields |
| `LoginPage.RegisterThenLogIn` | demo/ui/pages/login_page.py:17-61 | registering a new user and then logging in with the same credentials signs that user in with the settings typed at registration |

## Left out

- Page rendering is not modelled: the component trees of the agent list page
  and the login page, their styles, `print` logging and `me.navigate("/")`.
  The two button conditions at `agent_list.py:81` and `:85` are the only parts
  of rendering kept, as `ShowRead` and `ShowSave`.
- Opening the dialog is not modelled. `agent_dialog_open` is set to true by a
  component outside this model; here only "Cancel" and a successful save set it.
- The agent-card fetch (`get_agent_card`) is abstract: a parameter that is
  either a card or an exception. A card's `capabilities` is assumed present,
  so the copy in "Read" never fails halfway.
- The registration call (`AddRemoteAgent`) is abstract: a parameter that is
  either success or an exception with its text. The list of registered agents
  is not modelled.
- `await` and the asynchronous scheduling of "Save" are not modelled; "Save"
  runs as one step.
- SQLite is not modelled: connections, commits and the exception plumbing.
  Each call either completes or raises, and raising is reported as
  `False`/`None`, as in the source.
- bcrypt's algorithm is not modelled: cost rounds, random salts, and the
  72-byte truncation of passwords. The stand-in digest is injective, so it
  rejects every other password; real bcrypt only does this for passwords
  that differ within their first 72 bytes.
- Bcrypt.Hash: the stand-in digest is the password reversed, so a stored hash
  reveals its password. That the table does not store passwords in plain text
  is modelled only as "a hash never equals its password" (`HashShape`).
- `checkpw` raising on a malformed stored hash is not modelled. The table
  invariant keeps every stored hash well formed, so this path cannot arise
  from rows the model creates.
- `settings.py` is not part of this model: API-key updates, JSON validation
  and the settings-save handler.
- Only the two fields of `AppState` that login sets are modelled; the rest of
  `AppState` is not part of this model.
- Python's `str.isspace` is modelled as the fixed list of whitespace code
  points it accepts; Unicode tables are not consulted.
