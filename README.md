# CloudVault application shell: view/session state machine

CloudVault is a single-page client: a login/registration screen, a loading
screen and a dashboard shell that leads to Notes, Passwords and Storage
screens. All of its data lives in a hosted backend (Appwrite). This project
models the one piece with logic of its own: the root component `App`. It
covers which screen is shown, how a session is resolved at start-up, how login
and registration failures become a banner text, the offline demo mode and
logout.

Layout:

- `types.dfy` (module `Types`): `ViewState`, `UserProfile`, and the backend's
  answers (`Outcome<T> = Ok(value) | Err(message)`). It also has `Call`, the
  backend requests the shell issues (`account.get`, `account.create`,
  `account.createEmailPasswordSession`, `account.deleteSession`).
- `text.dfy` (module `Text`): the pure helpers. These are `split` with a
  one-character separator and its inverse `Join`, the display name
  `email.split('@')[0]`, the connectivity diagnostic, the classification of a
  thrown message into a banner text, and the form's input guard.
- `machine.dfy` (module `Machine`): each handler as a pure transition from a
  state to the next state plus the requests issued. It also holds the render
  dispatch `Render`, the controls each screen offers (`Enabled`), runs of
  events, and the lemmas about all of these.
- `controller.dfy` (module `Controller`): class `App`. Its fields are the
  component's `useState` slots. There is one method per handler, and each one
  assigns the slots in the order the handler calls its setters. Every method's
  postcondition ties the new slots, and the requests it returned, to the
  matching `Machine` transition of the old slots.

Parameters stand for what the shell reads from outside:

- the answer of each backend call;
- `ID.unique()` (`uniqueId`);
- `window.location.hostname` (`host`).

A handler that never reaches the backend takes no such parameter.

## Model

| member | source | states |
|---|---|---|
| Controller.App.constructor | App.tsx:11-17 | the slots start as view LOADING, no user, login mode, empty banner |
| Controller.App.Mount | App.tsx:20-23 | records the host, runs the session check; ends on LOGIN or DASHBOARD |
| Controller.App.CheckSession | App.tsx:25-42 | new slots and requests equal `Machine.CheckSession`; success gives DASHBOARD with the session's profile, failure gives LOGIN with the user untouched |
| Controller.App.HandleAuth | App.tsx:44-66 | new slots and issued requests equal `Machine.HandleAuth`; form inputs and mode unchanged |
| Controller.App.HandleDemoLogin | App.tsx:68-76 | demo user, DASHBOARD, empty banner, no request |
| Controller.App.HandleLogout | App.tsx:78-90 | no user and LOGIN whatever the deletion answers; requests equal `Machine.HandleLogout` |
| Controller.App.ToggleMode | App.tsx:161 | mode flipped, banner cleared, nothing else changed |
| Controller.App.ChangeView | App.tsx:195 | only the view changes, to the target |
| Controller.App.OpenCard | App.tsx:209-225 | the card's target view, nothing else changed |
| Controller.App.SetEmail | App.tsx:114 | only the email slot changes |
| Controller.App.SetPassword | App.tsx:127 | only the password slot changes |
| Text.ConnectionMessageMentionsHost | App.tsx:38 | the connectivity diagnostic contains the host as a contiguous piece |
| Text.ConnectionMessageInjective | App.tsx:61 | different hosts give different diagnostics |
| Text.ConnectionMessage | App.tsx:38 | the diagnostic is the fixed prefix, then exactly the host, then the fixed suffix |
| Text.SessionErrorText | App.tsx:36-39 | on "Failed to fetch" the banner is exactly the connectivity diagnostic (so it contains the host); on any other message it is the previous banner |
| Text.AuthErrorText | App.tsx:59-64 | the banner is never empty; it is exactly the connectivity diagnostic on "Failed to fetch", the message itself for any other non-empty message, and the generic text for an empty message |
| Text.IndexOf | App.tsx:50 | the first occurrence of a character: none before it, it is there iff the result is in range |
| Text.Split | App.tsx:50 | at least one piece, and no piece contains the separator |
| Text.JoinSplit | App.tsx:50 | joining the pieces of a split with the separator gives back the string |
| Text.SplitJoin | App.tsx:50 | splitting a join of separator-free pieces gives back the pieces |
| Text.IndexOfAfterPiece | App.tsx:50 | the first separator of `p + [sep] + t` is right after a separator-free `p` |
| Text.DisplayName | App.tsx:50 | `email.split('@')[0]`: an '@'-free prefix of the email, followed by '@' unless it is the whole email |
| Text.LocalPartUnique | App.tsx:50 | that characterisation determines the display name: any '@'-free prefix that is the whole email or is followed by '@' equals it |
| Text.DisplayNameIsLocalPart | App.tsx:50 | the display name is the prefix of the email before its first '@', or the whole email without '@' |
| Text.DisplayNameOfAddress | App.tsx:50 | the display name of `local@domain` is `local` |
| Text.DisplayNameExample | App.tsx:50 | "demo@example.com" gives "demo" |
| Text.CanSubmit | App.tsx:115-129 | the `required` and `minLength={8}` guards of the form; its properties are CanSubmitExamples and Machine.SubmitGuard |
| Text.CanSubmitExamples | App.tsx:115-129 | "abc123" is refused, "abc12345" accepted, an empty email refused |
| Machine.Initial | App.tsx:11-17 | the `useState` initial values; its properties are Machine.InitialState |
| Machine.ProfileOf | App.tsx:28-32 | the profile copied from a session: its `$id`, name and email |
| Machine.CheckSession | App.tsx:25-42 | checkSession as a transition; its properties are CheckSessionSucceeds and CheckSessionFails |
| Machine.Mount | App.tsx:20-23 | the mount effect as a transition; its properties are MountLeavesLoading |
| Machine.HandleAuth | App.tsx:44-66 | handleAuth as a transition; its properties are HandleAuthFails, HandleAuthSucceeds, HandleAuthIgnoresStaleBanner, HandleAuthCalls, RegisterConvergesWithLogin, RegisterSendsLocalPart |
| Machine.HandleDemoLogin | App.tsx:68-76 | handleDemoLogin as a transition; its properties are DemoLoginEffect |
| Machine.IsDemoUser | App.tsx:80 | the test `user?.$id === 'demo-user'` (false for a missing user) |
| Machine.HandleLogout | App.tsx:78-90 | handleLogout as a transition; its properties are LogoutEffect |
| Machine.ToggleMode | App.tsx:161 | the toggle as a transition; its properties are ToggleEffect |
| Machine.ChangeView | App.tsx:195 | `onChangeView={setView}` as a transition; its properties are ChangeViewOverwrites |
| Machine.SetEmail | App.tsx:114 | the email input's `onChange` as a transition: only the email slot takes the value |
| Machine.SetPassword | App.tsx:127 | the password input's `onChange` as a transition: only the password slot takes the value |
| Machine.Step | App.tsx:105-225 | wires each control to its handler: `onSubmit` to HandleAuth, the inputs to SetEmail/SetPassword, the toggle, the demo button, `onLogout`, `onChangeView` and the cards |
| Machine.CardTarget | App.tsx:209-225 | the view each dashboard card sets |
| Machine.OpenCard | App.tsx:209-225 | a card click as a transition; its properties are CardsTargets |
| Machine.Render | App.tsx:93-241 | the render dispatch; its properties are RenderSelectsView and RenderDistinguishesViews |
| Machine.SidebarName | App.tsx:197 | `user?.name \|\| 'User'`: never empty, and the user's name whenever there is a user with a non-empty name |
| Machine.GreetingName | App.tsx:204 | `user?.name` in the greeting, empty without a user |
| Machine.Enabled | App.tsx:105-225 | the controls each rendered screen offers (form, toggle and demo button on the login screen, sidebar in the shell, cards on the dashboard); its properties are SubmitGuard and DemoLoginNeedsBanner |
| Machine.InitialState | App.tsx:11-17 | the initial state is LOADING, no user, login mode, empty banner; it renders the loading screen and keeps the invariant |
| Machine.CheckSessionSucceeds | App.tsx:27-33 | the user is exactly the session's id, name and email, the view DASHBOARD, the banner untouched, one `account.get` |
| Machine.CheckSessionFails | App.tsx:34-41 | LOGIN with the user untouched; the banner is the diagnostic naming the host on "Failed to fetch" and untouched otherwise |
| Machine.MountLeavesLoading | App.tsx:20-42 | after the mount effect the view is LOGIN or DASHBOARD and the host is recorded |
| Machine.OnlyMountLeavesLoading | App.tsx:181-188 | on the loading screen the only enabled event is the mount, and it ends on LOGIN or DASHBOARD |
| Machine.FirstEventIsMount | App.tsx:20-23 | from the initial state the first admissible event is the mount, so the session check ends before LOGIN or DASHBOARD is first shown |
| Machine.HandleAuthFails | App.tsx:57-64 | on the first failed answer view and user are unchanged, the banner is its classification (exactly the connectivity diagnostic on "Failed to fetch") and the demo button is shown; no session check |
| Machine.HandleAuthSucceeds | App.tsx:48-56 | on success the end state is the session check's result from the state with the banner cleared |
| Machine.HandleAuthIgnoresStaleBanner | App.tsx:46 | the banner is cleared first: the outcome does not depend on the previous banner |
| Machine.HandleAuthCalls | App.tsx:48-56 | exact request sequence per branch: registration creates the account first and opens a session only after it succeeds |
| Machine.RegisterConvergesWithLogin | App.tsx:48-56 | a successful registration ends where a successful login ends, with one extra `account.create` in front |
| Machine.RegisterSendsLocalPart | App.tsx:50 | the name sent to `account.create` is the email's part before the first '@' |
| Machine.SubmitGuard | App.tsx:105-130 | submission is possible iff on the login screen with a non-empty email and a password of 8 or more characters |
| Machine.DemoLoginNeedsBanner | App.tsx:134-151 | the demo button is there iff the login screen shows a non-empty banner |
| Machine.DemoLoginEffect | App.tsx:68-76 | the demo user {"demo-user", "Demo User", "demo@example.com"}, DASHBOARD, empty banner, no request |
| Machine.LogoutEffect | App.tsx:78-90 | no user and LOGIN for every deletion answer; the deletion is skipped iff the user's id is "demo-user" (a missing user still tries it) |
| Machine.ToggleEffect | App.tsx:161 | the mode flips, the banner is cleared, view and user unchanged, no request |
| Machine.CardsTargets | App.tsx:209-225 | the three cards lead to NOTES, ACCOUNTS and STORAGE, changing nothing else |
| Machine.ChangeViewOverwrites | App.tsx:195 | the sidebar's callback overwrites the view unconditionally |
| Machine.RenderSelectsView | App.tsx:93-238 | exactly one screen per view: LOGIN, LOADING, or the shell with the content for DASHBOARD, NOTES, ACCOUNTS or STORAGE; demo button iff banner |
| Machine.RenderDistinguishesViews | App.tsx:93-238 | states with different views render different screens |
| Machine.StepPreservesInv | App.tsx:191-204 | every enabled event keeps "the shell is only shown with a user" |
| Machine.RunPreservesInv | App.tsx:191-204 | every admissible run of events keeps that invariant |
| Machine.OfflineRunsIssueNoCalls | App.tsx:68-76 | typing, the toggle, demo mode and navigation never reach the backend |

Three behaviours of the code worth noting:

- The demo button appears whenever the banner is non-empty. That includes a
  failed start-up session check with "Failed to fetch", not only a failed
  login.
- The sidebar's callback is `setView` itself. It can set any view, not only
  the three feature screens.
- On a failed session check, any message other than "Failed to fetch" leaves
  the banner as it was.

## Left out

- JSX markup, styling and icons are not modelled. They are presentation.
  `Render` keeps the choice of screen and, as screen content, the footer's
  host text, the register/login mode, the banner, the demo button, the
  sidebar's user name and the greeting name.
- The Appwrite SDK (`account.*`, `ID.unique`) is not modelled. Its answers are
  parameters, and its requests are recorded as `Call` values.
- `handleAppwriteError` is not part of this model. It is assumed to return
  normally, as logout's `catch` branch needs in order to reach its setters.
- The `Sidebar`, `Notes`, `Accounts` and `StorageManager` components own their
  own fetching and are not part of this model.
- React's scheduling is not modelled: `useEffect` runs the mount step,
  `await`s are sequential, and the un-awaited `checkSession()` after a
  successful submission runs to completion inside `HandleAuth`. Nothing
  prevents a second mount event in the model; React runs the effect once.
  Each handler is one atomic step: renders between its setters are not
  modelled. `Machine.Inv` holds at handler boundaries only. For example,
  when updates after an `await` are not batched, `setUser(null)` in logout
  re-renders the shell with no user before `setView(LOGIN)` runs.
- `console.error` logging is left out.
- The browser's `type="email"` syntax check is left out. `CanSubmit` models
  only `required` and `minLength={8}`.
- CanSubmit: counts Unicode scalar values, while the browser's `minLength`
  counts UTF-16 code units. The rule that `minLength` applies only to values
  the user edited is not modelled either.
- A thrown value whose `message` is not a string is not modelled. An absent
  message is the empty string.
- The domain shapes `Note`, `PasswordAccount`, `StorageCategory`,
  `StorageFile` and `PlatformType` (types.ts:16-51) are left out. The shell
  never reads or changes them.
