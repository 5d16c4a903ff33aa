# Shell session controller of the launchpad desktop shell

The shell's main process shows a launchpad page in its main window. When that
page asks for an external URL, the process hosts the URL in a BrowserView laid
over the window. It then injects a floating "Back to Launchpad" button into every
page the view loads. It detaches the view again in three cases: the button is
clicked, the OS sends the `browser-backward` command, or the user swipes left.
The backward command and the swipe only detach the view when the hosted page has
no history to go back to. All the logic the process has of its own lives in
`main.js`:

- three module-level globals: the main window, the hosted view and the flag
  `isWebViewActive`;
- five handlers: `navigate-to-url`, `go-back-to-launchpad`, `app-command`,
  `swipe` and the window's `resize` listener;
- the timer bookkeeping of the injected script. Each injection stores its fallback
  timer in `window._electronBackButtonInterval`, and the cleanup snippet clears
  the timer stored there.

The model has three modules:

- `SessionModel` (session.dfy) holds the state as a `Session` value and each
  handler as a function from the state before to the state after. `Inv` is the
  invariant every handler keeps, and `Step` dispatches one event to its handler.
- `SessionProperties` (properties.dfy) holds `Run`, which handles a whole
  sequence of events, and the lemmas over such sequences.
- `ShellController` (shell_session.dfy) holds the class `ShellSession`. Its
  fields are the globals, and it has one method per handler that updates those
  fields in place. Each method is proved to reach exactly the state the matching
  function gives and to keep `Inv`.

The host calls are abstracted as follows:

- `mainWindow.getBounds()` is an input width and height.
- `canGoBack()` is an input boolean.
- `goBack()` is counted in `backNavigations`.
- `loadURL` calls are recorded in `loads`.
- `setBrowserView` and `removeBrowserView` set and clear `attached`.
- The `webContents.on` and `mainWindow.on` registrations are counted in
  `reinjectListeners` and `resizeListeners`.
- Timer ids come from a counter, `lastTimerId`, so each new id is above every id
  handed out before. Browsers never hand out the id 0, and the cleanup's
  JavaScript truth test (`Truthy`) is modelled as written.

Where the design description of this system and `main.js` disagree, the model
follows the code:

- The design says the hosted surface is released on return. The code only
  detaches it, and later navigations reuse the same view (`ViewCreatedOnce`,
  `ReturnThenNavigate`).
- The design says each injection fully supersedes the previous one. The code
  overwrites the stored timer id without clearing the timer it named, so earlier
  timers keep running (`UnstoredTimerStaysLive`, `EarlierTimerSurvivesReturn`).
- Each navigation registers three more re-injection handlers and none is ever
  removed. After n navigations, one page event therefore runs n injections
  (`ReinjectListenersCount`, `SecondNavigationDoublesInjection`).

## Model

| member | source | states |
|---|---|---|
| `SessionModel.Initial` | main.js:8-10 | the globals start with no view and inactive, which satisfies the invariant |
| `ShellController.ShellSession.constructor` | main.js:8-10 | the object starts in that initial state and is valid |
| `SessionModel.Navigated` | main.js:30-90 | without a main window nothing changes; otherwise the view is attached, active and loads the URL, and three re-injection handlers are added; the view is created with the window's bounds and one resize handler only when none exists, and an existing view keeps its bounds and handlers; timers are untouched |
| `ShellController.ShellSession.NavigateToUrl` | main.js:30-90 | updates the fields to the state `Navigated` gives, keeps the invariant, and leaves the view attached and active when a window exists |
| `SessionModel.InjectedOnce` | main.js:161-168 | one injection starts a timer with a new id above every earlier one and stores that id; the timer stored before keeps running; nothing else changes |
| `ShellController.ShellSession.InjectBackButton` | main.js:161-168 | performs that bookkeeping in place, strictly growing the set of running timers and keeping the invariant |
| `SessionModel.Injected` | main.js:161-168 | k injections start exactly the k ids after the last one handed out, clear no timer, and leave the last id stored |
| `SessionModel.InjectedKeepsInv` | main.js:161-168 | injections into an existing view keep the invariant (stored id running, every running id positive and handed out) |
| `SessionModel.PageEventHandled` | main.js:77-89 | a page event runs one injection per handled navigation, since every navigation registered one handler for each event kind |
| `ShellController.ShellSession.OnPageEvent` | main.js:77-89 | calls the injection once per registered handler, reaching the state `PageEventHandled` gives |
| `SessionModel.IntervalCleared` | main.js:180-183 | the cleanup clears only the stored timer and nulls the id when the id is truthy, and otherwise changes nothing |
| `ShellController.ShellSession.ClearBackButtonInterval` | main.js:180-183 | performs that cleanup in place and keeps the invariant |
| `SessionModel.Detached` | main.js:179-190 | detaching leaves the view unattached and inactive, and apart from that only runs the cleanup |
| `SessionModel.Returned` | main.js:176-192 | with a window and a view, the session detaches and becomes idle while keeping the view; otherwise nothing changes |
| `ShellController.ShellSession.GoBackToLaunchpad` | main.js:176-192 | reaches the state `Returned` gives; afterwards the view is never attached or active |
| `SessionProperties.ReturnIdempotent` | main.js:176-191 | handling the return message twice is the same as handling it once |
| `SessionModel.Commanded` | main.js:195-215 | `browser-backward` while active goes back in hosted history and stays hosting when history allows, and otherwise detaches and becomes idle; any other command, or any command while inactive, changes nothing |
| `ShellController.ShellSession.AppCommand` | main.js:195-215 | reaches the state `Commanded` gives and keeps the invariant |
| `SessionModel.Swiped` | main.js:218-238 | a left swipe has exactly the effect of `browser-backward`; any other direction changes nothing |
| `ShellController.ShellSession.Swipe` | main.js:218-238 | reaches the state `Swiped` gives and keeps the invariant |
| `SessionModel.Resized` | main.js:56-66 | while active, the view bounds become (0, 0, window width, window height); while inactive, nothing changes |
| `ShellController.ShellSession.OnResize` | main.js:56-66 | reaches the state `Resized` gives and keeps the invariant |
| `SessionModel.Step` | main.js:30-238 | every handler keeps the invariant (`isWebViewActive` exactly when the view is attached, among others), never removes the window or the view, and never forgets a load |
| `SessionProperties.Run` | main.js:30-238 | the invariant holds after any sequence of events |
| `SessionProperties.ReinjectListenersCount` | main.js:77-89 | over any events, the re-injection handlers grow by exactly three per navigation when a window exists, and by nothing otherwise; none is removed |
| `SessionProperties.ViewCreatedOnce` | main.js:34-67 | once the view exists it survives every later event, and its single resize handler is never duplicated |
| `SessionProperties.ReturnThenNavigate` | main.js:34-71 | navigate then return leaves the launchpad shown; a second navigation hosts again with the same view, the same bounds and one resize handler |
| `SessionProperties.StepKeepsUnstoredTimer` | main.js:161-183 | no handler clears or re-stores a running timer whose id is no longer the stored one |
| `SessionProperties.UnstoredTimerStaysLive` | main.js:161-183 | a timer whose id was overwritten keeps running after any sequence of events |
| `SessionProperties.EarlierTimerSurvivesReturn` | main.js:161-183 | load a page, fire two page events, press back: the view is idle, no id is stored, and the first timer is still running |
| `SessionProperties.SecondNavigationDoublesInjection` | main.js:77-89 | after two navigations, one load event starts two timers and stores only the second |

## Left out

- The body of the injected script is not modelled. That covers building the button, its styling, the closed shadow root, the `getElementById` lookup of an earlier button, the `MutationObserver` and the timer callback that re-attaches the wrapper. All of it depends on browser DOM and event-loop behaviour. Only the bookkeeping of the timer id is kept.
- `executeJavaScript` is asynchronous, and its failures are only logged. Injection and cleanup are modelled as instantaneous steps that always succeed.
- The document teardown of a full navigation is not modelled. In a real page it stops that page's timers and resets `window._electronBackButtonInterval`. The model treats the timers and the stored id as belonging to the view across loads.
- The hosted history is not modelled. `canGoBack()` is an input, and `goBack()` is only counted. The URL passed to `loadURL` is recorded, but it is not interpreted.
- The window and app lifecycle is not modelled: `createWindow`, `whenReady`, `activate`, `window-all-closed` and its platform check. The constructor only says whether the main window exists. The handlers never create or close a window.
- The `setMaxListeners` and `defaultMaxListeners` settings are host configuration and are not modelled.
- preload.js, webview-preload.js and overlay-preload.js are not modelled. They only expose IPC senders to the pages.
