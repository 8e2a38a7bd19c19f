# btwatch tray monitor — a Dafny model

btwatch is a small Windows tray utility. At startup it reads the power
status and quits when the machine has no system battery. Otherwise it
builds a `Tasktray` object, which does the following:

- It registers a window class, creates a hidden window and adds a tray icon.
- It subscribes to two power-setting notifications: percentage remaining,
  and AC/DC source.
- It shows a balloon when the charge crosses 90% while charging.

The tray icon's menu has a single "Quit" entry. WM_CLOSE, Quit and the
destructor all run `terminate`, which gives every handle back.

The model has five modules:

- `Win32`: handles and class atoms, modelled as numbers where 0 means null
  or failure. It also defines the requests the program makes to the
  operating system, and `Acquired`/`Released`, which read a log of requests
  as multisets of resources obtained and resources given back.
- `Battery`: the two bit tests on `BatteryFlag` and the edge-triggered
  balloon decision (`Evaluate`). It also runs the decision over any
  sequence of readings (`Notifications`) and proves that the balloon shows
  exactly once per run of readings that are full (at least 90% and charging).
- `Lifecycle`: `setup` and `terminate` as values over the operating
  system's answers (`SetupOutcome`), and the resource accounting. Whichever
  step of setup fails, setup followed by terminate gives back everything it
  obtained, exactly once.
- `Monitor`: the routing of `handleMessage`, the popup menu, and the whole
  effect of one message. It proves that no message leaks or double-releases
  a resource.
- `Tray`: the `Tasktray` class itself. Its fields are `hwnd`, `hpns`,
  `wndAtom`, `prevBtStatus` and the log of requests. Each method updates
  them in place and is proved against the functions above. The module also
  holds `WinMain`, whose message loop stops when GetMessageW yields 0 or -1.

The program's answers from the operating system are parameters:

- `SetupOutcome` for setup;
- `PowerStatus` for GetSystemPowerStatus;
- `MenuOutcome` for GetCursorPos, CreatePopupMenu and TrackPopupMenuEx;
- a sequence of `Fetch` values for GetMessageW.

The model keeps two quirks of the program. They are accounted for
exactly, by `Lifecycle.SetupQuirks`:

- `wndAtom_` is set even when RegisterClassExW returns 0, so terminate then
  calls UnregisterClassW with atom 0.
- NIM_DELETE is requested whenever `hwnd_` is set, even when NIM_ADD failed.

## Model

| member | source | states |
|---|---|---|
| Battery.IsCharging | main.cpp:333 | `BatteryFlag & Charging` is set exactly when the flag's value modulo 16 is at least 8 |
| Battery.HasNoBattery | main.cpp:375 | `BatteryFlag & NoSystemBattery` is set exactly when the flag is at least 128 |
| Battery.UnknownFlagQuirk | main.cpp:62-69 | the flag value UnknownStatus (255) passes both bit tests (charging, and no battery); High, Low and Critical do not read as charging |
| Battery.Evaluate | main.cpp:323-359 | an unknown percentage changes nothing and shows nothing; a known reading is recorded; the balloon shows exactly when the reading is full and the previous status was not |
| Battery.Notifications | main.cpp:323-359 | runs the balloon decision over a sequence of readings, threading prevBtStatus_, and yields one balloon-or-not per reading; what it promises is proved in `NotifiesAt`, `AtMostOncePerRun` and `EveryRunNotifies` |
| Battery.Final | main.cpp:357-358 | the prevBtStatus_ left after a sequence of checks; what it promises is proved in `FinalIsLastKnown` |
| Battery.FinalIsLastKnown | main.cpp:329-358 | after any sequence of checks, prevBtStatus_ is the status of the last reading with a known percentage, or its earlier value if there was none |
| Battery.NotifiesAt | main.cpp:335-336 | the i-th check shows the balloon exactly when reading i is known and full and the last status evaluated before it was not full |
| Battery.AtMostOncePerRun | main.cpp:335-358 | between any two balloons there is a known reading that is not full, so a run of full readings gets at most one balloon |
| Battery.EveryRunNotifies | main.cpp:335-358 | starting from a status that is not full, every known full reading is preceded (or accompanied) by a balloon, and every known reading since that balloon is full |
| Battery.FirstFullNotifies | main.cpp:107 | since prevBtStatus_ is value-initialised, the first known full reading always shows the balloon |
| Battery.RisingEdgesScenario | main.cpp:335-336 | 70, 92, 95, 60 and 91 percent while charging give balloons on the 2nd and 5th readings only |
| Battery.ChargerReplugScenario | main.cpp:335-336 | 92% charging, then 92% unplugged, then 92% charging give balloons on the 1st and 3rd readings |
| Lifecycle.FirstFailure | main.cpp:223-231 | the first watched setting whose registration fails: every earlier one succeeded, and it failed (or none failed) |
| Lifecycle.SubscriptionLog | main.cpp:223-231 | the RegisterPowerSettingNotification requests of the first n loop rounds, one per watched setting in order; what they obtain is proved in `SubscriptionLogAcquires` |
| Lifecycle.SetupRun | main.cpp:170-234 | setup succeeds exactly when every step does; wndAtom_ holds the atom even when it is 0; the window is kept only if the class was registered; the subscription handles kept are the nonzero prefix up to the first failure, and all of them on success; the requests it issues are described by `SetupShape` and `SetupStopsAtFirstFailure` |
| Lifecycle.SubscriptionLogShape | main.cpp:223-231 | the first n rounds of the subscription loop issue exactly n RegisterPowerSettingNotification requests, the i-th for the i-th watched setting |
| Lifecycle.SetupShape | main.cpp:170-234 | setup asks for the class, then the window, then the tray icon, then one subscription per attempted setting, in that order and nothing else; its length is fixed by the step that failed |
| Lifecycle.SetupStopsAtFirstFailure | main.cpp:181-231 | every request of setup but the last obtained something, and the last failed exactly when setup did, so setup asks for nothing after its first failed step; a successful setup issued all 3 + 2 requests |
| Lifecycle.SetupQuirks | main.cpp:181-216 | the two releases terminate will ask for without a matching acquisition: class atom 0 when RegisterClassExW failed, the tray icon when NIM_ADD failed; their use is proved in `SetupAccounts`, `QuirksNeverAcquired` and `NoLeak` |
| Lifecycle.UnregisterAll | main.cpp:238-245 | the requests of terminate's unregistering loop; their order and number are proved in `UnregisterAllShape`, what they give back in `UnregisterAllReleases` |
| Lifecycle.UnregisterAllShape | main.cpp:238-245 | the unregistering loop issues exactly one UnregisterPowerSettingNotification per held handle, in order |
| Lifecycle.TeardownLog | main.cpp:236-278 | terminate issues no request at all exactly when nothing is held |
| Lifecycle.TeardownShape | main.cpp:236-278 | terminate unregisters the subscriptions in order, then (when hwnd_ is set) deletes the icon and destroys the window, then (when wndAtom_ holds a value) unregisters the class; nothing else, in that phase order |
| Lifecycle.WindowTeardown | main.cpp:248-266 | the window step of terminate, NIM_DELETE then DestroyWindow, issued exactly when hwnd_ is set; what it gives back is proved in `WindowTeardownReleases` |
| Lifecycle.ClassTeardown | main.cpp:268-277 | the class step of terminate, UnregisterClassW, issued exactly when wndAtom_ holds a value (atom 0 included); what it gives back is proved in `ClassTeardownReleases` |
| Lifecycle.UnregisterAllReleases | main.cpp:238-245 | the unregistering loop gives back exactly the held subscriptions and obtains nothing |
| Lifecycle.WindowTeardownReleases | main.cpp:248-266 | the window step gives back the tray icon and the window exactly when hwnd_ is set |
| Lifecycle.ClassTeardownReleases | main.cpp:268-277 | the class step gives back the class exactly when wndAtom_ holds a value |
| Lifecycle.TeardownReleasesOwned | main.cpp:236-278 | terminate asks for every held resource back exactly once and obtains nothing |
| Lifecycle.SubscriptionLogAcquires | main.cpp:223-231 | successful registrations obtain exactly the subscriptions pushed onto hpns_ |
| Lifecycle.ClassFailureAccounts | main.cpp:181-185 | when RegisterClassExW fails, nothing is obtained, and the class release terminate will ask for is the quirk |
| Lifecycle.WindowFailureAccounts | main.cpp:189-197 | when CreateWindowExW fails, only the class is obtained and only the class is held |
| Lifecycle.IconFailureAccounts | main.cpp:213-216 | when NIM_ADD fails, class and window are obtained, and the icon release terminate will ask for is the quirk |
| Lifecycle.SetupAccounts | main.cpp:170-234 | what setup obtained, plus the quirky releases still to come, is exactly what terminate will give back; setup itself releases nothing |
| Lifecycle.QuirksNeverAcquired | main.cpp:181-216 | the two quirky releases name resources that setup never obtained: the class atom 0, and the tray icon whose NIM_ADD failed |
| Lifecycle.NoLeak | main.cpp:106-116 | setup followed by terminate gives back every resource obtained, exactly once; the only other releases are the quirks, which name resources never obtained |
| Lifecycle.EarlyFailureNeverQuits | main.cpp:181-197 | when RegisterClassExW or CreateWindowExW fails (and only then), the failed constructor's setup and terminate neither destroy a window nor post a quit, so nothing of the program's own ever ends the message loop |
| Monitor.Route | main.cpp:140-167 | WM_CLOSE and WM_DESTROY (and only they) return 0, with terminate and PostQuitMessage respectively; the menu opens exactly on a left or right button-up from icon 100; a battery check runs exactly on a power-setting change for one of the two watched settings |
| Monitor.MenuRun | main.cpp:280-321 | the requests and the handles left by the popup menu for each answer of GetCursorPos, CreatePopupMenu and TrackPopupMenuEx; what it promises is proved in `MenuDestroyedOnce` |
| Monitor.MenuDestroyedOnce | main.cpp:280-321 | the popup menu, when created, is destroyed exactly once, as the last request, on both the dismiss and the Quit path; Quit gives back every held resource and empties the object; otherwise the menu leaves the handles unchanged |
| Monitor.BalloonLog | main.cpp:335-355 | the NIM_MODIFY balloon request, issued exactly when the battery check notifies; used by `Dispatch` and by `CheckBatteryStatus` |
| Monitor.Dispatch | main.cpp:140-167 | the whole effect of one message: the routed action's requests, the new state and the reply; what it promises is proved in `DispatchKeepsBalance`, `DispatchExtends`, `CloseTwiceIsQuiet` and `TerminatedStaysQuiet` |
| Monitor.DispatchKeepsBalance | main.cpp:140-167 | for every message, what handling it obtains plus what was held before equals what it gives back plus what is held after |
| Monitor.DispatchExtends | main.cpp:140-167 | handling any message keeps the account of the whole run: obtained plus quirks equals given back plus held |
| Monitor.CloseTwiceIsQuiet | main.cpp:142-144 | a second WM_CLOSE issues no request and changes nothing, because terminate is idempotent |
| Monitor.TerminatedStaysQuiet | main.cpp:140-167 | once terminated, no message gives anything back again, and whatever it obtains (a popup menu) it also gives back |
| Tray.Tasktray.constructor | main.cpp:106-112 | the object starts empty, runs setup, and terminates at once when setup failed; afterwards the account of obtained and released resources balances |
| Tray.Tasktray.Setup | main.cpp:170-234 | the loop-based setup issues exactly the requests of `SetupRun` and leaves exactly the handles `SetupRun` describes |
| Tray.Tasktray.Terminate | main.cpp:236-278 | the loop-based teardown issues exactly `TeardownLog` of the handles held and clears every handle; the battery status is kept |
| Tray.Tasktray.Destroy | main.cpp:114-116 | the destructor runs terminate and keeps the account balanced |
| Tray.Tasktray.CheckBatteryStatus | main.cpp:323-359 | prevBtStatus_ becomes `Evaluate(...).next`, and a balloon request is issued exactly when `Evaluate` notifies |
| Tray.Tasktray.ShowMenu | main.cpp:280-321 | the requests and the handles left are exactly those of `MenuRun` |
| Tray.Tasktray.HandleMessage | main.cpp:140-167 | the reply, the new state and the requests are those of `Dispatch`, and the account stays balanced |
| Tray.WinMain | main.cpp:361-397 | returns 0; with no system battery it makes no request; otherwise it starts with RegisterClassExW, and every release is of a resource obtained, except exactly the setup quirks |

## Left out

- Error logging (`logErr`, `getLastErrorMessage`), the console echo of the balloon title and the console mode setup. They only write text.
- `windowProc` and its GWLP_USERDATA lookup. Messages reach `handleMessage` directly. The `hwnd_` assignment during WM_NCCREATE stores the same handle that CreateWindowExW returns, so the model takes it from that return value.
- Icon loading (LoadIconW), the tip, the balloon's title and body text, and the other NOTIFYICONDATAW fields. They do not affect which resources are held.
- AppendMenuW, the cursor coordinates, and the focus save and restore around the menu (GetActiveWindow, SetForegroundWindow, SetActiveWindow). They change no state of the object.
- The message DestroyWindow dispatches synchronously during terminate (WM_DESTROY, which posts the quit message). The model records DestroyWindow as one request, and WM_DESTROY arrives as a separate message in the fetched sequence.
- Tray.WinMain: the fetched messages do not depend on whether a window exists. After RegisterClassExW or CreateWindowExW fails, hwnd_ stays null and nothing the program does posts WM_QUIT (`Lifecycle.EarlyFailureNeverQuits`), so the real GetMessageW would block forever; the model's loop ends when the finite fetch sequence does, and it may even deliver WM_DESTROY without a window.
- GetMessageW, which blocks. It becomes a finite sequence of fetch results. TranslateMessage and DispatchMessageW become one call of `HandleMessage`.
- The value DefWindowProcW returns. It is an opaque `DefaultHandling` reply.
- The success or failure of the release calls (UnregisterPowerSettingNotification, NIM_DELETE, DestroyWindow, UnregisterClassW, DestroyMenu) and of the balloon's NIM_MODIFY. The program only logs them, so a release counts as requested whatever its outcome.
- The unused `hpn_` field, and the defaulted move constructor and move assignment.
- A failing GetSystemPowerStatus, which leaves the zero-initialised status. The reading is a parameter, and the zero reading is one of its values.
- The `std::unreachable()` default of the menu command switch. `MenuCommand` has only its two values.
