# Status app test driver and web bridge: a verified Dafny model

This project models the small pieces of logic in the Status desktop and mobile
repositories that do more than forward calls:

- the end-to-end driver's **AUT lifecycle** (`AutLifecycle`): construct, start
  the application under test, wait for its control port, attach the UI driver's
  context, stop it, and the scoped-use and restart patterns;
- the **TCP port waiter** (`PortWaiter`) it relies on;
- the custom web view's **WebChannel transport**, split over two content worlds:
  the bridge script (`BootstrapBridge`) and the page-side facade that queues
  messages until the bridge is ready (`BootstrapPage`);
- the browser's **Ethereum injector** (`EthereumInjector`), with its capped
  back-off retry of the channel setup and the retry of the wrapper install;
- the **StatusLayoutState** attached QML property (`LayoutState`);
- three page objects of the test suites: the wallet's left panel
  (`WalletLeftPanel`), the Send modal (`SendPopup`) and the message context
  menu (`MessageContextMenu`).

Each source file is one module. A file whose source changes state step by step
is modelled imperatively: the AUT manager, the web page's transport, the shared
document, the injector's window and the layout state are classes, and the
polling and scanning loops are `while` loops with their invariants. The pure
decisions are functions with lemmas about them.

The collaborators are oracles passed in as parameters. These are the socket
probes, the process spawn, psutil, the Squish and Appium drivers, the DOM's
native message handler and the UI's modal answers. A collaborator asked
repeatedly is a total function `nat -> T`, where `T` is the i-th answer. Calls
made into collaborators are recorded in ghost traces. These are
`AutLifecycle.Aut.effects`, and `requests`/`changes` on the document.

Time in the AUT model is counted in tenths of a second. The injector's delays
are in milliseconds.

Some behaviour of the lifecycle code that the model reproduces:

- **A free-port failure runs no cleanup.** `find_free_port` (aut.py:99) runs
  before `startaut`'s `try` (aut.py:109). Its failure propagates with no
  `stop()` (`FreePortError`). Spawn failures inside the `try` do run `stop()`.
- **Errors in wait's handler.** In `wait`, the psutil diagnostic inside the
  `TimeoutError` handler (aut.py:183-191) catches only `NoSuchProcess` and
  `AccessDenied`. Any other error escapes before `stop()` (`DiagnosticError`).
- **Waiting with no port.** Waiting with no port allocated ends in a
  `TypeError` from formatting the timeout message in the port waiter. `except
  TimeoutError` (aut.py:180) does not catch it (`PortFormatError`).
- **The psutil fallback never runs.** The branch commented "If psutil not
  available, use shorter wait" (aut.py:143-146) sits under `if psutil:`. That
  condition tests an imported module and is always true, so the branch is not
  modelled.
- **Stopping twice kills twice.** `stop()` never clears `pid` (aut.py:119-160).
  A second `stop()` kills it again (`AutLifecycle.StopTwice`).

## Model

| member | source | states |
|---|---|---|
| Common.Decimal | test/e2e/driver/aut.py:103 | the port as written into `--port=`: a non-empty string, starting with '-' exactly for a negative number, digits after that |
| Common.NatDecimal | test/e2e/driver/aut.py:103 | `str()` of a natural number: digits only, starting with '0' only for 0, never a leading zero |
| Common.NatDecimalValue | test/e2e/driver/aut.py:103 | reading the digits back left to right gives the number |
| Common.DecimalValue | test/e2e/driver/aut.py:103 | the rendering of any integer denotes that integer, and its digits have no leading zero |
| PortWaiter.WaitForPort | test/e2e/scripts/utils/wait_for_port.py:8-52 | succeeds iff some attempt within the `retries + 1` budget has a probe returning 0 and a verified connection; on success it stops at the first such attempt, and no earlier one connects; on failure it has made exactly the whole budget of attempts, none connecting, and raises TimeoutError(host, port, retries + 1, timeout); 0.5 s pauses separate attempts, with none after the last |
| PortWaiter.WaitForPortWithDefaults | test/e2e/scripts/utils/wait_for_port.py:8 | with the defaults (timeout 3, retries 0): exactly one attempt, no pause, success iff that attempt connects |
| AutLifecycle.AwaitExit | test/e2e/driver/aut.py:126-160 | at most 50 inspections; it stops at the first exited/absent/denied/zombie answer, otherwise every inspection is followed by a 0.1 s sleep; `elapsed` reaches 5 s exactly when no inspection in the budget confirmed the exit, which is when stop warns |
| AutLifecycle.Aut.constructor | test/e2e/driver/aut.py:27-41 | no context, pid or port; seed data copied into `<app_data>/data` only when given, then the Qt wrappers registered for the run id |
| AutLifecycle.Aut.DetachContext | test/e2e/driver/aut.py:73-77 | detaches only when a context is held, and afterwards holds none; nothing else changes |
| AutLifecycle.Aut.Stop | test/e2e/driver/aut.py:119-160 | detaches; kills the recorded pid only if it is truthy, then warns exactly when the exit was not confirmed; the pid and port are kept (collaborator exceptions are not modelled, see Left out) |
| AutLifecycle.Aut.StartAut | test/e2e/driver/aut.py:96-117 | no free port: FreePortError with nothing changed and no stop; otherwise the port is recorded, the startaut command line is executed, with its paths joined with '/', and the pid is recorded; a log-open or spawn failure runs stop() and fails with StartError |
| AutLifecycle.Aut.Wait | test/e2e/driver/aut.py:169-194 | the defaults are 2 s / 20 retries on Windows and 1 s / 10 elsewhere, and explicit arguments win; it passes iff the port waiter does; on a timeout it runs stop() and re-raises the waiter's TimeoutError, unless the psutil diagnostic raised first or no port was allocated |
| AutLifecycle.Aut.Attach | test/e2e/driver/aut.py:79-94 | passes iff registering succeeds, a context is held or resolved, and it runs; a held context is reused rather than resolved; any failure runs stop() with the context held at that point and fails with AttachError |
| AutLifecycle.Aut.Launch | test/e2e/driver/aut.py:162-167 | start, wait, attach in order: passes iff all three would and then holds the new port, pid and bound context; FreePortError exactly when no port was found; a port timeout leaves the spawned pid killed; only the free-port and diagnostic errors leave the context held |
| AutLifecycle.Aut.Restart | test/e2e/driver/aut.py:196-199 | the stop's calls come first; then launches as from scratch with no context held, so success binds the newly resolved context |
| AutLifecycle.Aut.Exit | test/e2e/driver/aut.py:49-71 | on an exception: a best-effort attach and screenshot, whose failure is swallowed; in every case stop() last; afterwards no context is held |
| AutLifecycle.StopNeverStarted | test/e2e/driver/aut.py:119-124 | stop() on an instance that was never started calls no collaborator |
| AutLifecycle.StopTwice | test/e2e/driver/aut.py:119-124 | a second stop kills the recorded pid again (the pid is never cleared) |
| BootstrapBridge.HandleRequest | ui/StatusQ/src/CustomWebView/js/bootstrap_bridge.js:13-24 | the listener body for one request; it has no ensures of its own, and its contract is the per-listener clause HandleAll proves: a packet with the invoke key and the detail exactly when the native handler is available, the missing-handler error otherwise |
| BootstrapBridge.HandleAll | ui/StatusQ/src/CustomWebView/js/bootstrap_bridge.js:13-24 | one output per registered listener, in order: a packet with that listener's invoke key and the detail exactly when its native handler was available, the missing-handler error otherwise |
| BootstrapBridge.Document.DispatchRequest | ui/StatusQ/src/CustomWebView/js/bootstrap_page.js:22 | the request is recorded and every registered listener handles it; the flag and listeners are unchanged |
| BootstrapBridge.Bootstrap | ui/StatusQ/src/CustomWebView/js/bootstrap_bridge.js:7-28 | adds the request listener, then sets the ready flag to '1', in that order; it keeps the invariant that the flag never reads '1' before a listener exists |
| BootstrapPage.HandleEachSingle | ui/StatusQ/src/CustomWebView/js/bootstrap_page.js:19-24 | flushing to one listener gives one output per queued message, in queue order |
| BootstrapPage.PageTransport.constructor | ui/StatusQ/src/CustomWebView/js/bootstrap_page.js:7-11 | no handler, an empty queue, no observer |
| BootstrapPage.PageTransport.IsBridgeReady | ui/StatusQ/src/CustomWebView/js/bootstrap_page.js:15-17 | the shared ready attribute reads '1'; it has no ensures of its own, and what it guards is stated by WaitForBridge, Send and ObserverFires (flush when it holds, queue and observe when it does not) |
| BootstrapPage.PageTransport.FlushPendingMessages | ui/StatusQ/src/CustomWebView/js/bootstrap_page.js:19-24 | empties the queue, dispatching every queued message oldest first |
| BootstrapPage.PageTransport.WaitForBridge | ui/StatusQ/src/CustomWebView/js/bootstrap_page.js:27-48 | flushes at once when the flag reads '1'; otherwise afterwards exactly one observer is connected (an existing one is reused, never a second created), changing nothing else |
| BootstrapPage.PageTransport.Send | ui/StatusQ/src/CustomWebView/js/bootstrap_page.js:52-62 | when ready, dispatches the message now; otherwise appends it to the queue and exactly one connected observer waits; a single observer exists exactly while messages are queued |
| BootstrapPage.PageTransport.ObserverFires | ui/StatusQ/src/CustomWebView/js/bootstrap_page.js:36-42 | once the flag reads '1' the observer is disconnected (none remains connected) and the whole queue is flushed in order; before that nothing happens |
| BootstrapPage.PageTransport.SetOnmessage | ui/StatusQ/src/CustomWebView/js/bootstrap_page.js:63-68 | the getter returns what was set |
| BootstrapPage.PageTransport.DeliverMessage | ui/StatusQ/src/CustomWebView/js/bootstrap_page.js:74-78 | the handler is called with the data only when it is a function |
| BootstrapPage.PageTransport.PushReceived | ui/StatusQ/src/CustomWebView/js/bootstrap_page.js:81-85 | the handler is called with the event's detail only when it is a function |
| BootstrapPage.QueuedHandshake | ui/StatusQ/src/CustomWebView/js/bootstrap_page.js:52-62 | two messages sent before the bridge loads are both posted, in send order, once the observer fires; none is lost before that |
| BootstrapPage.ReadySend | ui/StatusQ/src/CustomWebView/js/bootstrap_page.js:53-56 | after the bridge is ready a message is posted at once (or the missing handler reported), with nothing queued |
| EthereumInjector.InitializeWebChannel | ui/app/AppLayouts/Browser/provider/js/ethereum_injector.js:6-18 | true exactly when the transport exists and constructing the channel does not throw |
| EthereumInjector.Retry | ui/app/AppLayouts/Browser/provider/js/ethereum_injector.js:37-40 | retry(retries, initialized) and the runs it schedules; it has no ensures of its own, and its contract is the one RetryShape proves |
| EthereumInjector.RetryShape | ui/app/AppLayouts/Browser/provider/js/ethereum_injector.js:37-40 | once initialized a run schedules nothing; otherwise each run initializes once, the chain stops at the first success or when the counter reaches 0 (at most retries + 1 runs), and each run but the last waits 50 * min(31 - retries, 5) ms |
| EthereumInjector.RetryScheduleFromStart | ui/app/AppLayouts/Browser/provider/js/ethereum_injector.js:37-40 | from 30: at most 31 attempts, with delays 50, 100, 150, 200, then 250 ms, always between 50 and 250 |
| EthereumInjector.Install | ui/app/AppLayouts/Browser/provider/js/ethereum_injector.js:29-32 | install(retries) and the runs it schedules; it has no ensures of its own, and its contract is the one InstallShape proves |
| EthereumInjector.InstallShape | ui/app/AppLayouts/Browser/provider/js/ethereum_injector.js:29-32 | at most retries + 1 install attempts, 50 ms apart; the chain ends at the first attempt whose install() returns true or throws (nothing catches the throw), and it ends before the budget is used up only for one of those two reasons |
| EthereumInjector.InjectorWindow.constructor | ui/app/AppLayouts/Browser/provider/js/ethereum_injector.js:43 | no provider yet; the 'qtWebChannelReady' listener is registered |
| EthereumInjector.InjectorWindow.SetupEthereumProvider | ui/app/AppLayouts/Browser/provider/js/ethereum_injector.js:20-33 | stores the channel's provider; without one no install runs, otherwise the install chain runs from 30, 1 to 31 attempts; the provider stays stored even when an install() throws |
| EthereumInjector.InjectorWindow.WebChannelReady | ui/app/AppLayouts/Browser/provider/js/ethereum_injector.js:43 | the listener initializes on the first event only (`once: true`) |
| LayoutState.StatusLayoutState.constructor | ui/StatusQ/src/statuslayoutstate.cpp:20-23 | parented to the given object, not opened, nothing emitted |
| LayoutState.StatusLayoutState.QmlAttachedProperties | ui/StatusQ/src/statuslayoutstate.cpp:25-29 | a fresh instance per object, parented to it, in the default state |
| LayoutState.StatusLayoutState.SetOpened | ui/StatusQ/src/statuslayoutstate.cpp:45-52 | afterwards opened() is the value; openedChanged is emitted exactly when the value changed |
| LayoutState.SetOpenedTwice | ui/StatusQ/src/statuslayoutstate.cpp:45-52 | setting the same value twice emits at most one signal, and none if it was already set |
| LayoutState.ToggleScenario | ui/StatusQ/src/statuslayoutstate.cpp:45-52 | close, open, close, open, open on a fresh (closed) state emits three signals, none for the first close or the repeated open, and ends opened |
| WalletLeftPanel.SplitHeadSpec | test/e2e_appium/pages/wallet/wallet_left_panel.py:66 | `split(sep, 1)[0]` is a separator-free prefix; it is the whole string exactly when the separator is absent, otherwise the string is head + separator + rest; it is empty exactly when the string starts with the separator |
| WalletLeftPanel.NameOfSpec | test/e2e_appium/pages/wallet/wallet_left_panel.py:64-68 | a row yields a name iff its descriptor (content-desc, else text) is readable, non-empty and does not start with " [tid:"; the name is the text before the first marker, non-empty and marker-free |
| WalletLeftPanel.TaggedRowName | test/e2e_appium/pages/wallet/wallet_left_panel.py:66 | a row described "<name> [tid:<id>]" lists exactly that name |
| WalletLeftPanel.NamesOfAppend | test/e2e_appium/pages/wallet/wallet_left_panel.py:62-71 | names come out in row order: the names of consecutive rows concatenate |
| WalletLeftPanel.PresentSpec | test/e2e_appium/pages/wallet/wallet_left_panel.py:62-71 | keeping the present values of a sequence of per-row results: no more values than rows, each from some row, and every row holding one contributes it |
| WalletLeftPanel.NamesOfPresent | test/e2e_appium/pages/wallet/wallet_left_panel.py:62-71 | the listed names are exactly the present per-row names, in row order |
| WalletLeftPanel.NamesOfSpec | test/e2e_appium/pages/wallet/wallet_left_panel.py:62-71 | at most one name per row; every listed name comes from a row; every row yielding a name contributes it |
| WalletLeftPanel.NamesOfForm | test/e2e_appium/pages/wallet/wallet_left_panel.py:64-68 | every listed name is non-empty and marker-free |
| WalletLeftPanel.AccountRows | test/e2e_appium/pages/wallet/wallet_left_panel.py:52-57 | the rows found, or [] when the lookup raises; it has no ensures of its own, and AccountNames states the names listed from these rows, including [] on a failed lookup |
| WalletLeftPanel.AccountNames | test/e2e_appium/pages/wallet/wallet_left_panel.py:52-71 | the loop yields exactly the rows' names in row order; a failed row lookup gives [] |
| WalletLeftPanel.RowIndex | test/e2e_appium/pages/wallet/wallet_left_panel.py:80 | Python's indexing picks `index` when it is in range and the last row otherwise, always within range |
| WalletLeftPanel.LongPressRow | test/e2e_appium/pages/wallet/wallet_left_panel.py:76-85 | False with no rows; otherwise presses the chosen row, and the result is true only when the press returns True (a raising press gives False) |
| WalletLeftPanel.AddAccount | test/e2e_appium/pages/wallet/wallet_left_panel.py:26-50 | True iff the modal opened and took the name, and then either the auth prompt appeared and a non-empty password was accepted, or no prompt appeared and the modal hid; the missing-password failure happens exactly when a prompt appears without a password |
| WalletLeftPanel.CompleteAccountDeletion | test/e2e_appium/pages/wallet/wallet_left_panel.py:92-120 | True iff a shown confirmation was accepted and a shown auth prompt got an accepted non-empty password; prompts that do not appear do not matter |
| SendPopup.GetAssetsOrCollectiblesList | test/e2e/gui/components/wallet/send_popup.py:40-48 | the found asset items on 'Assets', the token list's children on 'Collectibles', [] on any other tab |
| SendPopup.ObjNames | test/e2e/gui/components/wallet/send_popup.py:68-69 | one object name per item, in order, with a missing name read as "" |
| SendPopup.RemoveSpaces | test/e2e/gui/components/wallet/send_popup.py:65 | no spaces remain; a name without spaces is unchanged |
| SendPopup.RemoveSpacesSpec | test/e2e/gui/components/wallet/send_popup.py:65 | a space is dropped and any other character kept, and the parts of a string are squeezed independently and concatenated in order, which determines the result on every string |
| SendPopup.MatchesDelegateName | test/e2e/gui/components/wallet/send_popup.py:65-72 | "<prefix><name without spaces>" and "<prefix><name>" both match; for a name without spaces the rule is plain suffix matching |
| SendPopup.SelectNetwork | test/e2e/gui/components/wallet/send_popup.py:56-84 | no options: the assertion fails first; otherwise it clicks the first matching item, with the names scanned up to it; with no match it raises, listing every object name in order; it succeeds iff some item matches |
| SendPopup.LowerSpec | test/e2e/gui/components/wallet/send_popup.py:97-99 | lower-casing is idempotent and leaves no capitals; lower-cased strings are equal iff they agree position by position up to case |
| SendPopup.SelectFromSuggestions | test/e2e/gui/components/wallet/send_popup.py:87-106 | True iff the panel shows, the lookup succeeds, the scan reaches a delegate whose lower-cased title equals the lower-cased address with no earlier title read raising, and the click does not raise; the clicked delegate is the first match |
| MessageContextMenu.LookupName | test/e2e/gui/components/messaging/message_context_menu_popup.py:27-32 | the copy agrees with the real name on every other key; it has 'occurrence' exactly when occurrence > 1, and then holds that value |
| MessageContextMenu.LookupNameFirst | test/e2e/gui/components/messaging/message_context_menu_popup.py:27-32 | every occurrence up to 1 gives the same name, whatever occurrence the real name carried |
| MessageContextMenu.MatchAtSpec | test/e2e/gui/components/messaging/message_context_menu_popup.py:47 | the match at a position is exactly the regular expression's: '/', a non-empty [a-f0-9] run, ".svg"; any group matching there is the one found |
| MessageContextMenu.FirstMatch | test/e2e/gui/components/messaging/message_context_menu_popup.py:47 | `re.search` finds the leftmost position where the pattern matches, and no match exactly when there is none |
| MessageContextMenu.EmojiCode | test/e2e/gui/components/messaging/message_context_menu_popup.py:47-49 | the group of the leftmost match of '/', a hex run and ".svg" in a path, or None without a match; it has no ensures of its own, and its contract is the one EmojiCodeSpec proves |
| MessageContextMenu.EmojiCodeSpec | test/e2e/gui/components/messaging/message_context_menu_popup.py:46-49 | the code is the group of a match no other match starts left of; there is no code exactly when the pattern matches nowhere |
| MessageContextMenu.GrinningFaceCode | test/e2e/gui/components/messaging/message_context_menu_popup.py:46-47 | "qrc:/assets/twemoji/svg/1f600.svg" gives "1f600" |
| MessageContextMenu.EmojiReaction.GetEmojiCodeByOccurrence | test/e2e/gui/components/messaging/message_context_menu_popup.py:24-51 | looks up the element under the occurrence-adjusted copy; returns the code of the first child in walk order that yields one (icon, else source, never an empty path); LookupError when no child does; the real name is untouched |
| MessageContextMenu.EmojiReaction.AddReactionToMessage | test/e2e/gui/components/messaging/message_context_menu_popup.py:54-58 | writes 'occurrence' into the real name only when occurrence > 1, otherwise leaves it as it was, then clicks |
| MessageContextMenu.ReactThirdThenFirst | test/e2e/gui/components/messaging/message_context_menu_popup.py:54-58 | reacting with occurrence 3 then 1 clicks the third reaction twice, while the code lookup for occurrence 1 has no occurrence entry |

## Left out

- AutLifecycle.AwaitExit: polls at most 50 times, in whole tenths of a second. The Python loop adds the float 0.1 to `elapsed`, and after 50 additions `elapsed` is 4.999999999999998. So it makes a 51st inspection, after the usual 0.1 s sleep, and then sleeps about 1.8e-15 s more before giving up. The model does not reproduce this float drift.
- AutLifecycle.Aut.Stop: does not model the `else` branch under `if psutil:` (test/e2e/driver/aut.py:143-146). The condition tests an imported module and is always true.
- AutLifecycle.Aut.DetachContext: `driver.currentApplicationContext().detach()` (aut.py:76) is an oracle call outside any `try`. An exception from it, which would escape stop() before any kill, is not modelled.
- AutLifecycle.Aut.Stop: `kill_process` is an oracle call. Its body is not part of this model, so an exception from it (which would escape stop()) is not modelled.
- The clock-based run id, the random data-directory name and the file copy of seed data are parameters or recorded effects. No file system is modelled.
- Logging and message texts are not modelled. A TimeoutError is its fields (host, port, attempts, timeout), not its formatted message.
- The free-port scan (`find_free_port`), process spawn, the Squish server and context calls, and `waitFor` are oracle answers. Their bodies are not part of this model.
- The `__exit__` screenshot steps (window lookup, image grab, cv2, allure) are one flag, `screenshotOk`.
- BootstrapBridge: the packet's JSON serialisation is not modelled. Neither is `String(e.detail)` for non-string details, because the page only sends strings.
- BootstrapPage: the `window[ns]` namespace object and the 'qtWebChannelReady' event dispatch (bootstrap_page.js:89) are not modelled. The listener side is EthereumInjector.InjectorWindow.WebChannelReady.
- MutationObserver callbacks, setTimeout and DOM event dispatch are explicit steps (`ObserverFires`, one element per timer run) rather than asynchronous callbacks. No ordering is claimed between a message dispatched immediately and messages flushed later, since the code does not ensure one.
- EthereumInjector: the interleaving of the retry chain with the 'qtWebChannelReady' listener is not modelled. That listener may initialize a channel while the chain keeps retrying.
- EthereumInjector: what `install()` returns is a boolean. Other truthy return values are not distinguished.
- EthereumInjector.InstallShape: an `install()` that throws ends the chain (its `threw` step), but where the exception goes afterwards is not modelled. On the first attempt it escapes setupEthereumProvider, and on a later one it escapes the timer callback.
- WalletLeftPanel: `is_loaded`, `open_add_account_popup`, `wait_for_account_name`, `open_context_menu_for_row`, `edit_account_via_menu`, `delete_latest_account_via_menu`, `find_account_element_by_name` and `delete_account_by_name` are driver navigation. Their outcomes enter the model as oracle answers.
- SendPopup.Lower: lower-cases ASCII letters only. Python's `str.lower()` also maps non-ASCII capitals.
- SendPopup: clicks, the 0.2 s sleeps, `open_token_selector`, `open_sign_send_modal` and `sign_and_send` are UI glue. A matched Squish object is taken to be truthy.
- MessageContextMenu: `wait_until_appears` and the element lookup's timeout are driver calls, represented by the `find` oracle. `str()` of icon values is taken to produce the path string.
- LayoutState: Qt's signal delivery is a counter of emitted openedChanged signals.
- The Objective-C/C++ headers of the macOS web view (user scripts, backend, channel transport, origin and script utilities) hold declarations only. Neither they nor the main-thread dispatch helpers are part of this model.
- Context files that only navigate the UI (settings helper, change-password and network popups, the account modal, the market screen and its test) are not part of this model.
