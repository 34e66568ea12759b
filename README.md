# Dream OS: a verified model of the portal's access, caching and client logic

Dream OS is an installable single-page web application for the facility portal of
a school (Al Fikri). This project models its logic in Dafny and proves what that
logic promises. The logic falls into three parts.

- **Module access on the server.** The `verify-module-access` edge function checks
  a module password or an architect credential against secrets held on the
  server. It writes one audit record per verified attempt and answers failed
  attempts only after a one-second delay. `VerifyModuleAccess.Decide` is the
  handler's decision as a pure function. `VerifyModuleAccess.AccessLog` is the
  append-only audit log the handler writes to.
- **The offline cache controller.** There are two service workers: the current
  `public/sw.js` and the older `sw.js/public/sw.js`. Both run over one model of
  the browser's Cache Storage, `CacheStorage.Caches`. It holds named buckets in
  creation order. Each worker's fetch routing is a pure function (`Route`), and
  its handlers are methods that change the buckets as the routing says.
  `WorkerUpgrade` shows what happens to the buckets when the two workers replace
  each other. The older worker intercepts every request. `caches.match(request)`
  never matches a request other than GET, so the older worker sends such
  requests to the network (`LegacyServiceWorker.NonGetUsesNetwork`). The current
  worker lets them pass.
- **Client state machines and text templates.** Each React component becomes a
  class. Its fields are the component's `useState` variables and its methods are
  the event handlers. Each `setTimeout` becomes a pending timer, and the timer's
  callback becomes a method that the environment calls when the timer fires. The
  printer service's label and ticket templates are functions over strings. The
  device and capability detection is a function of what the browser offers.

Shared JavaScript string operations live in `JsStrings`:

- `substring`, `slice`, `padEnd`, `includes`, `startsWith` and `trim`;
- number-to-text conversion;
- the `Option` type that stands for `null`/`undefined`.

Strings are sequences of Unicode code points.

The current worker catches a failed precache (`public/sw.js:23`), so its install
still succeeds; only the older worker's install rejects (`ServiceWorker.Install`,
`LegacyServiceWorker.Install`). The current worker does not await its runtime
`cache.put` (`public/sw.js:71-73`); the model treats it as an immediate write.

## Model

| member | source | states |
|---|---|---|
| VerifyModuleAccess.OrElse | supabase/functions/verify-module-access/index.ts:57-58 | `a \|\| b` on header strings: the header when it is present and non-empty, else the fallback |
| VerifyModuleAccess.LoggedModuleId | supabase/functions/verify-module-access/index.ts:106 | `moduleId \|\| null`: the id is logged exactly when it is present and not 0 |
| VerifyModuleAccess.Decide | supabase/functions/verify-module-access/index.ts:36-142 | the only statuses are 200/400/401/500; `success` is true iff the status is 200; the delay happens iff the status is 401; a record is produced iff the status is 200 or 401 and the request is not a preflight; the record's success flag matches the status |
| VerifyModuleAccess.OptionsAcknowledged | supabase/functions/verify-module-access/index.ts:38-40 | a preflight gets plain "ok" with status 200, with no verification, no record and no delay |
| VerifyModuleAccess.ArchitectGrantedIff | supabase/functions/verify-module-access/index.ts:33-34 | architect access yields 200 exactly for `Mr.M_Architect_2025` or `012443410`; every other password yields 401 |
| VerifyModuleAccess.InvalidModuleIdRefused | supabase/functions/verify-module-access/index.ts:80-89 | a missing, zero or unknown module id gets 400 "Invalid module ID", with no record and no delay |
| VerifyModuleAccess.ModuleGrantedIff | supabase/functions/verify-module-access/index.ts:91 | for a known module id, access yields 200 exactly for that module's secret; otherwise it yields 401 |
| VerifyModuleAccess.SharedSecrets | supabase/functions/verify-module-access/index.ts:20-30 | the secret table covers ids 1 to 9; only modules 1/2 and 5/6 share a secret |
| VerifyModuleAccess.UnknownAuthTypeRefused | supabase/functions/verify-module-access/index.ts:93-101 | any auth type other than "architect" and "module" gets 400 "Invalid auth type", with no record and no delay |
| VerifyModuleAccess.VerifiedAttemptRecorded | supabase/functions/verify-module-access/index.ts:104-114 | each verified attempt yields one record that carries: `moduleId \|\| null`; the looked-up user id when an authorization header was sent, else null; the client address cut to its first 45 characters (`substring(0, 45)`); the user agent cut to its first 255; the decision. Whether the log write fails does not change the outcome |
| VerifyModuleAccess.StatusAndDelay | supabase/functions/verify-module-access/index.ts:116-130 | a granted attempt gets 200 "Access granted" without delay; a refused one gets 401 "Invalid password" after the delay |
| VerifyModuleAccess.ExceptionsGiveInternalError | supabase/functions/verify-module-access/index.ts:132-140 | if client creation, body parsing or the user lookup throws, the answer is the generic 500 with `success` false |
| VerifyModuleAccess.AccessLog.constructor | supabase/functions/verify-module-access/index.ts:104-114 | the audit log starts empty |
| VerifyModuleAccess.AccessLog.Handle | supabase/functions/verify-module-access/index.ts:36-142 | returns `Decide`'s response and delay; appends the attempt's record exactly when there is one and the write succeeds; otherwise leaves the log unchanged |
| CacheStorage.MatchIn | public/sw.js:63 | `caches.match`: a hit is the entry of some bucket holding the URL; the result is undefined iff no bucket holds the URL |
| CacheStorage.MatchAfterPut | public/sw.js:71-73 | after a URL that no bucket held is put into a bucket, `caches.match` returns exactly the stored response |
| CacheStorage.MatchRequestIn | sw.js/public/sw.js:45 | `caches.match(request)` without `ignoreMethod`: a request other than GET never matches, and a GET matches as its URL does |
| CacheStorage.Resolve | public/sw.js:6-11 | each precache path is resolved against the worker's origin, in order |
| CacheStorage.AddAll | public/sw.js:20 | `cache.addAll` succeeds iff every fetch is ok and none is a partial (206) response; the entries it stores are exactly the listed URLs, each with its fetched response |
| CacheStorage.Without | public/sw.js:35 | deleting a name keeps every other name, in order, and keeps the names distinct |
| CacheStorage.Caches.constructor | public/sw.js:17 | the storage starts with no buckets |
| CacheStorage.Caches.Open | public/sw.js:17 | `caches.open` creates an empty bucket, last in order, only when the name is new; otherwise nothing changes; bucket names stay distinct |
| CacheStorage.Caches.Store | public/sw.js:72 | `cache.put` adds the entries to the opened bucket; nothing else changes |
| CacheStorage.Caches.Put | public/sw.js:71-73 | open followed by put: the names and buckets become exactly `NamesAfterOpen` and `BucketsAfterPut` |
| CacheStorage.Caches.Delete | public/sw.js:35 | `caches.delete` reports whether the bucket existed and removes exactly that bucket and its name |
| CacheStorage.Caches.DeleteAllExcept | public/sw.js:31-37 | the activate loop: afterwards a bucket remains iff it is the kept one and existed before, and the kept bucket's contents are untouched |
| ServiceWorker.SkipsNonGetAndNonHttp | public/sw.js:47-50 | the handler does not respond iff the method is not GET or the URL does not start with "http"; skipped requests store nothing and make no network call |
| ServiceWorker.NavigationNetworkFirst | public/sw.js:53-58 | a navigation gets the network response, or the cached offline page when the fetch fails; it never stores anything |
| ServiceWorker.CacheHitWithoutNetwork | public/sw.js:63-66 | a cache hit is answered from the cache with no network call and no write |
| ServiceWorker.MissStoresIff200 | public/sw.js:67-75 | on a miss the network response is returned; it is stored iff its status is 200 |
| ServiceWorker.MissAndFailure | public/sw.js:76-81 | a miss followed by a network failure yields the offline page iff the destination is "document", otherwise undefined |
| ServiceWorker.SecondRequestServedFromCache | public/sw.js:63-75 | round trip: after a miss whose response was 200 and got stored, the same request gets the same response from the cache, without a network call |
| ServiceWorker.Install | public/sw.js:14-25 | `skipWaiting` happens iff `addAll` succeeds, and the bucket then holds every precached asset; a failed `addAll` is caught and leaves the opened bucket unchanged |
| ServiceWorker.Activate | public/sw.js:28-40 | every bucket other than `dream-os-v13-cache-v2` is deleted, that bucket is untouched, then the clients are claimed |
| ServiceWorker.HandleFetch | public/sw.js:43-84 | answers as `Route` does; the cache changes only by the put that `Route` asks for |
| LegacyServiceWorker.InterceptsEverything | sw.js/public/sw.js:35-50 | every request is answered, whatever its method or scheme, and nothing is ever stored |
| LegacyServiceWorker.NavigationNetworkFirst | sw.js/public/sw.js:39-42 | a navigation gets the network response, or the cached offline page when the fetch fails |
| LegacyServiceWorker.CacheThenNetwork | sw.js/public/sw.js:43-49 | other requests get the entry `caches.match(request)` finds (only a GET can match) without a network call, or else the network result (a failure reaches the page) |
| LegacyServiceWorker.NonGetUsesNetwork | sw.js/public/sw.js:43-49 | a request that is neither a navigation nor a GET is intercepted but always goes to the network, whatever the cache holds, and nothing is stored |
| LegacyServiceWorker.Install | sw.js/public/sw.js:17-23 | the install succeeds iff `addAll` of the eight assets succeeds, and all eight are then cached; there is no catch, so a failure rejects the install |
| LegacyServiceWorker.Activate | sw.js/public/sw.js:25-33 | every bucket other than `dream-os-v13-cache` is deleted and that bucket is untouched |
| LegacyServiceWorker.HandleFetch | sw.js/public/sw.js:35-50 | answers as `Route` does, looking the request up with `caches.match(request)`, and never changes the cache |
| WorkerUpgrade.UpgradeFromLegacy | sw.js/public/sw.js:2 | activating the current worker after the legacy one leaves only the `dream-os-v13-cache-v2` bucket |
| WorkerUpgrade.DowngradeToLegacy | sw.js/public/sw.js:2 | activating the legacy worker after the current one leaves only the `dream-os-v13-cache` bucket |
| ModuleGrid.ModuleTable | src/components/ModuleGrid.tsx:26-99 | nine module cards with ids 1 to 9 in order, all distinct |
| ModuleGrid.CardMatchesServer | src/components/ModuleGrid.tsx:26-99 | each card's password is the server's secret for its id |
| ModuleGrid.ClientPasswordsMatchServer | src/components/ModuleGrid.tsx:26-99 | the client and server tables agree, in both directions |
| ModuleGrid.ClientCheckAgreesWithServer | src/components/ModuleGrid.tsx:26-99 | for any card, the client accepts a password iff the server would |
| ModuleGrid.Grid.constructor | src/components/ModuleGrid.tsx:121-123 | nothing is selected, the dialog is closed and no module is accessed |
| ModuleGrid.Grid.ExpectedPassword | src/components/ModuleGrid.tsx:204 | `selectedModule?.password \|\| ''`: "" with nothing selected, otherwise the selected card's password |
| ModuleGrid.Grid.HandleModuleClick | src/components/ModuleGrid.tsx:125-128 | a click selects the module and opens the dialog |
| ModuleGrid.Grid.HandlePasswordSuccess | src/components/ModuleGrid.tsx:130-132 | the selected module becomes the accessed one |
| ModuleGrid.Grid.HandleBackToGrid | src/components/ModuleGrid.tsx:134-136 | the accessed module is cleared, so the grid shows again |
| ModuleGrid.Grid.CloseModal | src/components/ModuleGrid.tsx:201 | the dialog closes; the selection is kept |
| ModuleGrid.SubmitPassword | src/components/ModuleGrid.tsx:199-206 | submitting the open dialog opens the module page iff the typed password equals the expected one; nothing opens with nothing selected; an opened card's password is one the server accepts; an accepted dialog is back in its initial state, as its unmount makes it |
| PasswordModal.Modal.constructor | src/components/PasswordModal.tsx:24-27 | empty field, password hidden, no error, no success |
| PasswordModal.Modal.HandleSubmit | src/components/PasswordModal.tsx:29-43 | accepted iff the typed password equals `correctPassword` exactly. On acceptance: success is shown with no error. Otherwise: the error "Password salah! Coba lagi." is shown and the field is cleared. Success and error never show together |
| PasswordModal.Modal.HandleClose | src/components/PasswordModal.tsx:45-50 | field, error and success are reset; show-password is kept |
| PasswordModal.Modal.ChangeInput | src/components/PasswordModal.tsx:104-107 | the field takes the new text and the error is cleared |
| PasswordModal.Modal.ToggleShowPassword | src/components/PasswordModal.tsx:114 | flips show-password and nothing else |
| BiometricAuth.KeypadLayout | src/components/BiometricAuth.tsx:65 | twelve distinct keys: the ten digits, 'C' and '✓' |
| BiometricAuth.DefaultsMatchServer | src/components/BiometricAuth.tsx:20-21 | with the default props, the dialog accepts exactly the codes the server accepts for an architect |
| BiometricAuth.KeypadOnlyReachesTriggerCode | src/components/BiometricAuth.tsx:43 | a digits-only code (all the keypad can type) is accepted iff it is the trigger code |
| BiometricAuth.Dialog.constructor | src/components/BiometricAuth.tsx:16-26 | the keys default to the architect credentials; empty code, keypad hidden, no error, no success |
| BiometricAuth.Dialog.HandleCodeSubmit | src/components/BiometricAuth.tsx:42-54 | accepted iff the code equals the trigger code or the master key. On acceptance: success with no error. Otherwise: "Kode tidak valid! ⚠️" and the code is cleared |
| BiometricAuth.Dialog.HandleKeypadPress | src/components/BiometricAuth.tsx:67-76 | 'C' clears the code and the error; '✓' submits as `HandleCodeSubmit` does; any other key (a digit) appends exactly itself |
| BiometricAuth.Dialog.SetInputCode | src/components/BiometricAuth.tsx:181 | the code takes the new text; the error stays |
| BiometricAuth.Dialog.ShowKeypad | src/components/BiometricAuth.tsx:188 | the keypad shows; nothing else changes |
| BiometricAuth.Dialog.HideKeypad | src/components/BiometricAuth.tsx:232 | the keypad hides; nothing else changes |
| BiometricAuth.Dialog.HandleBiometricAuth | src/components/BiometricAuth.tsx:31-40 | success and its timer happen exactly when authentication succeeded; otherwise nothing changes |
| BiometricAuth.Dialog.HandleClose | src/components/BiometricAuth.tsx:56-62 | code, error, keypad and success all return to their initial values |
| DreamBottomNav.IndexOf | src/components/DreamBottomNav.tsx:55 | `modes.indexOf` finds every mode, so it is never -1 |
| DreamBottomNav.NextModeOrder | src/components/DreamBottomNav.tsx:53-57 | a long press cycles qr → printer → biometric → qr |
| DreamBottomNav.NextModeThreeCycle | src/components/DreamBottomNav.tsx:53-57 | three cycles give the identity; one or two never do |
| DreamBottomNav.CycleModesShift | src/components/DreamBottomNav.tsx:53-57 | three more long presses return to the same mode |
| DreamBottomNav.CycleModesRounds | src/components/DreamBottomNav.tsx:53-57 | any whole number of three-press rounds returns to the same mode |
| DreamBottomNav.CycleModesPeriod | src/components/DreamBottomNav.tsx:53-57 | k long presses land where k mod 3 presses do |
| DreamBottomNav.CycleModesReturn | src/components/DreamBottomNav.tsx:53-57 | k long presses return to the start iff k is a multiple of three |
| DreamBottomNav.DepokStatusConfigDistinct | src/components/DreamBottomNav.tsx:85-94 | each status has its own colour, text and icon |
| DreamBottomNav.Nav.constructor | src/components/DreamBottomNav.tsx:14-25 | tab home, mode qr, ghost off, status secure, all panels closed, no timers |
| DreamBottomNav.Nav.HandleFabPress | src/components/DreamBottomNav.tsx:40-48 | opens exactly the panel of the current mode and leaves the other two flags, and every other field, as they were |
| DreamBottomNav.Nav.HandleFabLongPressStart | src/components/DreamBottomNav.tsx:50-51 | schedules a long-press timer and overwrites the ref with its handle, without clearing an earlier one; nothing else changes |
| DreamBottomNav.Nav.LongPressTimerFired | src/components/DreamBottomNav.tsx:51-65 | the mode advances one step, the mode label shows and its reset is scheduled; the ref, tab, ghost flag, status and panels are unchanged |
| DreamBottomNav.Nav.ModeLabelTimerFired | src/components/DreamBottomNav.tsx:59 | the mode label hides and its pending reset is consumed; nothing else changes |
| DreamBottomNav.Nav.HandleFabLongPressEnd | src/components/DreamBottomNav.tsx:68-73 | cancels the timer in the ref, if any, and empties the ref; nothing else changes, so a second call changes nothing |
| DreamBottomNav.Nav.HandleBiometricSuccess | src/components/DreamBottomNav.tsx:75-79 | ghost mode turns on and its reset is scheduled; nothing else changes |
| DreamBottomNav.Nav.GhostTimerFired | src/components/DreamBottomNav.tsx:78 | ghost mode turns off and its pending reset is consumed; nothing else changes |
| DreamBottomNav.Nav.SelectTab | src/components/DreamBottomNav.tsx:150 | the clicked tab becomes active; nothing else changes |
| DreamBottomNav.Nav.HealthCheck | src/components/DreamBottomNav.tsx:29-38 | the badge shows the configuration of the status just drawn; nothing else changes |
| DreamBottomNav.Nav.CloseQRScanner | src/components/DreamBottomNav.tsx:286 | closes the scanner; nothing else changes |
| DreamBottomNav.Nav.ClosePrinter | src/components/DreamBottomNav.tsx:292 | closes the printer panel; nothing else changes |
| DreamBottomNav.Nav.CloseBiometric | src/components/DreamBottomNav.tsx:297 | closes the biometric dialog; nothing else changes |
| DreamBottomNav.ShortPress | src/components/DreamBottomNav.tsx:175-179 | a press released before its timer fires leaves the mode, the mode label and the pending timers as they were and empties the ref |
| DreamBottomNav.DoubleStartThenEnd | src/components/DreamBottomNav.tsx:175-179 | two starts before one end (a second finger, or touch plus a real mouse on a hybrid device): the first timer stays pending, so the mode still advances later; the end itself leaves the mode unchanged |
| HeroSlider.JsRem | src/components/HeroSlider.tsx:58 | JavaScript `%` is the ordinary remainder for non-negative operands |
| HeroSlider.NextPrevInverse | src/components/HeroSlider.tsx:63-71 | both moves stay within the five slides and undo each other |
| HeroSlider.AdvanceIsRotation | src/components/HeroSlider.tsx:55-66 | k forward moves from slide i land on slide (i + k) mod 5 |
| HeroSlider.FiveAdvancesReturn | src/components/HeroSlider.tsx:55-66 | five advances, by button or interval, return to the starting slide |
| HeroSlider.Slider.constructor | src/components/HeroSlider.tsx:52-53 | slide 0, no direction |
| HeroSlider.Slider.NextSlide | src/components/HeroSlider.tsx:63-66 | `(current + 1) % 5` with direction 1, always on a slide |
| HeroSlider.Slider.PrevSlide | src/components/HeroSlider.tsx:68-71 | `(current - 1 + 5) % 5` with direction -1, always on a slide |
| HeroSlider.Slider.AutoAdvance | src/components/HeroSlider.tsx:55-61 | an interval tick moves as the right arrow does |
| HeroSlider.Slider.GoToSlide | src/components/HeroSlider.tsx:73-76 | jumps to the index; the direction is 1 iff the index is after the current slide, else -1 (also for the current one) |
| PrinterPanel.SampleTicket | src/components/PrinterPanel.tsx:70-77 | the ticket id is "TKT-" followed only by digits, whose value is the clock modulo 1000000 (its last six digits) |
| PrinterPanel.FindOnline | src/components/PrinterPanel.tsx:36 | `find` returns the first online printer, and none iff no printer is online |
| PrinterPanel.DiscoverySelectsFirstPrinter | src/components/PrinterPanel.tsx:36-37 | on the discovery list the scan selects printer-001 |
| PrinterPanel.Panel.constructor | src/components/PrinterPanel.tsx:23-27 | no printers, no selection, idle, no message |
| PrinterPanel.Panel.BeginScan | src/components/PrinterPanel.tsx:31 | scanning starts; nothing else changes |
| PrinterPanel.Panel.CompleteScan | src/components/PrinterPanel.tsx:32-40 | scanning stops even on an exception; a found list replaces `printers` and selects its first online printer, and the old selection is kept when none is online |
| PrinterPanel.Panel.Scan | src/components/PrinterPanel.tsx:87-92 | opening the panel scans and ends with the three printers listed and printer-001 selected, and print options visible; the print flag and message are unchanged |
| PrinterPanel.Panel.SelectPrinter | src/components/PrinterPanel.tsx:173 | the clicked printer becomes the selection; nothing else changes |
| PrinterPanel.Panel.BeginPrint | src/components/PrinterPanel.tsx:44-47 | with no selection nothing happens; otherwise the panel is busy, the message cleared and the job sent to the selected printer |
| PrinterPanel.Panel.CompletePrint | src/components/PrinterPanel.tsx:57-61 | busy ends; the message is set only when the print succeeded |
| PrinterPanel.Panel.PrintLabel | src/components/PrinterPanel.tsx:43-62 | prints the sample inventory label, as the template writes it, on the selected printer and shows the label message; with no selection nothing happens; the selection, list and scan flag are unchanged |
| PrinterPanel.Panel.PrintTicket | src/components/PrinterPanel.tsx:64-85 | prints the sample ticket on the selected printer and shows the ticket message; with no selection nothing happens; the selection, list and scan flag are unchanged |
| WifiPrinter.DiscoveredPrintersShape | src/services/wifiPrinter.ts:26-51 | three printers with distinct ids; only printer-003 is offline |
| WifiPrinter.LabelCell | src/services/wifiPrinter.ts:69-70 | a name or location cell is exactly 28 characters: the input's first 28, padded with spaces |
| WifiPrinter.InventoryLabelIsItsRows | src/services/wifiPrinter.ts:63-75 | trimming removes only the template's opening line break and closing indentation |
| WifiPrinter.NameAndLocationCells | src/services/wifiPrinter.ts:69-70 | the name and location rows hold exactly `LabelCell` of their input |
| WifiPrinter.IdAndConditionUntruncated | src/services/wifiPrinter.ts:68-71 | the id and condition are never truncated: each row is 11 + max(28, length) wide and shows the whole input |
| WifiPrinter.LabelFieldRowsOneShort | src/services/wifiPrinter.ts:64-74 | as written: the frame rows are 40 wide but the field rows only 39 |
| WifiPrinter.FitCell | src/services/wifiPrinter.ts:69-70 | a cell of n columns: the input's first n characters, padded with spaces |
| WifiPrinter.AlignedLabelRowsFitFrame | src/services/wifiPrinter.ts:64-74 | corrected: with 29-column cells every one of the eleven rows is exactly 40 wide |
| WifiPrinter.AlignedLabelIsItsRows | src/services/wifiPrinter.ts:63-75 | the corrected label, trimmed, is exactly its rows, starting with the frame's top row |
| WifiPrinter.AlignedIdAndConditionShown | src/services/wifiPrinter.ts:68-71 | the corrected label still shows an id or condition in full when it fits the cell |
| WifiPrinter.PriorityLabelsDistinct | src/services/wifiPrinter.ts:87-92 | the four priorities have four distinct labels |
| WifiPrinter.TicketIsItsRows | src/services/wifiPrinter.ts:94-112 | trimming removes only the template's opening line break and closing indentation |
| WifiPrinter.TicketCells | src/services/wifiPrinter.ts:103-106 | the description row holds exactly its first 38 characters (`substring(0, 38)`, all of a short one); the location and reporter cells are exactly the input padded with spaces to 27 (`padEnd(27)`), so shown in full |
| WifiPrinter.PrintToNetworkPrinter | src/services/wifiPrinter.ts:116-132 | the simulated print always succeeds with a "Berhasil mencetak …" message |
| WifiPrinter.PrintMessageReportsCopies | src/services/wifiPrinter.ts:119-128 | the message reports exactly the copy count, and 1 when none is given |
| OfflineIndicator.Indicator.constructor | src/components/OfflineIndicator.tsx:6-7 | online as `navigator.onLine` says, no reconnected banner |
| OfflineIndicator.Indicator.HandleOnline | src/components/OfflineIndicator.tsx:10-14 | online with the reconnected banner, and its reset is scheduled |
| OfflineIndicator.Indicator.HandleOffline | src/components/OfflineIndicator.tsx:16-19 | offline, and the reconnected banner goes |
| OfflineIndicator.Indicator.ReconnectedTimerFired | src/components/OfflineIndicator.tsx:13 | the reconnected banner goes |
| OfflineIndicator.Indicator.BannersExclusive | src/components/OfflineIndicator.tsx:10-19 | the handlers keep "reconnected implies online", so the two banners never show together |
| NativeCapabilities.DetectDeviceMeaning | src/hooks/useNativeCapabilities.ts:19-26 | the phone is recognised iff "Redmi Note 9 Pro" or "M2003J6A1G" occurs in the user agent; the model name says so exactly then, else "Unknown Device" |
| NativeCapabilities.AnyVideoInput | src/hooks/useNativeCapabilities.ts:58 | `some(d => d.kind === 'videoinput')` holds iff some device is a video input |
| NativeCapabilities.CameraAvailable | src/hooks/useNativeCapabilities.ts:54-62 | there is a camera iff enumeration returned a video input; a missing API or an exception means no camera |
| NativeCapabilities.BiometricAvailable | src/hooks/useNativeCapabilities.ts:44-51 | a biometric sensor is reported iff the probe returned true; a missing API or an exception means no sensor |
| NativeCapabilities.DetectCapabilities | src/hooks/useNativeCapabilities.ts:39-72 | each stored capability is its probe's answer, and the device fields come from `detectDevice` |
| NativeCapabilities.CapabilitiesHook.constructor | src/hooks/useNativeCapabilities.ts:29-36 | all capabilities false and the model "Unknown" |
| NativeCapabilities.CapabilitiesHook.Detect | src/hooks/useNativeCapabilities.ts:38-75 | detection stores `DetectCapabilities` of the browser |
| NativeCapabilities.FailureText | src/hooks/useNativeCapabilities.ts:128-133 | the error text is never empty; it is the architect-password hint iff the error is a not-supported one or already carries that text |
| NativeCapabilities.FailureTextCases | src/hooks/useNativeCapabilities.ts:92-133 | a missing WebAuthn API or a `NotSupportedError` gives the architect hint; a null credential gives "Authentication failed"; another rejection gives its own message, or "Authentication failed" when that message is empty |
| NativeCapabilities.BiometricAuthHook.constructor | src/hooks/useNativeCapabilities.ts:82-84 | idle, not authenticated, no error |
| NativeCapabilities.BiometricAuthHook.BeginAuthenticate | src/hooks/useNativeCapabilities.ts:87-88 | busy, and any earlier error cleared |
| NativeCapabilities.BiometricAuthHook.CompleteAuthenticate | src/hooks/useNativeCapabilities.ts:119-136 | true iff a credential came back; every failure returns false, no longer busy, with a non-empty error |
| NativeCapabilities.BiometricAuthHook.Authenticate | src/hooks/useNativeCapabilities.ts:86-137 | the whole call: true iff a credential came back, with the error set on every failure |
| JsStrings.Prefix | supabase/functions/verify-module-access/index.ts:108-109 | `substring(0, n)` is a prefix of length min(n, length) |
| JsStrings.PadEnd | src/services/wifiPrinter.ts:68-71 | `padEnd(n)` keeps the string as a prefix, pads with spaces to n, and never shortens |
| JsStrings.Suffix | src/components/PrinterPanel.tsx:71 | `slice(-n)` for n > 0 is the last min(n, length) characters |
| JsStrings.Decimal | src/components/PrinterPanel.tsx:71 | `toString()` of a natural number below 10^21 is a non-empty run of digits with no leading zero |
| JsStrings.DecimalRoundTrip | src/services/wifiPrinter.ts:128 | reading back a number's decimal text gives the number |
| JsStrings.DigitsSuffixValue | src/components/PrinterPanel.tsx:71 | `slice(-k)` of a run of digits reads back as the run's value modulo 10^k, and is itself a run of digits |
| JsStrings.DecimalSuffixValue | src/components/PrinterPanel.tsx:71 | the last k digits of a number's decimal text read back as the number modulo 10^k |
| JsStrings.IncludesIffOccurs | src/hooks/useNativeCapabilities.ts:21 | `includes` holds iff the substring occurs at some position |
| JsStrings.TrimStart | src/services/wifiPrinter.ts:75 | strips exactly the leading white space |
| JsStrings.TrimEnd | src/services/wifiPrinter.ts:75 | strips exactly the trailing white space |
| JsStrings.TrimIndentedTemplate | src/services/wifiPrinter.ts:63-75 | a template that opens with a line break and closes with a line break plus indentation trims to its body |
| JsStrings.JoinLines | src/services/wifiPrinter.ts:63-75 | joined rows begin with the first row and end with the last |

## Left out

- JsStrings.Decimal: models the decimal text of a natural number of any size. JavaScript writes numbers from 10^21 upward in exponent form (`1e+21`) and cannot represent every integer above 2^53. So the model, and `PrinterPanel.SampleTicket` and `WifiPrinter.PrintMessageReportsCopies` built on it, describe JavaScript only for integers below 2^53. The clock values and copy counts the code handles are far below that.
- `simpleHash` (supabase/functions/verify-module-access/index.ts:9-17) is never called, so it is left out. The CORS header values and every `console` call are also left out.
- The Supabase client, `auth.getUser`, `req.json()` and the `log_module_access` call are foreign I/O. They appear only as their outcomes: whether client creation succeeds, the parsed body or a parse failure, the lookup result, and whether the log write succeeds.
- VerifyModuleAccess.Decide: the JSON `moduleId` is an integer or absent. A string or fractional id, which JavaScript would coerce when indexing the table, is not modelled.
- Strings are sequences of code points, while JavaScript lengths count UTF-16 units. This matters only for the emoji in messages and ticket priority labels, whose JavaScript lengths are larger. The label and ticket lemmas are stated for code points.
- Timer durations (800 ms, 1.5 s, 3 s, 5 s, 30 s), framer-motion animations and `navigator.vibrate` are left out. Timers are explicit "fired" methods that the environment calls in any order.
- DreamBottomNav.Nav.HealthCheck: the status is a parameter. The `Math.random` draw and its float thresholds (src/components/DreamBottomNav.tsx:31-35) are not modelled.
- `checkWifiConnection` (src/services/wifiPrinter.ts:135-151) and the panel's `wifiStatus` are left out: they depend on navigator state and a float `downlink`.
- WifiPrinter.TicketCells: the locale date and time text (`toLocaleDateString`/`toLocaleTimeString` for `id-ID`) are parameters of the ticket template.
- PrinterPanel.SampleTicket: `Date.now()` is a natural-number parameter.
- WifiPrinter.PrintToNetworkPrinter: `copies` is a natural number; negative or fractional counts are not modelled. The two-second delay and the console output are left out.
- PrinterPanel.Panel.CompleteScan: when discovery throws, the `finally` still ends the scan, as modelled. The rejection that then escapes `scanPrinters` is not modelled (the mock discovery never throws).
- Promise plumbing, `waitUntil`, `skipWaiting` and `clients.claim` appear only as the flags the worker methods return. Concurrent fetch events and the parallel deletes of `Promise.all` are modelled as one handler at a time.
- ServiceWorker.HandleFetch: the un-awaited runtime `cache.put` is taken as an immediate write.
- ModuleGrid.SubmitPassword: the one-second success timer is taken to fire at once. The interval in which the dialog shows success is covered by `PasswordModal.Modal.HandleSubmit` on its own.
- PasswordModal.Modal.HandleSubmit: requires the submit button to be enabled (src/components/PasswordModal.tsx:153). A form whose submit button is disabled is not submitted by the browser.
- BiometricAuth.Dialog.HandleCodeSubmit: requires that access has not been granted yet. The code controls are rendered only then (src/components/BiometricAuth.tsx:142).
- BiometricAuth.Dialog.HandleKeypadPress: requires the keypad to be shown, access not yet granted, and the key to be one of its twelve buttons, since only those buttons call it.
- HeroSlider.Slider.GoToSlide: requires an index of one of the five dots, since only the dots call it.
- DreamBottomNav.Nav.HandleFabLongPressStart: requires a fresh positive handle, as the browser's `setTimeout` returns.
- NativeCapabilities.BiometricAuthHook.CompleteAuthenticate: requires the state `BeginAuthenticate` leaves, because it is the rest of the same call.
- The WebAuthn request (`navigator.credentials.create` and its options) and the `PublicKeyCredential` probe are foreign calls; only their outcome is an input. `isNativeApp` is the boolean `hasCapacitor`.
- The QR scanner, quick actions, `moduleAuth.ts`, error boundary, skeletons, module page, headers, footers, page wiring and the Capacitor and Vite configuration are not part of this model: they are camera I/O, thin wrappers or markup.

## Findings

| source | as written | input that shows it | evidently intended | confidence | as-written member | corrected member |
|---|---|---|---|---|---|---|
| src/services/wifiPrinter.ts:68-71 | each field row is a 10-character caption, a 28-character cell and the closing border: 39 columns. The frame rows at lines 64-67 and 72-74 are 40 columns, so the right border of every field row is one column left of the frame's. | any item whose fields fit the cell, e.g. the panel's `INV-2025-001` / `Projector Epson EB-X51` / `R. Meeting Lt.2` / `Baik` | 29-column cells, so every row closes on the frame's border | medium, not executed | WifiPrinter.LabelFieldRowsOneShort | WifiPrinter.AlignedLabelRowsFitFrame |

The printer panel keeps the label as written: `PrinterPanel.Panel.PrintLabel` sends `WifiPrinter.GenerateInventoryLabel`. The corrected label is `WifiPrinter.GenerateAlignedInventoryLabel`.
