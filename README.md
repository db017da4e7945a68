# Brave for iOS: startup state (BraveApp)

A Dafny model of the three pieces of logic in `BraveApp` that keep state across
the app's start-up:

- **Boot integrity and tab restore.** At the end of launch the app reads whether the
  boot-incomplete marker (`kAppBootingIncompleteFlag`) is still in the preference store.
  If it is, the previous run died inside its boot window, and tabs must not be restored.
  The app then writes the marker and schedules its removal 10 seconds later.
  Test-harness launch arguments may then clear the store, mark the onboarding
  dialogs seen, or force "do not restore". `shouldRestoreTabs` hands out the answer
  once and resets it to true.
- **Shield reconciliation.** When the per-domain shield settings finish loading, the
  selected tab's shield state is replaced by the stored record for its host, and the
  page is reloaded from origin. This happens only when the tab's state is still unset
  and a record exists for its host.
- **Daily-active-user report.** `updateDauStat` compares the stored `dau_stat` triple
  `[epoch seconds, month, year]` with the clock. It decides whether to report and
  which of `daily`, `weekly` and `monthly` hold. It builds the report URL, stores the
  new triple and sends one report.

Files:

- `wrappers.dfy` has `Option`.
- `prefs.dfy` has the preference store: a `map<string, PrefValue>`, where a value is a
  string, an int, an int array, another kind of array, or something else.
- `launch.dfy` has the launch arguments and the store after the launch step, as a function.
- `startup.dfy` has the class `BraveApp`. It holds the store, `isSafeToRestoreTabs`, the
  pending marker removals, and the reports and telemetry actions emitted.
- `shields.dfy` has tabs and the reconciliation.
- `dau.dfy` has the usage-report decision, its URL, and a decoder for that URL.
- `query.dfy` has the `key=value&…` join and split, with its round trip.

Where a natural reading of the names and the code differ, the model follows the code:

- `first=` is the literal of `dauStat != nil`. A report sent with nothing stored says
  `first=false`. A report sent over any stored array says `first=true`. Reading `first` as
  "this is the first report" would give the opposite value (`Dau.NothingStoredScenario`).
- The marker is read before it is written, in the same step.
- Only a string stored under the marker key counts as "present". This is because the
  read is `stringForKey(…) == nil`.
- A stored `dau_stat` that is an array but not an int triple is treated like an absent
  one. The report then carries no cadence flags. Its `first` is still `true`, because
  `arrayForKey` succeeded.

## Model

| member | source | states |
|---|---|---|
| Startup.BraveApp.constructor | brave/src/BraveApp.swift:37 | a new process starts with `isSafeToRestoreTabs` true, no timers pending and nothing sent |
| Startup.BraveApp.WillFinishLaunchingEnd | brave/src/BraveApp.swift:114-152 | the restore answer is true iff no string marker was stored before the step and neither `BRAVE-UI-TEST` nor non-UI testing forces it false; the store becomes `LaunchPrefs` of the old store; one marker removal is scheduled; the UI-test flag is set to `!IsRunningTestNonUI` in test runs |
| Startup.BraveApp.TimerFires | brave/src/BraveApp.swift:118-121 | the scheduled action removes exactly the marker key; every other key and value is unchanged |
| Startup.BraveApp.ShouldRestoreTabs | brave/src/BraveApp.swift:186-190 | returns the value held before the call and leaves the field true |
| Startup.RestoreAnswers | brave/src/BraveApp.swift:186-190 | after a launch step, the first `shouldRestoreTabs` gives the launch's answer (no marker and no test override) and the second always gives true |
| Startup.NextLaunchRestores | brave/src/BraveApp.swift:115-121 | unless the store is cleared by argument, the next launch may restore tabs exactly when this launch's removal timer ran before the process ended |
| Startup.BraveApp.ShouldHandleOpenURL | brave/src/BraveApp.swift:206-213 | handled iff the scheme is `brave` or `brave-x-callback`; the telemetry action is recorded iff handled |
| Startup.BraveApp.UpdateDauStat | brave/src/BraveApp.swift:250-295 | when the evaluation skips, store and sent reports are unchanged; otherwise `dau_stat` is overwritten with the new triple and exactly one URL is sent, with no rollback |
| Startup.DauTwiceAtOnce | brave/src/BraveApp.swift:266-282 | two evaluations at the same instant send at most one report, and one exactly when the first evaluation reports |
| Launch.BootFlagAfterLaunch | brave/src/BraveApp.swift:115-127 | after the launch step the marker is stored (as a string) iff `BRAVE-TEST-CLEAR-PREFS` is absent |
| Launch.OnboardingAfterLaunch | brave/src/BraveApp.swift:125-151 | intro and opt-in keys are both 1 when a test run has exactly one BRAVE argument or is non-UI; otherwise opt-in is removed by `BRAVE-TEST-SHOW-OPT-IN`, intro is set to 1 by `BRAVE-TEST-NO-SHOW-INTRO`; with `BRAVE-TEST-CLEAR-PREFS` opt-in is gone and intro is gone unless `BRAVE-TEST-NO-SHOW-INTRO` sets it; without it a key whose argument is absent keeps its presence and value |
| Launch.LaunchPrefs | brave/src/BraveApp.swift:116-151 | the launch step adds no key other than the marker, the intro key and the opt-in key |
| Launch.MarkBooting | brave/src/BraveApp.swift:116 | the marker key gains a string value; every other key keeps its presence and value |
| Launch.ApplyTestArgs | brave/src/BraveApp.swift:125-133 | clearing leaves at most the intro key, and none without `BRAVE-TEST-NO-SHOW-INTRO`; `BRAVE-TEST-NO-SHOW-INTRO` sets intro to 1; `BRAVE-TEST-SHOW-OPT-IN` removes opt-in; without clearing, every key no argument names keeps its presence and value |
| Launch.ApplyTestRun | brave/src/BraveApp.swift:143-151 | when onboarding is skipped both keys become 1 and every other key is unchanged; otherwise the store is unchanged |
| Launch.SkipsOnboarding | brave/src/BraveApp.swift:143-148 | skipping onboarding happens only in runs forced unsafe, and outside non-UI tests only when `BRAVE-UI-TEST` is the sole BRAVE-prefixed argument |
| Launch.CountBraveArgs | brave/src/BraveApp.swift:148 | the count is at most the number of arguments, and zero iff no argument starts with `BRAVE` |
| Launch.OtherKeysAfterLaunch | brave/src/BraveApp.swift:125-127 | every other key is gone when the store is cleared and otherwise keeps its presence and value |
| Launch.SoleBraveArg | brave/src/BraveApp.swift:148 | a count of exactly one BRAVE-prefixed argument means every BRAVE-prefixed argument is that one (the "only contains 1 arg" reading) |
| Shields.Replacement | brave/src/BraveApp.swift:172-177 | a replacement exists iff the state is unset, the host is known and the domain map has a record for it; the replacement is that record |
| Shields.OnShieldsLoaded | brave/src/BraveApp.swift:170-179 | with no selected tab nothing happens; otherwise the state becomes the record followed by exactly one reload (mutate, then reload), or state and events are unchanged |
| Shields.ReplacementSettles | brave/src/BraveApp.swift:172-177 | after a replacement by a set record, another pass replaces nothing |
| Shields.ReconcileNewTab | brave/src/BraveApp.swift:172-177 | one pass reloads at most once, once exactly when the state was unset and a record exists, and leaves the state as the record or as it was |
| Shields.ReloadsAppend | brave/src/BraveApp.swift:176 | reloads in a concatenated event log add up |
| Dau.CadenceSince | brave/src/BraveApp.swift:267-274 | `weekly` implies `daily` |
| Dau.DueSince | brave/src/BraveApp.swift:266-275 | for a stored triple, a report is due iff at least a day has passed or the month or year changed; the weekly flag never decides it |
| Dau.EvaluateDau | brave/src/BraveApp.swift:281-282 | whenever a report is sent the stored triple is `[now, month, year]` |
| Dau.SkipsExactlyWhenNotDue | brave/src/BraveApp.swift:266-277 | nothing is sent or stored iff the stored value is an int array of length 3, less than 86400 seconds have passed, and month and year are unchanged |
| Dau.SentReportDecodes | brave/src/BraveApp.swift:257-279 | a sent URL decodes to the channel and version given; `first` iff an array was stored; flags present iff a well-formed triple was stored, `daily` iff elapsed ≥ 86400, `weekly` iff elapsed ≥ 604800, `monthly` iff month or year differ, and one of them holds |
| Dau.NoSecondReportWithinADay | brave/src/BraveApp.swift:266-277 | after a report, an evaluation less than a day later in the same month and year sends nothing |
| Dau.BaseConcatenation | brave/src/BraveApp.swift:257-259 | the literal concatenation of the four base pieces is the endpoint, `?`, and `platform, channel, version, first` joined by `&` |
| Dau.BaseUrl | brave/src/BraveApp.swift:257-259 | the base query string is the endpoint, `?`, and the base parameters joined by `&` |
| Dau.CadenceSuffix | brave/src/BraveApp.swift:278 | the appended cadence text is `&daily=…&weekly=…&monthly=…`, each parameter preceded by `&` |
| Dau.ReportUrl | brave/src/BraveApp.swift:257-278 | the whole URL is the endpoint, `?`, and the parameters `platform, channel, version, first[, daily, weekly, monthly]` joined by `&` |
| Dau.StoredTriple | brave/src/BraveApp.swift:266 | a triple is read iff an int array of exactly three elements is stored, and it is that array |
| Dau.DecodeEncode | brave/src/BraveApp.swift:257-278 | every report URL decodes back to the report it was built from when the version has no `&` |
| Dau.DailyOnlyScenario | brave/src/BraveApp.swift:266-282 | a stored January 2024 triple evaluated 90000 s later in the same month gives `daily=true, weekly=false, monthly=false` and stores the new time |
| Dau.MonthBoundaryScenario | brave/src/BraveApp.swift:266-282 | December 2024 to January 2025 in under a day gives a report with only `monthly=true` |
| Dau.NothingStoredScenario | brave/src/BraveApp.swift:259 | with nothing stored a report without cadence flags is sent, saying `first=false` |
| Query.ParseJoin | brave/src/BraveApp.swift:257-259 | splitting joined parameters at `&` and `=` gives back the same parameters in order |
| Query.TailAppend | brave/src/BraveApp.swift:278 | appending parameters piecewise equals appending them at once |

## Left out

- Fabric, Crashlytics and Mixpanel setup: foreign SDK calls.
- Notification-centre registration, `memoryWarning`, `setupCacheDefaults`, URL-protocol and logger setup: OS plumbing with no stated behaviour.
- Orientation queries, status-bar height and the error alert: UI.
- `is3rdPartyPasswordManagerInstalled`: a background lookup into a foreign extension API.
- The `LOCALE=RU` argument, the ad-block, safe-browsing, tracking-protection and HTTPS-everywhere list loaders, private-browsing, cookie and password-button startup, and `BRAVE-DELETE-BOOKMARKS`: external singletons and asynchronous I/O.
- `dispatch_after` and `postAsyncToMain`: the 10-second delay and the hops to the main queue become explicit calls: `TimerFires` for the marker removal, `OnShieldsLoaded` for the shield continuation, and `UpdateDauStat` for the delayed report in `willEnterForeground`. The foreground trigger itself (`willEnterForeground`) is not modelled.
- Startup.BraveApp.TimerFires: requires a pending timer, since a removal runs only after it has been scheduled.
- `NSDate` and `NSCalendar`: the epoch seconds (already truncated to a whole number), month and year are inputs (`Dau.Clock`).
- Startup.BraveApp.UpdateDauStat: records every built URL as sent. The `NSURL(string:)` failure path is not modelled: there the triple is stored and nothing is sent. The transport and its error logging are not modelled either.
- Swift's 64-bit `Int`: elapsed seconds are unbounded integers, so the overflow trap on absurd stored times is not modelled.
- A missing profile (`getPrefs()` returning nil): the store is always present, as the comment on `willFinishLaunching_end` says it is at that point.
- `normalizedHost()`, the web view and its URL: the selected tab carries its host as `Option<string>`. None stands for any missing link in that chain.
- `BraveShieldState`'s inner structure is not part of this model: a state is unset or a map of per-shield overrides.
- The string values of `IntroViewControllerSeenProfileKey` and `BraveUX.PrefKeyOptInDialogWasSeen` are defined outside this file. The model uses distinct stand-in keys.
- The initial value of `AppConstants.IsRunningUITest` is taken as false.
- The key prefixing done inside the profile's store is not modelled: `clearAll` empties the whole map.
