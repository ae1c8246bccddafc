# Verified model of the EZiL shell, native helper and planning tools

Seven parts of the repository, modelled in Dafny 4.11 and proved. Each part has a model of what the code does, branch by
branch and with its constants, and theorems over every run or every input. Where the source updates state in place, a
class or a loop in the same form is proved equal to the functions that the theorems are about.

- **The wake loop** (`WakeLoop`, `WakeLoopBounds`, `WakeLoopSafety`, `WakeLoopClocks`, `WakeLoopPromise`,
  `WakeRegistries`, `WakeCancels`, `WakeLoopRun`). One call asks a server to open a computer under five overlapping
  clocks, with an ask cap that answers raise, lower and re-anchor. Each await is one step whose answer, progress read,
  clock value and abort are chosen by an adversary. The loop is proved to stop without any appeal to the clock; the
  bound on its asks is shown to be attained; and every decision it makes is told from its log alone.
- **The address bar** (`AppHistory`, `AppHistoryOrder`, `AppHistoryEntries`, `AppHistoryParams`, `AppHistoryWrites`,
  `AppHistoryFailures`, `AddressBar`). Clicks, Back/Forward, focus, close and boot launches take numbers, own the
  current history entry, and end in any order; failed launches wait and give the entry back in a chain. The model also
  remembers every number that took the entry and every number given back, which the source does not keep, so that
  ownership can be compared with what happened.
- **The surface protocol** (`Surfaces`, `SurfaceProtocol`, `SurfaceLeases`, `SurfaceDelivery`, `SurfaceClient`).
  Renderer windows that lease surface slots, a FIFO channel, and the host's lifecycle table with late completions.
- **The native helper** (`NativeHelper`, `NativeScopes`, `NativeRequests`, `NativeCapabilities`, `NativeIntegrity`,
  `NativeGrants`, `NativeRemovals`, `NativeRuntime`). Workspaces, editor heartbeats, preview ports, handoffs, surfaces
  and capabilities, over any interleaving of requests, time and restarts. A request is authenticated in one step and
  handled in a later one, as its body may arrive late.
- **The plan tools** (`Csv`, `Ledger`, `LedgerReadsBack`, `LedgerTwice`, `Waves`, `WaveOrder`, `WavePlan`, `TopoOrder`).
  A CSV reader and printer, the reconcile step, two Kahn-style schedulers and the ownership check.
- **App links** (`Paths`, `FolderPath`, `FolderRules`, `Percent`, `PercentRules`, `AppLink`, `AppLinkRules`,
  `AppLinkRoundTrip`). A parser, a printer and a canonicaliser for `/app/<id>` links, percent-encoding over UTF-8
  included, and a lexical folder normaliser. The modules called rules say of each part exactly what it accepts, refuses
  and writes, with the source's own characters and limits.
- **Desktop preferences** (`Preferences`, `PreferenceRules`, `PreferenceRuns`, `PreferenceQueue`, `PreferenceSaver`). A
  normaliser and a three-way merge, saved by any number of renderers with reads and writes that fail.

The public methods of the classes `AddressBar.Controller`, `SurfaceClient.Surface`, `NativeRuntime.Runtime` and
`PreferenceSaver.DesktopSaver` each promise to be one step of the machine that the theorems are about, and those of the
controller and the runtime to keep its whole invariant, which is their `Valid()`; the table lists only those that loop
or recurse, and what holds of the objects between calls. `Options` holds the option and result types. `dafny verify
dfyconfig.toml` checks everything.

Some promises turned out to hold only under a condition; the code is modelled as it is, and the condition is proved
exact:

- An ordinary wake ends by 395 s (comment at `shell/ezil/session.js:267-269`). The deadline is looked at only when a
  starting answer arrives, so the promise is about the requests that follow one. Over all the runs a real call can make,
  no request follows a starting answer of 395 s or later if and only if no preparing answer came, or the first came
  within 215 s, or at ten minutes or later, when it ends the wake (`WakeLoopPromise.PromiseHoldsExactly`; a run is built
  for every other moment). When any wake gives up, migrating, launching and moving ones included, is
  `WakeLoopClocks.AnswerDecides`. The one retry after a plain failure looks at no clock:
  `WakeLoopPromise.RetryIsOutsideEveryClock` has it leave at 401.5 s.
- A click that fails gets the previous URL and state back (`docs/APP-ROUTES.md:175`). One that pushed an entry does. One
  that rewrote the entry in place leaves its own state there, and gets the URL back exactly when it was spelled alike
  (`AppHistoryWrites.ClickThenFailure`, `AppHistoryWrites.RewrittenUrlStays`). Over a whole stretch of clicks that all
  fail, `AppHistoryFailures.AllFailedIsAsIfNothingHappened` says which URL and state are left, and
  `AppHistoryFailures.AllFailedPutsTheEntryBack` exactly when those are the previous ones.
- If every click fails, the tab is as if nothing had happened, unless something else took the entry. A boot launch
  numbered meanwhile takes nothing, yet a click under it never gives its entry back
  (`AppHistoryFailures.RouteStrandsAFailure`); exactly when it does is `AppHistoryFailures.RouteNumberedMeanwhile`.
- A failed click gives an app's parameters back only while no later launch has set them
  (`shell/ezil/app-history.js:545`). So of two clicks on one app that fail in the order they began the first one's
  parameters stay behind (`AppHistoryParams.FirstFailureLingers`).
- A reconciled plan reads back as the plan with its rows folded exactly when its header needs no quotes, for it is
  printed without any, and no cell holds a lone carriage return (`LedgerReadsBack.ReconciledReadsBack`). Which texts
  reconciling leaves alone is stated for every text (`LedgerTwice.FixedTexts`), and with it when the second pass changes
  nothing (`LedgerTwice.ReconcileTwice`, `LedgerTwice.LoneReturnIsLost`). The command checks only the first seventeen
  column names (`tools/waves.ts:135-150`), so a further one can hold a quote or a newline: in the header's first line a
  quote always changes the second pass (`LedgerTwice.OddHeaderIsNeverLeft`), a newline need not
  (`LedgerTwice.NewlineHeaderCanStay`).
- The backlog's order does not depend on how the input is arranged; which of several repeated ids or dangling
  prerequisites is reported does (`TopoOrder.InputOrderDoesNotMatter`, `TopoOrder.ReportDependsOnArrangement`).
- The canonical URL of a location parses to what the location did, unless it is a settings link in the older spelling
  that names an unknown tab beside a known `tab` (`AppLinkRoundTrip.CanonicalKeepsTheLink`,
  `AppLinkRoundTrip.TabCanSurface`).

## Model

| member | source | states |
|---|---|---|
| `WakeLoopBounds.StepMakesProgress` | shell/ezil/session.js:507-724 | every step of the loop, whatever it is answered, read or told of the time, uses up a measure built from the remaining asks, reads and one-shot clock starts, and never raises the highest cap still reachable |
| `WakeLoopBounds.EveryRunStops` | shell/ezil/session.js:483-725 | every call ends after at most 16505 steps, 2402 asks and 522 progress reads, for all answers, reads, clock values and aborts |
| `WakeLoopBounds.AskCeilingIsAttained` | shell/ezil/session.js:240-284 | 2402 is exact: some environment gets that many asks out of one call |
| `WakeLoopSafety.AsksAreJustified` | shell/ezil/session.js:551-629 | in every run, no request follows a success or a move that needs attention; one after a moving answer comes right after a read that said to ask; at most one follows a plain failure, and only a retryable one |
| `WakeLoopSafety.TrafficIsBounded` | shell/ezil/session.js:507-518 | the requests and reads actually sent by one call are at most 2402 and 522 |
| `WakeLoopSafety.AbortedLoopSendsNothing` | shell/ezil/session.js:507-518 | once its signal is aborted a loop sends nothing more and returns within three steps |
| `WakeLoopClocks.AnswerDecides` | shell/ezil/session.js:551-722 | in every run, from the log alone: a starting answer leads on exactly before the moment the loop gives up, set by the latest of the first migrating answer plus 600 s, the first not migrating after it plus 215 s and the first after a move plus 215 s, and raised by the first launching answer since plus 600 s and the first preparing one; a plain failure leads on exactly if it is the first and of three kinds; a moving answer to the wait for the move; any other is handed back |
| `WakeLoopClocks.AsksExactly` | shell/ezil/session.js:507-518 | in every run, the loop asks again exactly while fewer answers came than the cap the log tells: 40, 146, or the answers before the same resets and rises plus 146, 402, 122 or 522 |
| `WakeLoopClocks.MoveDecides` | shell/ezil/session.js:578-629 | in every run, the wait for a move goes on exactly before the first moving answer plus 15 600 s and for 522 reads, and each read leads where it says, with the last answer heard handed back |
| `WakeLoopClocks.FirstAnswer` | shell/ezil/session.js:495-518 | the loop starts from the answer its caller holds, without a request, exactly when that is a moving one |
| `WakeLoopClocks.GivesUpPlainly` | shell/ezil/session.js:619-646 | with no launch or preparation since the last move, the one answer that sets the moment: none, the first migrating one, the first not migrating after it, or the first after a move |
| `WakeLoopClocks.LaunchIsGranted` | shell/ezil/session.js:647-656 | a launch that nothing set back keeps the wake going for ten minutes after its first answer, whatever else it heard |
| `WakeLoopClocks.MigratingWakeWaits` | shell/ezil/session.js:630-638 | of any two migrating answers, the second leads on exactly if it comes within ten minutes of the first |
| `WakeLoopPromise.OrdinaryWakeGivesUp` | shell/ezil/session.js:254-271 | in every run without migration, launch or move: a request follows a starting answer only if that one came before the moment the wake gives up, a wake that ends with a starting answer heard it then or later, that moment is within 395 s if and only if no preparing answer came or the first came within 215 s, and always within ten minutes |
| `WakeLoopPromise.PromiseHoldsExactly` | shell/ezil/session.js:254-271 | of all the runs a real call can make whose first preparing answer comes at a given time, every request that follows a starting answer follows one from before 395 s, if and only if that time is none, within 215 s, or ten minutes or later |
| `WakeLoopPromise.LatePreparingBreaksThePromise` | shell/ezil/session.js:254-271 | for every time in between, a run with punctual answers and pauses that asks again after a starting answer of 395 s or later |
| `WakeLoopPromise.RetryIsOutsideEveryClock` | shell/ezil/session.js:700-722 | the retry after a plain failure can leave after 395 s without any preparing answer |
| `WakeLoopPromise.OrdinaryWakeEnds` | shell/ezil/session.js:483-725 | with punctual answers and pauses, the last request of an ordinary wake, retry included, leaves within 218 s of the moment it gives up, and the last answer is there within 433 s of it |
| `WakeRegistries.RegistriesAlwaysExact` | shell/ezil/session.js:288-321 | with any number of concurrent loops, cancelled by kind, by computer, all but one computer, or through a caller's own signal, each shared registry names exactly the unfinished loops whose own log says so, with their computer and owner; a loop that returned is in none |
| `WakeRegistries.MovingQueryIsExact` | shell/ezil/session.js:318-321 | a window that asks, of any loop or of its own, is told of a move exactly when the last answer of an unfinished such loop said so |
| `WakeRegistries.CancelledOpensStaySilent` | shell/ezil/session.js:783-862 | after any of the three cancellations (a computer's desktop opens, all its opens, all but one computer's) none of the loops it reached sends anything again, whatever happens later |
| `WakeRegistries.AbortedCallersStaySilent` | shell/ezil/session.js:507-518 | after a caller's own signal is aborted, no loop it started, or starts later, sends anything again |
| `WakeCancels.CancelsExactly` | shell/ezil/session.js:796-862 | in every run a cancellation aborts exactly the loops in flight opened for a desktop of its computer, for anything on its computer, or for anything but the computer to keep |
| `WakeCancels.AdvancesExactly` | shell/ezil/session.js:796-812 | in every run a loop in flight advances as aborted exactly when a cancellation reached it or its caller's own signal was ever aborted, and no other loop moves with it |
| `WakeLoopRun.WaitForMove` | shell/ezil/session.js:578-629 | the inner read loop ends where the state machine ends, with its verdict, its reads and nothing else changed |
| `WakeLoopRun.WithWakeAndOneRetry` | shell/ezil/session.js:483-725 | the two nested loops over local variables and shared maps terminate, end where the state machine ends, so that what `WakeLoopClocks` tells of each step holds of them, ask at most 2402 times and leave the registries as they found them |
| `AppHistoryOrder.DoKeepsSound` | shell/ezil/app-history.js:206-252 | every intent, in any order, keeps the owner the newest taker not given back, and each pending or failed launch linked to what it found; what the intents write is in `AppHistoryEntries` |
| `AppHistoryOrder.HeldIffNothingNewerTookIt` | shell/ezil/app-history.js:206-223 | a pending or waiting click holds the entry if and only if every later intent that took it has given it back |
| `AppHistoryOrder.RouteHeldIffNothingNewerTookIt` | shell/ezil/app-history.js:239-243 | the same for a numbered route launch |
| `AppHistoryOrder.OwnershipInEveryRun` | shell/ezil/app-history.js:206-252 | both hold at every moment of every run of intents from a tab's first entry |
| `AppHistoryEntries.FocusNames` | shell/ezil/app-history.js:341-357 | in any reachable tab, a focus names its app with the parameters on record for it and its window's view, and takes the entry, exactly when the tab writes, no click is pending, the app is known and not named, and the window is neither closing nor settling under an older launch; otherwise nothing changes |
| `AppHistoryEntries.CloseNames` | shell/ezil/app-history.js:374-387 | a close forgets the parameters of an app left without a window; if the entry does not name the app in front it comes to, and the close of an own app takes it |
| `AppHistoryEntries.TraversalKeepsTheUrl` | shell/ezil/app-history.js:310-339 | Back/Forward keeps the URL it lands on, records its query for that app and refreshes the view of an open window only |
| `AppHistoryEntries.FolderKeepsItsSpelling` | shell/ezil/app-history.js:402-415 | a reported folder leaves the reported spelling, in a new entry or in place, exactly when Code is open, named and no click pending |
| `AppHistoryEntries.ViewIsWritten` | shell/ezil/app-history.js:389-393 | a view of the app the entry names is written beside the URL, which stays |
| `AppHistoryEntries.ClickNames` | shell/ezil/app-history.js:552-574 | a click names its app with the parameters given or on record: pushed, rewritten in place, or not at all, and keeps for its end what it found |
| `AppHistoryEntries.OpenedNames` | shell/ezil/app-history.js:590-601 | a launch that opened names its app exactly while its window is there, it is the newest launch and another app is named |
| `AppHistoryEntries.FailedPutsBack` | shell/ezil/app-history.js:571-608 | a failed click gives back its parameters if nothing set them since; if it holds the entry and is the newest launch, the entry is what the first pushed of the launches given back had found, its view refreshed; otherwise no entry changes |
| `AppHistoryEntries.CommitNames` | shell/ezil/app-history.js:638-646 | a commit that holds the entry leaves its own app there, the URL kept if it names that app with the same parameters |
| `AppHistoryEntries.AdoptNames` | shell/ezil/app-history.js:466-478 | an adopted link records its parameters and, if it holds the entry, leaves its canonical spelling, or on a host without app paths what is left of the query |
| `AppHistoryEntries.SyncNames` | shell/ezil/app-history.js:513-518 | after a rebuild only open apps keep parameters and the entry names the app in front |
| `AppHistoryEntries.OnlyTheCurrentEntryChanges` | shell/ezil/app-history.js:206-223 | no intent changes any entry but the current one, the one it lands on, or the one it adds, and which of them is told by the intent |
| `AppHistoryEntries.WindowsAndHolds` | shell/ezil/app-history.js:244-252 | only a launch that ends with a window marks it, with the newer of two numbers, only `settled` clears the mark, and only clicks hold focuses off |
| `AppHistoryParams.ParamsGoBackExactly` | shell/ezil/app-history.js:557-605 | after any run in which no other click on its app failed, a failed click gives the app's parameters back to what they were before it exactly if no intent since set or dropped them; which intents do is told by their own fields |
| `AppHistoryParams.FirstFailureLingers` | shell/ezil/app-history.js:590-608 | from any reachable tab, two clicks on one app that fail in the order they began leave the parameters the first one gave |
| `AppHistoryWrites.CommitNeverOverwritesALaterIntent` | shell/ezil/app-history.js:638-646 | a route launch that changes the entry does so only if nothing newer holds it |
| `AppHistoryWrites.AdoptNeverOverwritesALaterIntent` | shell/ezil/app-history.js:466-478 | the boot's canonical spelling never goes over a later Back/Forward, close, focus or click |
| `AppHistoryWrites.FailureNeverOverwritesALaterIntent` | shell/ezil/app-history.js:576-608 | a failed click changes the entry only if nothing newer holds it |
| `AppHistoryWrites.ClickThenFailure` | shell/ezil/app-history.js:552-610 | a click that fails at once leaves the owner, the newest launch, the pending count and the parameters as before; the URL is the one before exactly under the stated condition, and the state is that before with its view refreshed, or stated otherwise |
| `AppHistoryWrites.RewrittenUrlStays` | shell/ezil/app-history.js:590-608 | a concrete click that fails and leaves its own URL on the entry |
| `AppHistoryWrites.HoldsCountsPendingClicks` | shell/ezil/app-history.js:341-357 | in every run the hold count is the number of click launches not yet ended |
| `AppHistoryFailures.LastUnfailedClickDecides` | shell/ezil/app-history.js:552-610 | in every run from any reachable tab in which clicks begin, open and fail in any order and whatever else happens neither takes nor renames the entry nor launches anything, the last click that has not failed owns the order, and the entry names its app |
| `AppHistoryFailures.AllFailedIsAsIfNothingHappened` | shell/ezil/app-history.js:571-608 | if every click of such a run fails, in whatever order, the owner, the newest launch and the app the entry names are as before; its URL and state are those last written without a standing push on top |
| `AppHistoryFailures.AllFailedPutsTheEntryBack` | shell/ezil/app-history.js:571-608 | then the URL and the state, the view apart, are as before the run if and only if the last intent that left no push of a standing click on top, failures of the clicks apart, left the entry saying what it said before |
| `AppHistoryFailures.RouteNumberedMeanwhile` | shell/ezil/app-history.js:239-252 | with a boot launch numbered during such a run, the owner from before comes back if and only if, as it was numbered, every click that had taken the entry had given it back |
| `AppHistoryFailures.RouteStrandsAFailure` | shell/ezil/app-history.js:571-608 | a concrete run, a click, a boot launch and the click's failure, that leaves the failed click's entry; the boot gets there on a second mount, when the launch of a billing link threw with a click still opening |
| `AddressBar.Controller.GiveBackEntry` | shell/ezil/app-history.js:576-582 | the chain of give-backs over the `failed` map is the modelled one, and ends |
| `AddressBar.Controller.NameTheFront` | shell/ezil/app-history.js:513-518 | after a rebuild the loop over the apps drops the parameters of those without a window, and the entry names the app in front |
| `AddressBar.Controller.HeldIffNothingNewerTookIt` | shell/ezil/app-history.js:206-223 | at any moment between its calls, the object's record of a pending or waiting click holds the entry if and only if every later intent that took it has given it back |
| `Surfaces.AcceptedInOrder` | native/src/surfaces.ts:86-97 | whatever operations arrive, those accepted on a surface strictly increase in generation and sequence, each generation starts with an open and keeps its kind, and nothing follows a close until a higher generation |
| `Surfaces.CurrentIffLatest` | native/src/surfaces.ts:99-102 | an accepted operation is current exactly until a later one on its surface is accepted |
| `Surfaces.AcceptedExactly` | native/src/surfaces.ts:86-97 | after any stream of operations, one is accepted exactly when it follows everything accepted on its surface and opens its generation or finds it open, and is stale exactly when it does not follow |
| `Surfaces.ReturnedRepliesAreCurrent` | native/src/server.ts:130-142 | after any stream of operations, a completion is returned as it is exactly when nothing later was accepted on its surface, the host says ok for this very operation, and its URL, if any, is valid, of a port from 1024 to 65535 and for a preview of the port last opened; otherwise it is stale exactly when something was, then an invalid result, then an invalid URL |
| `SurfaceProtocol.LiveWindowsNeverCollide` | shell/ezil/native-runtime.js:163-224 | in every run of any windows against the host, nothing sent after a window's first open is refused as stale, and two windows that hold their slot never share a surface |
| `SurfaceProtocol.NextIsNeverStale` | native/src/surfaces.ts:93-94 | at any reachable moment the next delivered operation is later than everything accepted on its surface |
| `SurfaceLeases.BusyExactly` | shell/ezil/native-runtime.js:219-224 | in every run a slot is busy exactly while a window on it has not let go, and a disposed window with nothing more to send or hear of has let go |
| `SurfaceLeases.MountsExactly` | shell/ezil/native-runtime.js:16-23 | in every run a window takes a slot exactly when it is one of its workspace and kind that no window holds, or a new one while every such slot is held, and starts with nothing numbered |
| `SurfaceLeases.NumbersExactly` | shell/ezil/native-runtime.js:164-224 | in every run an open starts its slot's next generation at one, every other operation is one later, and a close is queued exactly for a window that ever opened, as its last |
| `SurfaceLeases.SendsInOrder` | shell/ezil/native-runtime.js:163-176 | a window's operations leave one at a time in the order queued, and a disposed one queues nothing more |
| `SurfaceDelivery.NothingOvertakesItsOpen` | shell/ezil/native-runtime.js:188-203 | with no grant refusals the host turns away nothing sent after the first open: no status, layout or close arrives before the open of its generation |
| `SurfaceDelivery.HostRunsTheLifecycle` | native/src/surfaces.ts:86-97 | in every run of windows against the host, the table is that of the operations that reached it, so what any stream keeps holds there too |
| `SurfaceClient.SurfaceSlots.FirstFree` | shell/ezil/native-runtime.js:20 | the search returns the first slot that is not busy, or none only if all are |
| `SurfaceClient.SurfaceSlots.Lease` | shell/ezil/native-runtime.js:16-23 | a free slot of that workspace and kind, or a new one only if all are busy; the lists keep holding exactly the slots of their workspace and kind |
| `NativeScopes.ForbiddenExactly` | native/src/auth.ts:36-45 | a request is forbidden, and then changes nothing, exactly when a shell or a connector asks what is not listed for its role or of another workspace; listing, creating, renaming and removing are never listed, closing an editor is not listed for a connector |
| `NativeScopes.ScopedStaysWithin` | native/src/auth.ts:36-45 | whatever a shell or a connector asks, no other workspace's editor, ports, surfaces or handoffs change, no other is selected, none appears or goes, and no capability changes |
| `NativeScopes.ShellLeavesPorts` | native/src/auth.ts:40-44 | a shell reports no editor and adds or takes back no port; its workspace's ports go only as its editor is 45 s overdue |
| `NativeScopes.ConnectorOnlyReports` | native/src/auth.ts:44-45 | a connector selects nothing and touches no surface or handoff; its report is taken as it is and never says closed |
| `NativeScopes.EveryScopedRequest` | native/src/auth.ts:36-45 | in every run a request held under a shell's or connector's capability touches its one workspace alone |
| `NativeScopes.OthersCannotTouch` | native/src/auth.ts:36-45 | however long others' shells and connectors ask and time passes, a workspace's editor, ports, surfaces and handoffs stay what they were, and it is not selected |
| `NativeRequests.RemoveDoes` | native/src/server.ts:152-155 | a removal is granted exactly when no handoff is queued, no surface open and the editor closed, and takes the workspace's capabilities, ports and selection with it |
| `NativeRequests.RegisterDoes` | native/src/server.ts:161-170 | a port is held from then on exactly if it is not the helper's own, the editor is active now, and fewer than sixteen others are held; each refusal has its condition |
| `NativeRequests.ReportDoes` | native/src/server.ts:156-160 | a report is the editor's state; an active one is heard now and keeps its ports, any other loses them |
| `NativeRequests.UnregisterDoes` | native/src/server.ts:161-170 | a port taken back is held no longer; only the helper's own cannot be |
| `NativeRequests.SelectDoes` | native/src/server.ts:151 | a selection selects its workspace and does nothing else |
| `NativeRequests.CreateDoes` | native/src/server.ts:149 | a new workspace starts closed, unless there are a hundred, and is selected exactly if none was |
| `NativeRequests.LaunchDoes` | native/src/server.ts:171-177 | a launch queues one handoff with the ports held now unless sixteen are queued, and a closed editor asked for Code is unknown either way |
| `NativeRequests.SurfaceDoes` | native/src/server.ts:122-129 | a surface operation is judged exactly when a preview's wanted port is held now |
| `NativeRequests.AsksAreTold` | native/src/server.ts:146-150 | who asks is told the editor and the ports of the workspace as they are now |
| `NativeRequests.ChangesAreTold` | native/src/server.ts:148-170 | the admin is told every editor as it is now, a report its state, and a change of a port the port |
| `NativeCapabilities.EveryCapabilityIsRightful` | native/src/auth.ts:20-34 | in every run each capability is the admin's or was made for a workspace that existed, to last five minutes for a shell and fifteen for a connector, and each request is held under one whose time had not run out when it was authenticated |
| `NativeCapabilities.MintDoes` | native/src/auth.ts:16-28 | a capability is made exactly for a workspace that exists, unless 256 others are still in time; exactly the expired ones go first |
| `NativeCapabilities.AuthenticateDoes` | native/src/auth.ts:29-35 | a request is held under its token's capability exactly when there is one still in time |
| `NativeCapabilities.RestartDoes` | native/src/workspaces.ts:93 | a restart keeps the workspaces and the admin's capability alone, and no editor is active after it |
| `NativeCapabilities.HandoffsDo` | native/src/handoff.ts:22-36 | taking delivers every handoff and loses none; one is acknowledged exactly after it was delivered, and is then gone |
| `NativeIntegrity.HelperStaysWhole` | native/src/server.ts:79-177 | over all interleavings and restarts, the selection, handoffs, unclosed surfaces, heard editors, port sets and scoped capabilities name existing workspaces; at most 100 workspaces, 16 handoffs, 256 capabilities, 16 ports each; only active editors hold ports; who may change them is in `NativeScopes` |
| `NativeIntegrity.RemoveKeepsWhole` | native/src/server.ts:152-155 | a removal is refused, or takes with it everything that refers to the workspace |
| `NativeGrants.GrantsRestOnBeats` | native/src/server.ts:49-56 | a preview port granted at a moment was registered, not unregistered since, and at every moment between an active beat less than 45 s old stood, with no other report, removal or restart after it |
| `NativeGrants.BeatExtends` | native/src/server.ts:156-160 | a beat that begins to arrive before its ports lapse makes them good for 45 s more |
| `NativeGrants.LateBeatRevokes` | native/src/server.ts:121-160 | a beat 45 s late revives the editor without any of the ports it had |
| `NativeGrants.AcceptKeepsEarned` | native/src/server.ts:121-128 | the grant check passes only for ports so earned, on open and on status |
| `NativeRemovals.RemovalAwaitsClosure` | native/src/server.ts:171-177 | between asking for a workspace's Code and removing the workspace, the admin reports its editor closed |
| `NativeRuntime.Handoffs.Take` | native/src/handoff.ts:22-26 | exactly the undelivered requests are handed out, and all are then delivered |
| `NativeRuntime.Authority.Prune` | native/src/auth.ts:16-19 | exactly the capabilities that have expired go |
| `NativeRuntime.Authority.RevokeWorkspace` | native/src/auth.ts:46-49 | exactly the workspace's capabilities go |
| `NativeRuntime.Runtime.ListAll` | native/src/server.ts:148 | the loop over the workspaces refreshes each editor: every overdue active one is unknown and without ports |
| `NativeRuntime.Runtime.HistoryIsRight` | native/src/server.ts:49-177 | at any moment between the calls to the object, each grant in its history rests on beats and each removal waited for a closure |
| `Csv.ReadCsv` | tools/waves.ts:81-125 | the character loop computes the modelled reader |
| `Csv.PrintedReadsBack` | tools/ledger.ts:411-415 | a printed table reads back with the lone carriage returns of its cells gone, and then its blank rows |
| `Csv.RoundTrip` | tools/waves.ts:81-125 | a table reads back as itself if and only if no row is blank and every cell with a carriage return also holds a comma, quote or newline |
| `Csv.PrintIsInjective` | tools/ledger.ts:470-473 | two tables without blank rows print alike only if they are equal |
| `Ledger.LatestPerTask` | tools/ledger.ts:398-409 | for each id, the newest artifact, and of equally new ones the first |
| `Ledger.FoldMovesItsColumnsOnly` | tools/ledger.ts:430-468 | a row takes its artifact's status, run and evidence exactly when its task has an artifact that is done, failed or blocked, the row is not pending and its run is none or the artifact's; otherwise it is unchanged, and every other cell always is |
| `Ledger.PlanMoves` | tools/ledger.ts:444-474 | the same of every row of the reconciled plan, beside the header, which stays |
| `Ledger.ReconcileCsv` | tools/ledger.ts:444-474 | the loop that overwrites cells in place prints the header as it was and then the rows so changed, and computes the modelled reconcile |
| `LedgerReadsBack.ReconciledReadsBack` | tools/ledger.ts:444-474 | for every text and every header, reading the output gives the input plan with its rows folded if and only if the header needs no quotes and every cell is faithful |
| `LedgerReadsBack.ReadsBackIsClosed` | tools/waves.ts:81-125 | a printed plan that reads back as itself never ends inside an open quote, whatever its unquoted header did |
| `LedgerTwice.FixedTexts` | tools/ledger.ts:444-474 | any text at all is left alone by reconciling if and only if it is a newline, or the print of its own rows: a plain header, and rows folded already that read back as themselves, apart from the evidence of a folded row and a run id that reads back empty |
| `LedgerTwice.ReconcileTwice` | tools/ledger.ts:444-474 | for every text, reconciling the output with the same artifacts changes nothing if and only if the output is such a print; with a header on one line and without quotes, if and only if the header holds no carriage return and every printed cell reads back as itself, apart from those two |
| `LedgerTwice.OddHeaderIsNeverLeft` | tools/ledger.ts:450-451 | a header whose first line holds a quote or a carriage return is never left alone by the second pass |
| `LedgerTwice.NewlineHeaderCanStay` | tools/ledger.ts:450-451 | a concrete plan whose header holds a newline: the output reads as other rows, and yet the second pass leaves it alone |
| `LedgerTwice.LoneReturnIsLost` | tools/ledger.ts:411-415 | a concrete plan on which the second reconcile differs |
| `Waves.ComputeWaves` | tools/waves.ts:198-223 | the shrinking loop returns the modelled layers and what is stuck, as rows |
| `WaveOrder.WavesAreExact` | tools/waves.ts:192-223 | every row is in one wave or left over, never both, and its wave is one above the highest of its dependencies in the plan |
| `WaveOrder.StuckIffLeadsIntoCycle` | tools/waves.ts:192-223 | the rows left over are exactly those from which dependencies lead into a cycle; a walk that repeats a row is built for each |
| `WavePlan.OverlapsIffInside` | tools/waves.ts:225-235 | the string test holds exactly when, segment by segment, one path is a prefix of the other, and is symmetric |
| `WavePlan.Validate` | tools/waves.ts:237-310 | the problems reported are exactly those there are, of each kind |
| `WavePlan.NoProblemsIffDispatchable` | tools/waves.ts:237-310 | no problem is reported exactly when ids are unique, dependencies are rows, no row leads into a cycle, and no two unfinished rows of a wave own overlapping paths |
| `TopoOrder.TopoOrder` | tools/issues.ts:481-527 | the result is the least of all orders that put each prerequisite first; otherwise the first repeated id, the first dangling prerequisite, or the largest set of issues that wait for each other, in which case no order exists |
| `TopoOrder.SucceedsIffOrderExists` | tools/issues.ts:475-527 | it succeeds exactly when ids are unique, prerequisites are present and some order exists |
| `TopoOrder.GreedyIsLeast` | tools/issues.ts:511-520 | always taking the smallest available id gives the lexicographically least order |
| `TopoOrder.InputOrderDoesNotMatter` | tools/issues.ts:475-527 | two arrangements of the same issues, repeats included, give the same order or the same cycle, or are both refused for a repeated id or a dangling prerequisite, each naming its own first |
| `TopoOrder.ReportDependsOnArrangement` | tools/issues.ts:481-495 | a concrete backlog whose two arrangements are refused for different dangling prerequisites |
| `FolderPath.ParseFolder` | shell/ezil/app-link.js:100-126 | the segment loop computes the modelled parser, errors included |
| `FolderPath.ResolveIsFromRight` | shell/ezil/app-link.js:107-120 | for any segments, stack and floor, the loop agrees with resolution from the right, where each `..` removes the nearest name to its left: outside exactly when the segments before the first long one climb past the floor, too long exactly when they do not and there is one |
| `FolderPath.AcceptedExactly` | shell/ezil/app-link.js:100-126 | for every value, exactly which are accepted, what they become, and which are outside, by that other resolution |
| `FolderPath.AcceptedIsNormal` | shell/ezil/app-link.js:88-126 | an accepted folder is absolute, of plain segments, within every limit, and inside `/workspace` when it was relative |
| `FolderPath.NormalFormIsFixed` | shell/ezil/app-link.js:88-126 | a folder in normal form parses to itself |
| `FolderRules.AcceptedFolders` | shell/ezil/app-link.js:100-126 | exactly which values are folders and which folder each is: texts of at most 2048 bytes without control characters or backslashes, of names up to 255 bytes, that never climb above `/`, or above `/workspace` when relative, and of at most 64 names and 2048 bytes when written out |
| `FolderRules.RefusedFolders` | shell/ezil/app-link.js:100-126 | for each other reason exactly the values refused for it, and so which are too long; of two refused characters the first decides |
| `Percent.DecodeEncode` | shell/ezil/app-history.js:46-49 | any text decodes to itself after encoding, over all of Unicode |
| `Percent.PairReadsBack` | shell/ezil/app-history.js:51-55 | a printed pair is read as its key and its value |
| `PercentRules.EncodedExactly` | shell/ezil/app-history.js:46-49 | a character is left as it is exactly when it is a letter, a digit or one of ten listed marks; any other becomes one escape in capitals for each of its bytes |
| `PercentRules.EncodedInParts` | shell/ezil/app-history.js:46-49 | a text is encoded character by character |
| `PercentRules.Utf8Spells` | shell/ezil/app-history.js:46-49 | every character is written as its number's bytes in UTF-8, the fewest that hold it |
| `PercentRules.DecodedExactly` | shell/ezil/app-link.js:43-53 | a percent sign with two digits is their byte, a plus is a space, and any other character is its own bytes |
| `PercentRules.SplitsExactly` | shell/ezil/app-link.js:43-53 | any pair is its name and, after the first equals sign, its value; without one it is all name and its value empty |
| `PercentRules.FirstExactly` | shell/ezil/app-link.js:43-53 | the decoder reads the character whose UTF-8 bytes come first, and the replacement character for one byte exactly when no character's do |
| `AppLinkRoundTrip.PrintedLinkParses` | shell/ezil/app-history.js:57-74 | every link without a rejection prints as a location that parses to it |
| `AppLinkRoundTrip.ParsePrintParse` | shell/ezil/app-link.js:187-216 | what any location says, if nothing in it was refused, survives being written and read again |
| `AppLinkRoundTrip.CanonicalSaysTheLink` | shell/ezil/app-history.js:160-176 | whatever query the caller puts in place of the location's own, the canonical spelling parses to the link if and only if that query has no doubled key, says the same to Code and brings no tab to settings without one |
| `AppLinkRoundTrip.CanonicalKeepsTheLink` | shell/ezil/app-history.js:160-176 | the canonical spelling parses to what its location did, if and only if it is not the stated settings link |
| `AppLinkRoundTrip.TabCanSurface` | shell/ezil/app-history.js:160-176 | a concrete location whose canonical spelling opens another tab |
| `AppLinkRoundTrip.ConsumingKeepsTheLink` | shell/ezil/app-history.js:152-158 | dropping one-shot keys that no link reads leaves the meaning of every location alone |
| `AppLinkRules.ValueIsFirst` | shell/ezil/app-link.js:43-53 | a key's value is that of the first pair whose decoded name it is, and the key is ambiguous exactly with a second one |
| `AppLinkRules.LinkExactly` | shell/ezil/app-link.js:187-216 | a location is a link exactly when none of the seven keys is doubled and its path, or its query in the older form, asks for an app that may open, without a conflict; which app, and which of the eight tabs, and that only Code is told more |
| `AppLinkRules.CodeExactly` | shell/ezil/app-link.js:133-163 | Code is told a repository exactly when both ids are canonical, with the path if good, a folder exactly when one is accepted beside no repository, and the first reason of every refusal |
| `AppLinkRules.PathExactly` | shell/ezil/app-link.js:56-72 | a path into a repository is good, or refused for the first of eight stated reasons that holds |
| `AppLinkRules.SpelledExactly` | shell/ezil/app-history.js:57-74 | which pairs a link is written with, and in which order |
| `AppLinkRules.CanonicalExactly` | shell/ezil/app-history.js:169-176 | the canonical spelling keeps every pair byte for byte and in order, but for the keys that select an app, and the tab, which comes first |
| `AppLinkRules.ConsumedExactly` | shell/ezil/app-history.js:153-158 | exactly the pairs of the given keys, and empty ones, are dropped |
| `Preferences.SafeDesktopPreferences` | shell/ezil/native-persistence.js:8-24 | the row loop computes the modelled normaliser |
| `PreferenceRules.SettingsKept` | shell/ezil/native-persistence.js:10-13 | exactly the listed wallpapers and accents, ports from 1024 to 65535 and browsers of 1 to 20 tabs with one of them active are kept, each as it was |
| `PreferenceRules.RowsKept` | shell/ezil/native-persistence.js:14-22 | the rows kept are, in order, the first with an area of each app among the first twenty, each at least 240 by 160, cut to the screen and moved onto it with 64 points kept free |
| `PreferenceRules.MergedOrder` | shell/ezil/native-persistence.js:131-139 | merged rows stand in the host's order without the apps this renderer closed; those the host did not hold follow in the order its layouts first name them |
| `Preferences.SafeIsIdempotent` | shell/ezil/native-persistence.js:8-24 | normalising twice is normalising once on any screen, and every row fits a screen that can hold one |
| `Preferences.ClampedIsWithin` | shell/ezil/native-persistence.js:18-21 | a row lies within the screen if and only if the screen is at least 1 wide and 65 high |
| `Preferences.MergeInto` | shell/ezil/native-persistence.js:128-140 | the loop over apps computes the modelled merge |
| `PreferenceRuns.SaveMovesOnlyChanges` | shell/ezil/native-persistence.js:123-143 | one save gives each key and each app's row its renderer's value if the renderer changed it, and leaves every other as it was |
| `PreferenceRuns.SavedIsLastChange` | shell/ezil/native-persistence.js:116-153 | in every run of any renderers, with failed, refused and lost writes, each key is, up to the normaliser, that of the last write by a renderer whose value differed from the one it had last been told was saved |
| `PreferenceRuns.SkippedIsSaved` | shell/ezil/native-persistence.js:116-153 | a renderer with nothing queued skips a capture only if exactly that desktop was acknowledged as saved, or is the one it opened with |
| `PreferenceQueue.SkippedExactly` | shell/ezil/native-persistence.js:116-122 | in every run, a capture is skipped exactly when the renderer last said the same and no save of it failed since; otherwise it is queued last |
| `PreferenceQueue.QueueDrains` | shell/ezil/native-persistence.js:121-153 | each save settles the head of the queue whatever comes of it; exactly the writes that reached the host are applied, in order, and the last one acknowledged is the base of the next changes |

## Left out

- The error codes of an open are modelled by the classes the wake loop distinguishes, not by their strings; HTTP,
  timeouts inside one ask and telemetry are part of the adversary's answer.
- `WakeLoopRun.WithWakeAndOneRetry`: runs one loop to its end; the interleaving of several is in `WakeRegistries`, whose
  steps are the same.
- The progress read's own query and decoding (`readMoveAsk`): its four outcomes are inputs.
- In the address bar, a URL is the app it names and a spelling of its parameters; how a location is parsed is in
  `AppLink`, and the `computer` page parameter, what `consume` writes to the entry and other libraries' history keys are
  not part of this model.
- Undo of a refused folder switch (`onUndo`): it depends on the browser's Navigation API.
- AppHistoryParams.ParamsGoBackExactly: is about runs in which no other click on the same app has failed; of the others
  only the shortest is told (`AppHistoryParams.FirstFailureLingers`).
- DOM, the window manager and the choice of the window in front: the open windows, their views and the one in front are
  inputs.
- SurfaceClient.Surface.Open: the status polling that follows an open, and its 30 s limit, are not modelled.
- Surface bounds, browser state revisions, shortcuts and snapshots: checks on single values.
- The host adapter's own work: a completion is any result at any later time.
- In the native helper one synchronous section reads one clock value, except that a heartbeat is stamped a little after
  it is checked; both moments are in the event.
- Attached workspaces, the filesystem under a workspace, on-disk validation, a crash between deleting a workspace and
  clearing its selection, pairing codes and token hashing; random ids and tokens are new values.
- Request parsing and HTTP headers; the operations are taken as parsed.
- CSV cells and ids are sequences of characters; JavaScript compares UTF-16 units, which differs only in the order of
  characters outside the basic plane (`TopoOrder.Less`).
- The text of problem messages and backlog errors, the `;` lists and the column checks of `parseTasks`.
- A folder given as a string with a lone surrogate is a separate kind of input, refused as invalid; a query is its raw
  pairs, and a fragment is dropped.
- A query name with a malformed escape is read leniently in one model of decoding; the two decoders of the source agree
  on whether it is one of the known keys.
- Browser tabs in the preferences are checked for their number and active index, not their addresses; coordinates are
  real numbers.
- Hosts without Web Locks: every save is alone under the lock.
