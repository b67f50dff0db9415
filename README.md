# Uninstall pipeline of the Cutefish daemon's AppManager

The daemon exposes one D-Bus method, `uninstall(content)`, on its
`AppManager` object. The call starts a chain of external processes driven by
Qt signal handlers:

1. `dpkg -S <content>` finds the package that owns `content`;
2. if a non-empty name comes back, an "Uninstalling" desktop notification is
   sent and `pkexec apt remove --purge -y <name>` is started and remembered in
   the single slot `m_currentProcess`;
3. if the removal exits normally with code 0, `pkexec apt autoremove -y` is
   started; whatever it returns, a "successful" notification follows;
4. any other outcome, and any process error, sends a "failure" notification.
   Every handler that ends a request after the resolution step clears the
   slot; a failed resolution sends its notification and leaves the slot as
   it was. The destructor explicitly kills the process in the slot, if any.

The model has five modules:

- `Wrappers` (`wrappers.dfy`): `Option`, the nullable slot.
- `Text` (`text.dfy`): the name extraction `split(':').first().trimmed()`.
  It is made of `BeforeFirst`, `Lead`, `TrailFrom` and `Trimmed`, with
  `QChar::isSpace`'s white-space set written out in `IsSpace`.
- `Notifications` (`notifications.dfy`): the argument list of each `Notify`
  call. The fields are named after the parameters of
  `org.freedesktop.Notifications.Notify` in the Desktop Notifications
  Specification: `app_name`, `replaces_id`, `app_icon`, `summary`, `body`,
  `actions`, `hints`, `expire_timeout`.
- `Pipeline` (`pipeline.dfy`): the state machine on values. A `State` holds
  the slot, the next fresh process id and one ordered log of effects. An
  effect is a process launched (id, program, argv), a notification sent, or a
  process killed. There is one function per member of `AppManager`, `Step`
  and `Run` over arbitrary sequences of external events, the invariants
  every reachable state keeps, and the lemmas.
- `Daemon` (`app_manager.dfy`): the class `AppManager`. Its fields are the
  slot, the id counter and the effect log. Each method mirrors one C++ member
  and calls the others as the C++ does. Each is proved to change the object
  exactly as the matching `Pipeline` function says, and the handlers keep
  `Valid()`.

The model keeps the as-written behaviour. The handlers after resolution
report the literal package name `"unknown"`. `dpkg -S` runs even for a bare
package name. A second request overwrites the slot
(`Pipeline.OverlappingRequestsLoseFirstRemoval` shows the first removal
dropping out of the slot). The `dpkg` and autoremove processes are never kept
in the slot.

A few consequences of the code are worth stating on their own:
- The package name is the fourth `Notify` argument, `summary`. The stage
  text ("Uninstalling", ...) is the fifth, `body`.
- An output of `dpkg -S` without any ':' is trimmed as a whole
  (`Text.PackageNameWithoutColon`).
- A cleanup that fails to start or crashes goes through `onProcessError`
  and sends Failure("unknown"). A crash is then followed by `finished`, which
  sends Success("unknown") as well
  (`Pipeline.CrashedCleanupFailsThenSucceeds`).

## Model

| member | source | states |
|---|---|---|
| Text.IsSpace | src/appmanager.cpp:82 | the white space `trimmed()` removes is `QChar::isSpace`'s set; below 128 it is exactly TAB, LF, VT, FF, CR and the space |
| Text.BeforeFirst | src/appmanager.cpp:82 | the first element of `split(sep)` is the longest prefix without `sep`; the character after it, if any, is `sep` |
| Text.Lead | src/appmanager.cpp:82 | the count of leading characters `trimmed()` drops: all of them are white space, and the next character, if any, is not |
| Text.TrailFrom | src/appmanager.cpp:82 | where the trailing white space `trimmed()` drops begins: everything from there is white space, and the character before it, if any, is not |
| Text.Trimmed | src/appmanager.cpp:82 | `trimmed()` keeps the slice after the leading white space; only white space lies outside it and the slice has no white space at either end |
| Text.TrimmedIsTheTrim | src/appmanager.cpp:82 | any slice with that property is exactly what `trimmed()` returns |
| Text.TrimsToUnique | src/appmanager.cpp:82 | at most one slice of a string has the trimming property |
| Text.TrimmedIdempotent | src/appmanager.cpp:82 | trimming twice gives the same result as trimming once |
| Text.ExtractPackageName | src/appmanager.cpp:78-83 | the resolved name has no ':' and no white space at either end, and is no longer than the output |
| Text.PackageNameOfLine | src/appmanager.cpp:80-82 | an output of the form `lead + pkg + trail + ":" + rest` resolves to `pkg`, when `lead` and `trail` are white space and `pkg` has no colon and no white space at its ends |
| Text.PackageNameEmptyIff | src/appmanager.cpp:82-87 | the name is empty if and only if only white space comes before the first ':' |
| Text.PackageNameWithoutColon | src/appmanager.cpp:82 | an output without ':' is trimmed as a whole |
| Text.BeforeFirstOfField | src/appmanager.cpp:82 | cutting `p + sep + rest` before its first `sep` gives back a `sep`-free `p` |
| Notifications.Icon | src/appmanager.cpp:182 | the icon names the kind: "cutefish-installer" exactly for Uninstalling, "dialog-error" exactly for Failure, "process-completed-symbolic" exactly for Success |
| Notifications.StageText | src/appmanager.cpp:184 | the stage text names the kind: "Uninstalling", "Uninstallation failure", "Uninstallation successful", each for exactly one kind |
| Notifications.NotifyPayload | src/appmanager.cpp:179-187 | every payload has app name "cutefish-daemon", replaces-id 0, no actions, no hints and timeout 10; the package name is the summary, and the icon and the text depend only on the kind |
| Notifications.KindOfPayload | src/appmanager.cpp:172-232 | the kind and the package name can be read back from a payload |
| Notifications.PayloadInjective | src/appmanager.cpp:172-232 | two payloads are equal if and only if their kinds and package names are equal |
| Pipeline.UninstallRunsQuery | src/appmanager.cpp:52-69 | a request launches exactly `dpkg` with argv `["-S", content]` under a fresh id; the slot is unchanged and nothing is notified |
| Pipeline.ResolvedName | src/appmanager.cpp:76-83 | the name is non-empty if and only if `dpkg` exited normally with code 0 and printed something other than white space before the first ':'; it is then the extracted name |
| Pipeline.OnPackageNameResolved | src/appmanager.cpp:71-92 | a non-empty name gives the Uninstalling notification, then the purge under a fresh id, which the slot then holds; an empty name gives only Failure("") with the slot unchanged |
| Pipeline.StartUninstall | src/appmanager.cpp:94-107 | the Uninstalling notification, then `pkexec apt remove --purge -y name` under a fresh id; the slot holds it, overwriting what was there |
| Pipeline.OnUninstallFinished | src/appmanager.cpp:109-120 | a normal exit with code 0 only launches `pkexec apt autoremove -y`, keeping the slot and notifying nothing; any other exit sends one Failure("unknown"), empties the slot and launches nothing |
| Pipeline.RunAutoRemove | src/appmanager.cpp:122-133 | the cleanup is launched under a fresh id; it is not a purge and the slot is left alone |
| Pipeline.OnAutoRemoveFinished | src/appmanager.cpp:135-147 | any exit of the cleanup sends one Success("unknown") and empties the slot; it is never a Failure |
| Pipeline.OnProcessError | src/appmanager.cpp:149-161 | a process error at any stage sends one Failure("unknown") and empties the slot |
| Pipeline.CleanupProcess | src/appmanager.cpp:163-169 | only the slot changes, and it ends empty whether or not it was full |
| Pipeline.Destroy | src/appmanager.cpp:44-50 | the explicit `kill()` of the slot's process is recorded when the slot is full; no other effect is recorded |
| Pipeline.ResolutionFailureNotifiesOnly | src/appmanager.cpp:76-91 | an abnormal exit, a non-zero code or a blank name gives exactly one Failure notification with an empty name; nothing is launched and the slot is unchanged |
| Pipeline.ResolutionSuccessStartsPurge | src/appmanager.cpp:78-106 | a normal exit with code 0 and a non-blank name gives the Uninstalling notification for the name, then `pkexec apt remove --purge -y name`; the slot then holds that process |
| Pipeline.DpkgAnswerResolves | src/appmanager.cpp:78-83 | the `dpkg -S` answer "pkg: path" resolves to `pkg` |
| Pipeline.DpkgAnswerStartsPurge | src/appmanager.cpp:71-106 | the `dpkg -S` answer "pkg: path" starts the announced purge of exactly `pkg` |
| Pipeline.CleanupIdempotent | src/appmanager.cpp:145-146 | clearing twice, as the success path does, is the same as clearing once |
| Pipeline.AddedByEvent | src/appmanager.cpp:52-161 | exactly what each event appends to the log: the query launch; Uninstalling and the purge, or Failure(""); the cleanup launch, or Failure("unknown"); Success("unknown"); Failure("unknown") |
| Pipeline.StepExtends | src/appmanager.cpp:52-169 | handlers only append to the effect log and never lower the next id; a process an event launches gets exactly the id that was next |
| Pipeline.AutoRemoveOnlyAfterRemoval | src/appmanager.cpp:109-133 | an event launches the cleanup if and only if it is a normal, zero exit of the removal; a process error never does |
| Pipeline.PurgeOnlyAfterResolution | src/appmanager.cpp:71-106 | an event launches a purge if and only if it is a resolution with a non-empty name |
| Pipeline.InitialValid | src/appmanager.cpp:28-31 | a new manager, with an empty slot, satisfies the invariants |
| Pipeline.StepPreservesValid | src/appmanager.cpp:52-169 | every handler keeps the invariants: ids are fresh, every purge has a non-empty name and follows its Uninstalling notification, and a full slot holds a launched purge |
| Pipeline.RunPreservesValid | src/appmanager.cpp:52-169 | any sequence of events keeps the invariants |
| Pipeline.RunExtends | src/appmanager.cpp:52-169 | the log of a run extends the log it started from |
| Pipeline.NoPurgeWithoutAnnouncedName | src/appmanager.cpp:87-106 | in any run, no purge is launched with an empty name, and each purge comes right after the Uninstalling notification for that name |
| Pipeline.DestroyKillsOnlyPurge | src/appmanager.cpp:44-50 | in any run, the destructor's explicit `kill()` reaches at most one process, a launched purge, never `dpkg` or the cleanup |
| Pipeline.SuccessfulRun | src/appmanager.cpp:52-147 | the full success path: `dpkg -S file`, Uninstalling(pkg), the purge of pkg, the cleanup, Success("unknown"), empty slot |
| Pipeline.OverlappingRequestsLoseFirstRemoval | src/appmanager.cpp:94-98 | two overlapping requests leave only the second removal in the slot; the destructor's explicit `kill()` reaches only that one |
| Pipeline.CrashedCleanupFailsThenSucceeds | src/appmanager.cpp:122-161 | a cleanup that crashes sends Failure("unknown") from `errorOccurred` and then Success("unknown") from `finished`, and the slot ends empty |
| Daemon.AppManager.constructor | src/appmanager.cpp:28-31 | a new manager has an empty slot and an empty log |
| Daemon.AppManager.Destroy | src/appmanager.cpp:44-50 | records the explicit kill of the slot's process when there is one |
| Daemon.AppManager.Uninstall | src/appmanager.cpp:52-56 | moves the state as `Pipeline.Uninstall` and keeps `Valid()` |
| Daemon.AppManager.GetPackageNameFromFile | src/appmanager.cpp:58-69 | launches `dpkg -S filePath` |
| Daemon.AppManager.OnPackageNameResolved | src/appmanager.cpp:71-92 | moves the state as `Pipeline.OnPackageNameResolved` and keeps `Valid()` |
| Daemon.AppManager.StartUninstall | src/appmanager.cpp:94-107 | notifies, launches the purge and overwrites the slot with it |
| Daemon.AppManager.OnUninstallFinished | src/appmanager.cpp:109-120 | moves the state as `Pipeline.OnUninstallFinished` and keeps `Valid()` |
| Daemon.AppManager.RunAutoRemove | src/appmanager.cpp:122-133 | launches `pkexec apt autoremove -y` and does not touch the slot |
| Daemon.AppManager.OnAutoRemoveFinished | src/appmanager.cpp:135-147 | moves the state as `Pipeline.OnAutoRemoveFinished` and keeps `Valid()` |
| Daemon.AppManager.OnProcessError | src/appmanager.cpp:149-161 | moves the state as `Pipeline.OnProcessError` and keeps `Valid()` |
| Daemon.AppManager.CleanupProcess | src/appmanager.cpp:163-169 | empties the slot |
| Daemon.AppManager.NotifyUninstalling | src/appmanager.cpp:172-190 | appends the Uninstalling payload |
| Daemon.AppManager.NotifyUninstallFailure | src/appmanager.cpp:192-210 | appends the Failure payload |
| Daemon.AppManager.NotifyUninstallSuccess | src/appmanager.cpp:212-232 | appends the Success payload, then empties the slot |

## Left out

- D-Bus service and object registration and the adaptor created in the constructor: this is plumbing with no effect on the pipeline.
- Notification delivery: each `notify*` call is one appended log record. The `isValid()` check on the notification interface is not modelled: when the session bus has no notification service, the source sends nothing, and the log still shows the record. The check never affects control flow.
- `QProcess` mechanics: starting OS processes, `deleteLater`, reading standard output and `sender()` dispatch. A launch is a log entry with a fresh id, and stdout is a parameter of the resolution handler. The early return of `onPackageNameResolved` when `sender()` is not a process is not modelled, because the handler is only connected to the `finished` signal of a process.
- Which process a signal comes from: events are an arbitrary sequence, so a handler may run for a process in any stage. Qt's order for a crashed process, `errorOccurred` before `finished`, is not enforced; `Pipeline.CrashedCleanupFailsThenSucceeds` states the run in that order.
- `QString::fromUtf8` decoding and `tr` translation: output and texts are plain strings, and the stage texts are the untranslated English ones.
- The `hints` map is always empty; its values are strings here, not D-Bus variants.
- The 32-bit widths of `replaces_id` (unsigned) and `expire_timeout` (signed) are not modelled; their only values are 0 and 10.
- Timeouts and rejection of concurrent requests: the source has neither.
- Destroy, DestroyKillsOnlyPurge, OverlappingRequestsLoseFirstRemoval: `Killed` records only the explicit `kill()` in the destructor. Every process is created with the manager as its Qt parent, so a child still running when the manager is deleted, or when `deleteLater` deletes it, is killed as well. Those kills are not recorded, because object ownership and deletion are not modelled.
- The `qDebug()` logging of failed D-Bus registration and of process errors is left out, because it has no effect on the pipeline.
