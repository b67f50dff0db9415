/**
 * The uninstall pipeline of the daemon's AppManager as a state machine on
 * values: one function per handler, giving the state after the handler from
 * the state before it. The state is the single current-process slot, the
 * next fresh process id and the ordered log of what the manager did to the
 * outside world (processes launched, notifications sent, processes killed).
 */
module Pipeline {
  import opened Wrappers
  import opened Text
  import opened Notifications

  /** Identity of a launched process; ids are handed out in launch order. */
  type ProcId = nat

  /** `QProcess::ExitStatus`. */
  datatype ExitStatus = NormalExit | CrashExit

  /** `QProcess::ProcessError`; the handler does not look at it. */
  datatype ProcessError = FailedToStart | Crashed | Timedout | ReadError | WriteError | UnknownError

  /** One observable action of the manager, in the order it happens. */
  datatype Effect =
    | Launched(id: ProcId, program: string, arguments: seq<string>)
    | Notified(note: Notification)
    | Killed(target: ProcId)

  /** `slot` is `m_currentProcess`; `nextId` is the id the next launch gets. */
  datatype State = State(slot: Option<ProcId>, nextId: ProcId, effects: seq<Effect>)

  /** The package name the handlers after resolution report. */
  const Unknown: string := "unknown"

  function QueryArgs(filePath: string): seq<string> { ["-S", filePath] }
  function PurgeArgs(packageName: string): seq<string> { ["apt", "remove", "--purge", "-y", packageName] }
  const AutoRemoveArgs: seq<string> := ["apt", "autoremove", "-y"]

  /** A launch of the privileged purge removal of some package. */
  predicate IsPurge(e: Effect) {
    e.Launched? && e.program == "pkexec" && |e.arguments| == 5
    && e.arguments[..4] == ["apt", "remove", "--purge", "-y"]
  }

  /** A launch of the privileged dependency cleanup. */
  predicate IsAutoRemove(e: Effect) {
    e.Launched? && e.program == "pkexec" && e.arguments == AutoRemoveArgs
  }

  /** The package a purge launch removes. */
  function PurgeTarget(e: Effect): string
    requires IsPurge(e)
  {
    e.arguments[4]
  }

  /** A freshly constructed manager: empty slot, nothing done yet. */
  function Initial(): State {
    State(None, 0, [])
  }

  // ---- the handlers, one function per member of AppManager ----

  /** Creating and starting a `QProcess`: it gets the next fresh id. */
  function Start(s: State, program: string, arguments: seq<string>): State {
    State(s.slot, s.nextId + 1, s.effects + [Launched(s.nextId, program, arguments)])
  }

  /** One asynchronous `Notify` call. */
  function Notify(s: State, kind: Kind, packageName: string): State {
    s.(effects := s.effects + [Notified(NotifyPayload(kind, packageName))])
  }

  /** Forgetting the tracked process: only the slot changes, and it ends empty. */
  function CleanupProcess(s: State): (t: State)
    ensures t == s.(slot := None)
  {
    if s.slot.Some? then s.(slot := None) else s
  }

  function NotifyUninstalling(s: State, packageName: string): State {
    Notify(s, Uninstalling, packageName)
  }

  function NotifyUninstallFailure(s: State, packageName: string): State {
    Notify(s, Failure, packageName)
  }

  /** The success notification also clears the slot. */
  function NotifyUninstallSuccess(s: State, packageName: string): State {
    CleanupProcess(Notify(s, Success, packageName))
  }

  function GetPackageNameFromFile(s: State, filePath: string): State {
    Start(s, "dpkg", QueryArgs(filePath))
  }

  function Uninstall(s: State, content: string): State {
    GetPackageNameFromFile(s, content)
  }

  /**
   * The package name `onPackageNameResolved` works with. It is non-empty
   * exactly when `dpkg` exited normally with code 0 and printed something
   * other than white space before the first ':', and it is then the
   * extracted name.
   */
  function ResolvedName(exitCode: int, status: ExitStatus, output: string): (name: string)
    ensures name != "" <==> status == NormalExit && exitCode == 0 && !AllSpace(BeforeFirst(output, ':'))
    ensures name != "" ==> name == ExtractPackageName(output)
  {
    PackageNameEmptyIff(output);
    if status == NormalExit && exitCode == 0 then ExtractPackageName(output) else ""
  }

  /**
   * A non-empty name is announced and its purge launched into the slot; an
   * empty one only sends a Failure notification carrying the empty name.
   */
  function OnPackageNameResolved(s: State, exitCode: int, status: ExitStatus, output: string): (t: State)
    ensures var name := ResolvedName(exitCode, status, output);
      name != "" ==> t == State(Some(s.nextId), s.nextId + 1,
                                s.effects + [Notified(NotifyPayload(Uninstalling, name)),
                                             Launched(s.nextId, "pkexec", PurgeArgs(name))])
    ensures var name := ResolvedName(exitCode, status, output);
      name == "" ==> t == State(s.slot, s.nextId, s.effects + [Notified(NotifyPayload(Failure, ""))])
  {
    var packageName := ResolvedName(exitCode, status, output);
    if packageName != "" then StartUninstall(s, packageName)
    else NotifyUninstallFailure(s, packageName)
  }

  /**
   * The Uninstalling notification, then the purge of the package under a
   * fresh id; the slot then holds the purge, overwriting whatever was there.
   */
  function StartUninstall(s: State, packageName: string): (t: State)
    ensures t == State(Some(s.nextId), s.nextId + 1,
                       s.effects + [Notified(NotifyPayload(Uninstalling, packageName)),
                                    Launched(s.nextId, "pkexec", ["apt", "remove", "--purge", "-y", packageName])])
    ensures IsPurge(t.effects[|s.effects| + 1]) && PurgeTarget(t.effects[|s.effects| + 1]) == packageName
  {
    var t := NotifyUninstalling(s, packageName);
    Start(t, "pkexec", PurgeArgs(packageName)).(slot := Some(t.nextId))
  }

  /**
   * A normal exit with code 0 only launches the cleanup, keeping the slot and
   * notifying nothing; any other exit sends Failure("unknown") and empties
   * the slot.
   */
  function OnUninstallFinished(s: State, exitCode: int, status: ExitStatus): (t: State)
    ensures status == NormalExit && exitCode == 0 ==>
      t == State(s.slot, s.nextId + 1, s.effects + [Launched(s.nextId, "pkexec", ["apt", "autoremove", "-y"])])
    ensures !(status == NormalExit && exitCode == 0) ==>
      t == State(None, s.nextId, s.effects + [Notified(NotifyPayload(Failure, "unknown"))])
  {
    if status == NormalExit && exitCode == 0 then RunAutoRemove(s)
    else CleanupProcess(NotifyUninstallFailure(s, Unknown))
  }

  /** The cleanup is launched under a fresh id; the slot is left alone. */
  function RunAutoRemove(s: State): (t: State)
    ensures t == State(s.slot, s.nextId + 1, s.effects + [Launched(s.nextId, "pkexec", ["apt", "autoremove", "-y"])])
    ensures IsAutoRemove(t.effects[|s.effects|]) && !IsPurge(t.effects[|s.effects|])
  {
    Start(s, "pkexec", AutoRemoveArgs)
  }

  /** Whatever the cleanup's exit: one Success("unknown") and an empty slot. */
  function OnAutoRemoveFinished(s: State, exitCode: int, status: ExitStatus): (t: State)
    ensures t == State(None, s.nextId, s.effects + [Notified(NotifyPayload(Success, "unknown"))])
  {
    CleanupProcess(NotifyUninstallSuccess(s, Unknown))
  }

  /** A process error at any stage: one Failure("unknown") and an empty slot. */
  function OnProcessError(s: State, error: ProcessError): (t: State)
    ensures t == State(None, s.nextId, s.effects + [Notified(NotifyPayload(Failure, "unknown"))])
  {
    CleanupProcess(NotifyUninstallFailure(s, Unknown))
  }

  /**
   * The explicit `kill()` of the destructor: the slot's process, when there
   * is one, is recorded as killed; nothing else is. Processes that die
   * because their parent object is deleted are not recorded.
   */
  function Destroy(s: State): (t: State)
    ensures t.slot == s.slot && t.nextId == s.nextId
    ensures t.effects == s.effects + (if s.slot.Some? then [Killed(s.slot.value)] else [])
  {
    if s.slot.Some? then s.(effects := s.effects + [Killed(s.slot.value)]) else s
  }

  // ---- runs of the manager: an arbitrary sequence of external events ----

  /** A D-Bus request or a signal of one of the launched processes. */
  datatype Event =
    | Request(content: string)
    | QueryFinished(exitCode: int, status: ExitStatus, output: string)
    | RemovalFinished(exitCode: int, status: ExitStatus)
    | AutoRemoveFinished(exitCode: int, status: ExitStatus)
    | ErrorOccurred(error: ProcessError)

  function Step(s: State, e: Event): State {
    match e
    case Request(content) => Uninstall(s, content)
    case QueryFinished(code, status, output) => OnPackageNameResolved(s, code, status, output)
    case RemovalFinished(code, status) => OnUninstallFinished(s, code, status)
    case AutoRemoveFinished(code, status) => OnAutoRemoveFinished(s, code, status)
    case ErrorOccurred(error) => OnProcessError(s, error)
  }

  function Run(s: State, events: seq<Event>): State
    decreases |events|
  {
    if events == [] then s else Run(Step(s, events[0]), events[1..])
  }

  // ---- invariants of every reachable state ----

  /** Every launched process has an id below `nextId`, so the next launch is fresh. */
  ghost predicate IdsBelowNext(s: State) {
    forall k :: 0 <= k < |s.effects| && s.effects[k].Launched? ==> s.effects[k].id < s.nextId
  }

  /**
   * No purge is launched for an empty package name, and each purge comes
   * right after the Uninstalling notification for the same package.
   */
  ghost predicate PurgesAnnounced(s: State) {
    forall k :: 0 <= k < |s.effects| && IsPurge(s.effects[k]) ==>
      PurgeTarget(s.effects[k]) != "" && 0 < k
      && s.effects[k - 1] == Notified(NotifyPayload(Uninstalling, PurgeTarget(s.effects[k])))
  }

  /** A full slot holds a process that was launched, and that process is a purge. */
  ghost predicate SlotHoldsPurge(s: State) {
    s.slot.Some? ==>
      s.slot.value < s.nextId
      && (exists k :: 0 <= k < |s.effects| && s.effects[k].Launched? && s.effects[k].id == s.slot.value)
      && (forall k :: 0 <= k < |s.effects| && s.effects[k].Launched? && s.effects[k].id == s.slot.value
            ==> IsPurge(s.effects[k]))
  }

  ghost predicate Valid(s: State) {
    IdsBelowNext(s) && PurgesAnnounced(s) && SlotHoldsPurge(s)
  }

  // ---- what each handler does ----

  /** A request always runs `dpkg -S <content>` and touches nothing else. */
  lemma UninstallRunsQuery(s: State, content: string)
    ensures Uninstall(s, content)
      == State(s.slot, s.nextId + 1, s.effects + [Launched(s.nextId, "dpkg", ["-S", content])])
  {
  }

  /**
   * When `dpkg` crashed, exited non-zero or printed only white space before
   * the first ':', the one effect is a Failure notification with an empty
   * package name: nothing is launched and the slot is left as it was.
   */
  lemma ResolutionFailureNotifiesOnly(s: State, exitCode: int, status: ExitStatus, output: string)
    requires status != NormalExit || exitCode != 0 || AllSpace(BeforeFirst(output, ':'))
    ensures OnPackageNameResolved(s, exitCode, status, output)
      == State(s.slot, s.nextId, s.effects + [Notified(NotifyPayload(Failure, ""))])
  {
    PackageNameEmptyIff(output);
  }

  /**
   * When `dpkg` exited normally with code 0 and printed a non-blank name
   * before the first ':', the Uninstalling notification for that name comes
   * first, then `pkexec apt remove --purge -y <name>` is launched and the
   * slot holds that process.
   */
  lemma ResolutionSuccessStartsPurge(s: State, output: string)
    requires !AllSpace(BeforeFirst(output, ':'))
    ensures var name := ExtractPackageName(output);
      name != ""
      && OnPackageNameResolved(s, 0, NormalExit, output)
         == State(Some(s.nextId), s.nextId + 1,
                  s.effects + [Notified(NotifyPayload(Uninstalling, name)),
                               Launched(s.nextId, "pkexec", ["apt", "remove", "--purge", "-y", name])])
  {
    PackageNameEmptyIff(output);
  }

  /** A `dpkg -S` answer "pkg: path" resolves to exactly `pkg`. */
  lemma DpkgAnswerResolves(pkg: string, path: string)
    requires IsPackageName(pkg)
    ensures ResolvedName(0, NormalExit, pkg + ": " + path) == pkg
  {
    assert pkg + ": " + path == [] + pkg + [] + ":" + (" " + path);
    PackageNameOfLine([], pkg, [], " " + path);
  }

  /** A `dpkg -S` answer "pkg: path" starts the purge of exactly `pkg`. */
  lemma DpkgAnswerStartsPurge(s: State, pkg: string, path: string)
    requires IsPackageName(pkg)
    ensures OnPackageNameResolved(s, 0, NormalExit, pkg + ": " + path)
      == State(Some(s.nextId), s.nextId + 1,
               s.effects + [Notified(NotifyPayload(Uninstalling, pkg)),
                            Launched(s.nextId, "pkexec", PurgeArgs(pkg))])
  {
    DpkgAnswerResolves(pkg, path);
  }

  /** Clearing the slot twice, as the success path does, is clearing it once. */
  lemma CleanupIdempotent(s: State)
    ensures CleanupProcess(CleanupProcess(s)) == CleanupProcess(s)
  {
  }

  // ---- which event can launch which privileged process ----

  /** The effects an event adds to the log. */
  function Added(s: State, e: Event): seq<Effect> {
    var t := Step(s, e);
    if |s.effects| <= |t.effects| then t.effects[|s.effects|..] else []
  }

  /** What each event appends to the log. */
  lemma AddedByEvent(s: State, e: Event)
    ensures Step(s, e).effects == s.effects + Added(s, e)
    ensures e.Request? ==> Added(s, e) == [Launched(s.nextId, "dpkg", QueryArgs(e.content))]
    ensures e.QueryFinished? ==>
      var name := ResolvedName(e.exitCode, e.status, e.output);
      Added(s, e) == if name != "" then [Notified(NotifyPayload(Uninstalling, name)),
                                         Launched(s.nextId, "pkexec", PurgeArgs(name))]
                     else [Notified(NotifyPayload(Failure, name))]
    ensures e.RemovalFinished? ==>
      Added(s, e) == if e.status == NormalExit && e.exitCode == 0 then [Launched(s.nextId, "pkexec", AutoRemoveArgs)]
                     else [Notified(NotifyPayload(Failure, Unknown))]
    ensures e.AutoRemoveFinished? ==> Added(s, e) == [Notified(NotifyPayload(Success, Unknown))]
    ensures e.ErrorOccurred? ==> Added(s, e) == [Notified(NotifyPayload(Failure, Unknown))]
  {
    var t := Step(s, e);
    match e
    case Request(content) =>
      assert t.effects == s.effects + [Launched(s.nextId, "dpkg", QueryArgs(content))];
    case QueryFinished(code, status, output) =>
      var name := ResolvedName(code, status, output);
      if name != "" {
        assert t.effects == s.effects + [Notified(NotifyPayload(Uninstalling, name)),
                                         Launched(s.nextId, "pkexec", PurgeArgs(name))];
      } else {
        assert t.effects == s.effects + [Notified(NotifyPayload(Failure, name))];
      }
    case RemovalFinished(code, status) =>
      if status == NormalExit && code == 0 {
        assert t.effects == s.effects + [Launched(s.nextId, "pkexec", AutoRemoveArgs)];
      } else {
        assert t.effects == s.effects + [Notified(NotifyPayload(Failure, Unknown))];
      }
    case AutoRemoveFinished(code, status) =>
      assert t.effects == s.effects + [Notified(NotifyPayload(Success, Unknown))];
    case ErrorOccurred(error) =>
      assert t.effects == s.effects + [Notified(NotifyPayload(Failure, Unknown))];
  }

  /**
   * Handlers only append to the log and never lower the next id; a process
   * an event launches gets exactly the id that was next, so no id is reused.
   */
  lemma StepExtends(s: State, e: Event)
    ensures s.effects <= Step(s, e).effects && s.nextId <= Step(s, e).nextId
    ensures forall k :: 0 <= k < |Added(s, e)| && Added(s, e)[k].Launched? ==> Added(s, e)[k].id == s.nextId
  {
    AddedByEvent(s, e);
  }

  /** No launch in `a` is of the cleanup or of a purge. */
  predicate LaunchesNothingPrivileged(a: seq<Effect>) {
    forall k :: 0 <= k < |a| ==> !IsAutoRemove(a[k]) && !IsPurge(a[k])
  }

  /** Handlers other than the two that launch privileged processes launch none. */
  lemma OtherEventsLaunchNothingPrivileged(s: State, e: Event)
    requires !(e.RemovalFinished? && e.status == NormalExit && e.exitCode == 0)
    requires !(e.QueryFinished? && ResolvedName(e.exitCode, e.status, e.output) != "")
    ensures LaunchesNothingPrivileged(Added(s, e))
  {
    AddedByEvent(s, e);
    match e
    case Request(content) =>
      assert Added(s, e)[0].program == "dpkg";
    case QueryFinished(code, status, output) =>
    case RemovalFinished(code, status) =>
    case AutoRemoveFinished(code, status) =>
    case ErrorOccurred(error) =>
  }

  /**
   * The dependency cleanup is launched by the normal, zero exit of the
   * removal and by nothing else: in particular not by a process error.
   */
  lemma AutoRemoveOnlyAfterRemoval(s: State, e: Event)
    ensures (exists k :: 0 <= k < |Added(s, e)| && IsAutoRemove(Added(s, e)[k]))
        <==> e.RemovalFinished? && e.status == NormalExit && e.exitCode == 0
  {
    AddedByEvent(s, e);
    var a := Added(s, e);
    match e
    case RemovalFinished(code, status) =>
      if status == NormalExit && code == 0 {
        assert IsAutoRemove(a[0]);
      } else {
        OtherEventsLaunchNothingPrivileged(s, e);
      }
    case QueryFinished(code, status, output) =>
      var name := ResolvedName(code, status, output);
      if name != "" {
        assert a == [Notified(NotifyPayload(Uninstalling, name)), Launched(s.nextId, "pkexec", PurgeArgs(name))];
        assert |a[1].arguments| != |AutoRemoveArgs|;
      } else {
        OtherEventsLaunchNothingPrivileged(s, e);
      }
    case _ =>
      OtherEventsLaunchNothingPrivileged(s, e);
  }

  /**
   * A purge is launched by a resolution that yields a non-empty name and by
   * nothing else.
   */
  lemma PurgeOnlyAfterResolution(s: State, e: Event)
    ensures (exists k :: 0 <= k < |Added(s, e)| && IsPurge(Added(s, e)[k]))
        <==> e.QueryFinished? && ResolvedName(e.exitCode, e.status, e.output) != ""
  {
    AddedByEvent(s, e);
    var a := Added(s, e);
    if e.QueryFinished? && ResolvedName(e.exitCode, e.status, e.output) != "" {
      assert IsPurge(a[1]);
    } else if e.RemovalFinished? && e.status == NormalExit && e.exitCode == 0 {
      assert |a| == 1 && |a[0].arguments| == 3;
    } else {
      OtherEventsLaunchNothingPrivileged(s, e);
    }
  }

  // ---- the invariants hold in every reachable state ----

  lemma InitialValid()
    ensures Valid(Initial())
  {
  }

  /** Launching a process that is not a purge keeps the invariants. */
  lemma StartOtherPreservesValid(s: State, program: string, arguments: seq<string>)
    requires Valid(s)
    requires !IsPurge(Launched(s.nextId, program, arguments))
    ensures Valid(Start(s, program, arguments))
  {
    var t := Start(s, program, arguments);
    if s.slot.Some? {
      var k :| 0 <= k < |s.effects| && s.effects[k].Launched? && s.effects[k].id == s.slot.value;
      assert t.effects[k] == s.effects[k];
    }
  }

  /** Appending a notification keeps the invariants. */
  lemma NotifyPreservesValid(s: State, kind: Kind, packageName: string)
    requires Valid(s)
    ensures Valid(Notify(s, kind, packageName))
  {
    var t := Notify(s, kind, packageName);
    if s.slot.Some? {
      var k :| 0 <= k < |s.effects| && s.effects[k].Launched? && s.effects[k].id == s.slot.value;
      assert t.effects[k] == s.effects[k];
    }
  }

  /** Emptying the slot keeps the invariants. */
  lemma CleanupPreservesValid(s: State)
    requires Valid(s)
    ensures Valid(CleanupProcess(s))
  {
  }

  /** Notifying and then emptying the slot keeps the invariants. */
  lemma NotifyCleanupPreservesValid(s: State, kind: Kind, packageName: string)
    requires Valid(s)
    ensures Valid(CleanupProcess(Notify(s, kind, packageName)))
  {
    NotifyPreservesValid(s, kind, packageName);
    CleanupPreservesValid(Notify(s, kind, packageName));
  }

  /** Starting the removal of a non-empty name keeps the invariants. */
  lemma StartUninstallPreservesValid(s: State, packageName: string)
    requires Valid(s) && packageName != ""
    ensures Valid(StartUninstall(s, packageName))
  {
    var t := StartUninstall(s, packageName);
    var n := |s.effects|;
    assert t.effects == s.effects + [Notified(NotifyPayload(Uninstalling, packageName)),
                                     Launched(s.nextId, "pkexec", PurgeArgs(packageName))];
    assert IsPurge(t.effects[n + 1]) && PurgeTarget(t.effects[n + 1]) == packageName;
    assert PurgesAnnounced(t) by {
      forall k | 0 <= k < |t.effects| && IsPurge(t.effects[k])
        ensures PurgeTarget(t.effects[k]) != "" && 0 < k
          && t.effects[k - 1] == Notified(NotifyPayload(Uninstalling, PurgeTarget(t.effects[k])))
      {
        if k < n {
          assert t.effects[k] == s.effects[k] && t.effects[k - 1] == s.effects[k - 1];
        }
      }
    }
  }

  lemma {:induction false} StepPreservesValid(s: State, e: Event)
    requires Valid(s)
    ensures Valid(Step(s, e))
  {
    match e
    case Request(content) =>
      StartOtherPreservesValid(s, "dpkg", QueryArgs(content));
    case QueryFinished(code, status, output) =>
      var packageName := ResolvedName(code, status, output);
      if packageName != "" {
        StartUninstallPreservesValid(s, packageName);
      } else {
        NotifyPreservesValid(s, Failure, packageName);
      }
    case RemovalFinished(code, status) =>
      if status == NormalExit && code == 0 {
        StartOtherPreservesValid(s, "pkexec", AutoRemoveArgs);
      } else {
        NotifyCleanupPreservesValid(s, Failure, Unknown);
      }
    case AutoRemoveFinished(code, status) =>
      NotifyCleanupPreservesValid(s, Success, Unknown);
      CleanupPreservesValid(CleanupProcess(Notify(s, Success, Unknown)));
    case ErrorOccurred(error) =>
      NotifyCleanupPreservesValid(s, Failure, Unknown);
  }

  /** Any sequence of events keeps the invariants. */
  lemma {:induction false} RunPreservesValid(s: State, events: seq<Event>)
    requires Valid(s)
    ensures Valid(Run(s, events))
    decreases |events|
  {
    if events != [] {
      StepPreservesValid(s, events[0]);
      RunPreservesValid(Step(s, events[0]), events[1..]);
    }
  }

  /** The log of a run extends the log it started from. */
  lemma {:induction false} RunExtends(s: State, events: seq<Event>)
    ensures s.effects <= Run(s, events).effects && s.nextId <= Run(s, events).nextId
    decreases |events|
  {
    if events != [] {
      StepExtends(s, events[0]);
      RunExtends(Step(s, events[0]), events[1..]);
    }
  }

  /**
   * Whatever the events, a started manager never runs a purge with an empty
   * package name, and every purge directly follows its Uninstalling
   * notification.
   */
  lemma NoPurgeWithoutAnnouncedName(events: seq<Event>)
    ensures var t := Run(Initial(), events);
      forall k :: 0 <= k < |t.effects| && IsPurge(t.effects[k]) ==>
        PurgeTarget(t.effects[k]) != ""
        && 0 < k && t.effects[k - 1] == Notified(NotifyPayload(Uninstalling, PurgeTarget(t.effects[k])))
  {
    InitialValid();
    RunPreservesValid(Initial(), events);
  }

  /**
   * Whatever the events, the destructor's explicit `kill()` reaches at most
   * one process, and that process was launched as a purge: never `dpkg` or
   * the cleanup. (Children still running when the manager is deleted die
   * with it; that is not an explicit kill and is not recorded.)
   */
  lemma DestroyKillsOnlyPurge(events: seq<Event>)
    ensures var t := Run(Initial(), events);
      Destroy(t).effects == t.effects + (if t.slot.Some? then [Killed(t.slot.value)] else [])
      && (t.slot.Some? ==>
            (exists k :: 0 <= k < |t.effects| && t.effects[k].Launched? && t.effects[k].id == t.slot.value)
            && forall k :: 0 <= k < |t.effects| && t.effects[k].Launched? && t.effects[k].id == t.slot.value
                 ==> IsPurge(t.effects[k]))
  {
    InitialValid();
    RunPreservesValid(Initial(), events);
  }

  // ---- two complete runs ----

  /** A run of four events is four steps. */
  lemma RunOfFour(s: State, e1: Event, e2: Event, e3: Event, e4: Event)
    ensures Run(s, [e1, e2, e3, e4]) == Step(Step(Step(Step(s, e1), e2), e3), e4)
  {
    var t1 := Step(s, e1);
    var t2 := Step(t1, e2);
    var t3 := Step(t2, e3);
    assert Run(t3, [e4]) == Run(Step(t3, e4), []);
    assert Run(t2, [e3, e4]) == Run(t3, [e4]) by { assert [e3, e4][1..] == [e4]; }
    assert Run(t1, [e2, e3, e4]) == Run(t2, [e3, e4]) by { assert [e2, e3, e4][1..] == [e3, e4]; }
    assert Run(s, [e1, e2, e3, e4]) == Run(t1, [e2, e3, e4]) by { assert [e1, e2, e3, e4][1..] == [e2, e3, e4]; }
  }

  /** A package name as `dpkg -S` prints it: non-empty, colon-free, no white space at its ends. */
  predicate IsPackageName(pkg: string) {
    pkg != [] && ':' !in pkg && !IsSpace(pkg[0]) && !IsSpace(pkg[|pkg| - 1])
  }

  /**
   * A successful uninstallation of `file`, owned by `pkg`: whatever the exit
   * of the cleanup, the final notification says "unknown", not `pkg`, and
   * the slot ends empty.
   */
  lemma SuccessfulRun(file: string, pkg: string, path: string, cleanupExit: int, cleanupStatus: ExitStatus)
    requires IsPackageName(pkg)
    ensures Run(Initial(), [Request(file), QueryFinished(0, NormalExit, pkg + ": " + path),
                            RemovalFinished(0, NormalExit), AutoRemoveFinished(cleanupExit, cleanupStatus)])
      == State(None, 3, [Launched(0, "dpkg", ["-S", file]),
                         Notified(NotifyPayload(Uninstalling, pkg)),
                         Launched(1, "pkexec", ["apt", "remove", "--purge", "-y", pkg]),
                         Launched(2, "pkexec", ["apt", "autoremove", "-y"]),
                         Notified(NotifyPayload(Success, "unknown"))])
  {
    var e1, e2, e3, e4 := Request(file), QueryFinished(0, NormalExit, pkg + ": " + path),
                          RemovalFinished(0, NormalExit), AutoRemoveFinished(cleanupExit, cleanupStatus);
    RunOfFour(Initial(), e1, e2, e3, e4);
    var query, announce := Launched(0, "dpkg", ["-S", file]), Notified(NotifyPayload(Uninstalling, pkg));
    var purge, cleanup := Launched(1, "pkexec", PurgeArgs(pkg)), Launched(2, "pkexec", AutoRemoveArgs);
    var success := Notified(NotifyPayload(Success, Unknown));
    var s1 := State(None, 1, [query]);
    assert Step(Initial(), e1) == s1 by { UninstallRunsQuery(Initial(), file); }
    var s2 := State(Some(1), 2, [query] + [announce, purge]);
    assert Step(s1, e2) == s2 by { DpkgAnswerStartsPurge(s1, pkg, path); }
    var s3 := State(Some(1), 3, s2.effects + [cleanup]);
    assert Step(s2, e3) == s3 by { assert Step(s2, e3) == OnUninstallFinished(s2, 0, NormalExit); }
    assert Step(s3, e4) == State(None, 3, s3.effects + [success]) by {
      assert Step(s3, e4) == OnAutoRemoveFinished(s3, cleanupExit, cleanupStatus);
    }
    FiveInOrder(query, announce, purge, cleanup, success);
  }

  /** Helper of `SuccessfulRun`: the log built step by step is the five-element list. */
  lemma FiveInOrder<T>(a: T, b: T, c: T, d: T, e: T)
    ensures [a] + [b, c] + [d] + [e] == [a, b, c, d, e]
  {
  }

  /**
   * Two requests whose resolutions both succeed before either removal ends:
   * the second removal overwrites the slot, so the first removal (id 2) is
   * no longer tracked and the destructor's explicit `kill()` reaches only
   * the second (id 3).
   */
  lemma OverlappingRequestsLoseFirstRemoval(file1: string, file2: string, pkg1: string, pkg2: string,
                                            path1: string, path2: string)
    requires IsPackageName(pkg1) && IsPackageName(pkg2)
    ensures var t := Run(Initial(), [Request(file1), Request(file2),
                                     QueryFinished(0, NormalExit, pkg1 + ": " + path1),
                                     QueryFinished(0, NormalExit, pkg2 + ": " + path2)]);
      |t.effects| == 6
      && t.effects[3] == Launched(2, "pkexec", PurgeArgs(pkg1))
      && t.effects[5] == Launched(3, "pkexec", PurgeArgs(pkg2))
      && t.slot == Some(3)
      && Destroy(t).effects == t.effects + [Killed(3)]
  {
    var e3, e4 := QueryFinished(0, NormalExit, pkg1 + ": " + path1), QueryFinished(0, NormalExit, pkg2 + ": " + path2);
    RunOfFour(Initial(), Request(file1), Request(file2), e3, e4);
    var s1 := Step(Initial(), Request(file1));
    UninstallRunsQuery(Initial(), file1);
    var s2 := Step(s1, Request(file2));
    UninstallRunsQuery(s1, file2);
    DpkgAnswerStartsPurge(s2, pkg1, path1);
    var s3 := Step(s2, e3);
    DpkgAnswerStartsPurge(s3, pkg2, path2);
  }

  /**
   * A cleanup that crashes reports both outcomes: its `errorOccurred` sends
   * Failure("unknown"), and the `finished` that follows sends
   * Success("unknown").
   */
  lemma CrashedCleanupFailsThenSucceeds(s: State, exitCode: int)
    ensures Run(s, [ErrorOccurred(Crashed), AutoRemoveFinished(exitCode, CrashExit)])
      == State(None, s.nextId, s.effects + [Notified(NotifyPayload(Failure, "unknown")),
                                            Notified(NotifyPayload(Success, "unknown"))])
  {
    var e1, e2 := ErrorOccurred(Crashed), AutoRemoveFinished(exitCode, CrashExit);
    var t1 := Step(s, e1);
    assert Run(t1, [e2]) == Run(Step(t1, e2), []);
    assert Run(s, [e1, e2]) == Run(t1, [e2]) by { assert [e1, e2][1..] == [e2]; }
    assert s.effects + [Notified(NotifyPayload(Failure, Unknown))] + [Notified(NotifyPayload(Success, Unknown))]
      == s.effects + [Notified(NotifyPayload(Failure, Unknown)), Notified(NotifyPayload(Success, Unknown))];
  }
}
