/**
 * The daemon's AppManager object. Its handlers run one after another as the
 * D-Bus request and the signals of the processes it launched arrive; each
 * method below mirrors one member of the class and is proved to move the
 * object's state exactly as the matching function of `Pipeline` says.
 */
module Daemon {
  import opened Wrappers
  import Text
  import opened Notifications
  import Pipeline

  class AppManager {
    /** `m_currentProcess`: the removal process being tracked, if any. */
    var slot: Option<Pipeline.ProcId>
    /** The id the next launched process gets. */
    var nextId: Pipeline.ProcId
    /** Everything the manager has done to the outside world, in order. */
    var effects: seq<Pipeline.Effect>

    function State(): Pipeline.State
      reads this
    {
      Pipeline.State(slot, nextId, effects)
    }

    ghost predicate Valid()
      reads this
    {
      Pipeline.Valid(State())
    }

    /** The D-Bus registration of the constructor is not modelled; the slot starts empty. */
    constructor ()
      ensures State() == Pipeline.Initial() && Valid()
    {
      slot := None;
      nextId := 0;
      effects := [];
      new;
      Pipeline.InitialValid();
    }

    /** `~AppManager`: the explicit kill of the tracked process, if any. */
    method Destroy()
      modifies this
      ensures State() == Pipeline.Destroy(old(State()))
    {
      if slot.Some? {
        effects := effects + [Pipeline.Killed(slot.value)];
      }
    }

    /** The D-Bus entry point: always asks `dpkg` which package owns `content`. */
    method Uninstall(content: string)
      modifies this
      ensures State() == Pipeline.Uninstall(old(State()), content)
      ensures old(Valid()) ==> Valid()
    {
      ghost var s := State();
      GetPackageNameFromFile(content);
      if Pipeline.Valid(s) { Pipeline.StepPreservesValid(s, Pipeline.Request(content)); }
    }

    method GetPackageNameFromFile(filePath: string)
      modifies this
      ensures State() == Pipeline.GetPackageNameFromFile(old(State()), filePath)
    {
      var _ := Start("dpkg", ["-S", filePath]);
    }

    /** The `finished` signal of the `dpkg` process. */
    method OnPackageNameResolved(exitCode: int, status: Pipeline.ExitStatus, output: string)
      modifies this
      ensures State() == Pipeline.OnPackageNameResolved(old(State()), exitCode, status, output)
      ensures old(Valid()) ==> Valid()
    {
      ghost var s := State();
      var packageName := "";
      if status == Pipeline.NormalExit && exitCode == 0 {
        packageName := Text.ExtractPackageName(output);
      }
      if packageName != "" {
        StartUninstall(packageName);
      } else {
        NotifyUninstallFailure(packageName);
      }
      if Pipeline.Valid(s) {
        Pipeline.StepPreservesValid(s, Pipeline.QueryFinished(exitCode, status, output));
      }
    }

    /** Announces the removal, then launches it and keeps it in the slot. */
    method StartUninstall(packageName: string)
      modifies this
      ensures State() == Pipeline.StartUninstall(old(State()), packageName)
    {
      NotifyUninstalling(packageName);
      var id := Start("pkexec", ["apt", "remove", "--purge", "-y", packageName]);
      slot := Some(id);
    }

    /** The `finished` signal of the removal process. */
    method OnUninstallFinished(exitCode: int, status: Pipeline.ExitStatus)
      modifies this
      ensures State() == Pipeline.OnUninstallFinished(old(State()), exitCode, status)
      ensures old(Valid()) ==> Valid()
    {
      ghost var s := State();
      var packageName := Pipeline.Unknown;
      if status == Pipeline.NormalExit && exitCode == 0 {
        RunAutoRemove();
      } else {
        NotifyUninstallFailure(packageName);
        CleanupProcess();
      }
      if Pipeline.Valid(s) { Pipeline.StepPreservesValid(s, Pipeline.RemovalFinished(exitCode, status)); }
    }

    method RunAutoRemove()
      modifies this
      ensures State() == Pipeline.RunAutoRemove(old(State()))
    {
      var _ := Start("pkexec", ["apt", "autoremove", "-y"]);
    }

    /** The `finished` signal of the cleanup process; its outcome is not looked at. */
    method OnAutoRemoveFinished(exitCode: int, status: Pipeline.ExitStatus)
      modifies this
      ensures State() == Pipeline.OnAutoRemoveFinished(old(State()), exitCode, status)
      ensures old(Valid()) ==> Valid()
    {
      ghost var s := State();
      var packageName := Pipeline.Unknown;
      NotifyUninstallSuccess(packageName);
      CleanupProcess();
      if Pipeline.Valid(s) { Pipeline.StepPreservesValid(s, Pipeline.AutoRemoveFinished(exitCode, status)); }
    }

    /** The `errorOccurred` signal of any of the three processes. */
    method OnProcessError(error: Pipeline.ProcessError)
      modifies this
      ensures State() == Pipeline.OnProcessError(old(State()), error)
      ensures old(Valid()) ==> Valid()
    {
      ghost var s := State();
      var packageName := Pipeline.Unknown;
      NotifyUninstallFailure(packageName);
      CleanupProcess();
      if Pipeline.Valid(s) { Pipeline.StepPreservesValid(s, Pipeline.ErrorOccurred(error)); }
    }

    method CleanupProcess()
      modifies this
      ensures State() == Pipeline.CleanupProcess(old(State()))
    {
      if slot.Some? {
        slot := None;
      }
    }

    method NotifyUninstalling(packageName: string)
      modifies this
      ensures State() == Pipeline.NotifyUninstalling(old(State()), packageName)
    {
      Notify(Uninstalling, packageName);
    }

    method NotifyUninstallFailure(packageName: string)
      modifies this
      ensures State() == Pipeline.NotifyUninstallFailure(old(State()), packageName)
    {
      Notify(Failure, packageName);
    }

    method NotifyUninstallSuccess(packageName: string)
      modifies this
      ensures State() == Pipeline.NotifyUninstallSuccess(old(State()), packageName)
    {
      Notify(Success, packageName);
      CleanupProcess();
    }

    /** Creates and starts a process; it gets the next fresh id. */
    method Start(program: string, arguments: seq<string>) returns (id: Pipeline.ProcId)
      modifies this
      ensures id == old(nextId)
      ensures State() == Pipeline.Start(old(State()), program, arguments)
    {
      id := nextId;
      effects := effects + [Pipeline.Launched(id, program, arguments)];
      nextId := nextId + 1;
    }

    /** The asynchronous `Notify` call with the payload for `kind`. */
    method Notify(kind: Kind, packageName: string)
      modifies this
      ensures State() == Pipeline.Notify(old(State()), kind, packageName)
    {
      effects := effects + [Pipeline.Notified(NotifyPayload(kind, packageName))];
    }
  }
}
