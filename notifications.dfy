/**
 * The desktop notifications the uninstaller sends. Each is a call of
 * `org.freedesktop.Notifications.Notify`; a record keeps its eight arguments
 * under the names the Desktop Notifications Specification gives them.
 */
module Notifications {
  import opened Wrappers

  /** The three notifications of an uninstallation. */
  datatype Kind = Uninstalling | Failure | Success

  /**
   * The arguments of one `Notify` call, in order. The uninstaller passes the
   * package name fourth, in the `summary` position, and the stage text fifth,
   * in the `body` position. `hints` is always empty, so its values are kept
   * as strings rather than D-Bus variants.
   */
  datatype Notification = Notification(
    appName: string,
    replacesId: nat,
    appIcon: string,
    summary: string,
    body: string,
    actions: seq<string>,
    hints: map<string, string>,
    expireTimeout: int)

  const AppName: string := "cutefish-daemon"
  const ExpireTimeout: int := 10

  /** The icon of each notification: the error icon marks exactly the failure. */
  function Icon(kind: Kind): (icon: string)
    ensures icon == "cutefish-installer" <==> kind == Uninstalling
    ensures icon == "dialog-error" <==> kind == Failure
    ensures icon == "process-completed-symbolic" <==> kind == Success
  {
    match kind
    case Uninstalling => "cutefish-installer"
    case Failure => "dialog-error"
    case Success => "process-completed-symbolic"
  }

  /** The untranslated stage text of each notification; no two kinds share one. */
  function StageText(kind: Kind): (text: string)
    ensures text == "Uninstalling" <==> kind == Uninstalling
    ensures text == "Uninstallation failure" <==> kind == Failure
    ensures text == "Uninstallation successful" <==> kind == Success
  {
    match kind
    case Uninstalling => "Uninstalling"
    case Failure => "Uninstallation failure"
    case Success => "Uninstallation successful"
  }

  /**
   * The argument list `notifyUninstalling`, `notifyUninstallFailure` and
   * `notifyUninstallSuccess` build. Every notification has the same fixed
   * fields: the application name, id 0 (nothing is replaced), no actions, no
   * hints and a timeout of 10. The package name is the fourth argument,
   * `summary`, and the icon and the stage text depend on the kind only.
   */
  function NotifyPayload(kind: Kind, packageName: string): (n: Notification)
    ensures n.appName == "cutefish-daemon" && n.replacesId == 0 && n.actions == []
      && n.hints == map[] && n.expireTimeout == 10 && n.summary == packageName
      && n.appIcon == Icon(kind) && n.body == StageText(kind)
  {
    Notification(AppName, 0, Icon(kind), packageName, StageText(kind), [], map[], ExpireTimeout)
  }

  /** Which notification a record is, read back from its icon. */
  function KindOf(n: Notification): (k: Option<Kind>)
    ensures k.Some? ==> n.appIcon == Icon(k.value)
  {
    if n.appIcon == Icon(Uninstalling) then Some(Uninstalling)
    else if n.appIcon == Icon(Failure) then Some(Failure)
    else if n.appIcon == Icon(Success) then Some(Success)
    else None
  }

  /** The kind and the package name can be read back from a payload. */
  lemma KindOfPayload(kind: Kind, packageName: string)
    ensures KindOf(NotifyPayload(kind, packageName)) == Some(kind)
    ensures NotifyPayload(kind, packageName).summary == packageName
  {
  }

  /** Two payloads are equal exactly when they have the same kind and package name. */
  lemma PayloadInjective(k1: Kind, name1: string, k2: Kind, name2: string)
    ensures NotifyPayload(k1, name1) == NotifyPayload(k2, name2) <==> k1 == k2 && name1 == name2
  {
  }
}
