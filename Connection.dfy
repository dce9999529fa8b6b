/** The connection status shown in the dashboard's badge. */
module Connection {

  datatype Status = Connecting | Connected | Disconnected | ErrorConnecting

  /** The text the component stores and shows for each status. */
  function Label(s: Status): string {
    match s
    case Connecting => "Connecting..."
    case Connected => "Connected"
    case Disconnected => "Disconnected"
    case ErrorConnecting => "Error connecting"
  }

  /** Different statuses show different labels, so the label alone tells the status. */
  lemma LabelInjective(a: Status, b: Status)
    ensures Label(a) == Label(b) <==> a == b
  {
  }

  /** The badge is green when the stored label is `'Connected'`, and only then. */
  function GreenBadge(s: Status): (green: bool)
    ensures green <==> s == Connected
  {
    Label(s) == "Connected"
  }
}
