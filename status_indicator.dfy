/** The status pill: an icon, a colour class and a text, each chosen by the call status. */
module StatusIndicator {
  import opened RetellTypes

  /** The four icons the pill uses. */
  datatype Icon = CheckCircle2 | Wifi | AlertCircle | WifiOff

  /** An icon with its colour class and whether it pulses. */
  datatype IconView = IconView(icon: Icon, tint: string, pulses: bool)

  function StatusIcon(s: Status): (view: IconView)
  {
    match s
    case Connected => IconView(CheckCircle2, "text-green-500", false)
    case Connecting => IconView(Wifi, "text-blue-500", true)
    case Error => IconView(AlertCircle, "text-red-500", false)
    case Disconnected => IconView(WifiOff, "text-gray-400", false)
    case _ => IconView(Wifi, "text-gray-400", false)
  }

  function StatusColor(s: Status): (color: string)
  {
    match s
    case Connected => "text-green-600"
    case Connecting => "text-blue-600"
    case Error => "text-red-600"
    case Disconnected => "text-gray-500"
    case _ => "text-gray-500"
  }

  function StatusText(s: Status): (text: string)
  {
    match s
    case Connected => "Connected to AI Agent"
    case Connecting => "Connecting to AI Agent..."
    case Error => "Connection Failed"
    case Disconnected => "Disconnected"
    case _ => "Ready to Connect"
  }

  /** The text tells every status apart; idle falls to the default text. */
  lemma StatusTextDistinct(a: Status, b: Status)
    ensures StatusText(Idle) == "Ready to Connect"
    ensures StatusText(a) == StatusText(b) <==> a == b
  {
  }

  /**
   * Connected, connecting and error each have their own colour; disconnected
   * and idle share a fourth one.
   */
  lemma StatusColorClasses(a: Status, b: Status)
    ensures StatusColor(Disconnected) == StatusColor(Idle) == "text-gray-500"
    ensures a != b && StatusColor(a) == StatusColor(b) ==> {a, b} == {Disconnected, Idle}
  {
  }

  /**
   * Idle and connecting share the Wifi icon and differ only in tint and pulse;
   * only connecting pulses; every other status has an icon of its own.
   */
  lemma StatusIconsByStatus(s: Status)
    ensures StatusIcon(s).pulses <==> s == Connecting
    ensures StatusIcon(s).icon == Wifi <==> s == Idle || s == Connecting
    ensures StatusIcon(s).icon == CheckCircle2 <==> s == Connected
    ensures StatusIcon(s).icon == AlertCircle <==> s == Error
    ensures StatusIcon(s).icon == WifiOff <==> s == Disconnected
  {
  }
}
