/**
 * The real-time updates card (src/app/component/RealTimeUpdate.tsx): it
 * classifies each update by its type string into an icon and a badge, falls
 * back to a fixed text for an update without a message, and shows either a
 * placeholder or the updates in the order given, with a "Clear All" button
 * when there are any.
 */
module RealtimeUpdates {
  import opened Common

  /** The five kinds an update can be shown as. */
  datatype Category = Complete | Updated | Failed | InProgress | Informational

  datatype Icon = CheckCircle | Activity | AlertCircle | Clock | InfoIcon

  datatype BadgeVariant = Default | Secondary | Destructive | Outline

  datatype Badge = Badge(variant: BadgeVariant, caption: string)

  /** `string | number` timestamps. */
  datatype Timestamp = TextStamp(text: string) | EpochStamp(millis: real)

  /**
   * The fields of an update the card reads. `details` and `data` are shown
   * serialised, so the model keeps their serialised text.
   */
  datatype UpdateMessage = UpdateMessage(
    kind: string,
    message: Option<string>,
    timestamp: Option<Timestamp>,
    details: Option<string>,
    data: Option<string>)

  /** The type strings the card recognises; anything else is informational. */
  function Classify(kind: string): (c: Category)
    ensures c == Informational <==>
      kind != "calculation_complete" && kind != "task_updated" && kind != "error" && kind != "progress"
  {
    if kind == "calculation_complete" then Complete
    else if kind == "task_updated" then Updated
    else if kind == "error" then Failed
    else if kind == "progress" then InProgress
    else Informational
  }

  /** `getUpdateIcon`. */
  function UpdateIcon(kind: string): (i: Icon)
    ensures IconCategory(i) == Classify(kind)
  {
    match kind
    case "calculation_complete" => CheckCircle
    case "task_updated" => Activity
    case "error" => AlertCircle
    case "progress" => Clock
    case _ => InfoIcon
  }

  /** `getUpdateBadge`. */
  function UpdateBadge(kind: string): (b: Badge)
    ensures BadgeCategory(b) == Classify(kind)
    ensures b == Badge(VariantOf(Classify(kind)), CaptionOf(Classify(kind)))
  {
    match kind
    case "calculation_complete" => Badge(Default, "Complete")
    case "task_updated" => Badge(Secondary, "Updated")
    case "error" => Badge(Destructive, "Error")
    case "progress" => Badge(Outline, "Progress")
    case _ => Badge(Outline, "Info")
  }

  /** The badge's variant for each kind. */
  function VariantOf(c: Category): BadgeVariant {
    match c
    case Complete => Default
    case Updated => Secondary
    case Failed => Destructive
    case InProgress => Outline
    case Informational => Outline
  }

  /** The badge's caption for each kind. */
  function CaptionOf(c: Category): string {
    match c
    case Complete => "Complete"
    case Updated => "Updated"
    case Failed => "Error"
    case InProgress => "Progress"
    case Informational => "Info"
  }

  /** The kind an icon stands for. */
  function IconCategory(i: Icon): Category {
    match i
    case CheckCircle => Complete
    case Activity => Updated
    case AlertCircle => Failed
    case Clock => InProgress
    case InfoIcon => Informational
  }

  /** The kind a badge stands for, read from its caption. */
  function BadgeCategory(b: Badge): Category {
    if b.caption == "Complete" then Complete
    else if b.caption == "Updated" then Updated
    else if b.caption == "Error" then Failed
    else if b.caption == "Progress" then InProgress
    else Informational
  }

  /** For every type string, the icon and the badge show the same kind. */
  lemma IconAndBadgeAgree(kind: string)
    ensures IconCategory(UpdateIcon(kind)) == BadgeCategory(UpdateBadge(kind))
  {
  }

  const FallbackText := "Update received"

  /** `update.message || "Update received"`: never empty, and the message itself whenever it has text. */
  function MessageText(message: Option<string>): (text: string)
    ensures text != ""
    ensures message.Some? && message.value != "" ==> text == message.value
    ensures message.None? || message.value == "" ==> text == FallbackText
  {
    if message.Some? && message.value != "" then message.value else FallbackText
  }

  /** JavaScript truthiness of the optional fields the card tests with `&&`. */
  predicate TimestampTruthy(t: Option<Timestamp>) {
    match t
    case None => false
    case Some(TextStamp(s)) => s != ""
    case Some(EpochStamp(ms)) => ms != 0.0
  }

  predicate TextTruthy(t: Option<string>) {
    t.Some? && t.value != ""
  }

  /** One rendered update. */
  datatype Entry = Entry(
    icon: Icon,
    badge: Badge,
    showsTimestamp: bool,
    text: string,
    showsDetails: bool,
    showsData: bool)

  function RenderEntry(u: UpdateMessage): (e: Entry)
    ensures e.icon == UpdateIcon(u.kind) && e.badge == UpdateBadge(u.kind)
    ensures IconCategory(e.icon) == Classify(u.kind) && BadgeCategory(e.badge) == Classify(u.kind)
    ensures e.text == MessageText(u.message) && e.text != ""
    ensures e.showsTimestamp <==> TimestampTruthy(u.timestamp)
    ensures e.showsDetails <==> TextTruthy(u.details)
    ensures e.showsData <==> TextTruthy(u.data)
  {
    Entry(UpdateIcon(u.kind), UpdateBadge(u.kind), TimestampTruthy(u.timestamp),
          MessageText(u.message), TextTruthy(u.details), TextTruthy(u.data))
  }

  /** The card body: a placeholder, or one entry per update. */
  datatype Body = Placeholder(text: string) | Entries(entries: seq<Entry>)

  datatype Card = Card(disconnectedNotice: bool, clearAllShown: bool, body: Body)

  const IdleText := "No updates yet. Updates will appear here in real-time as they occur."
  const DisconnectedText := "WebSocket is disconnected. Reconnect to receive real-time updates."

  /**
   * `RealtimeUpdates`: "Clear All" appears exactly when the placeholder does
   * not, and the entries follow the updates one for one, in order.
   */
  function Render(updates: seq<UpdateMessage>, isConnected: bool): (c: Card)
    ensures c.disconnectedNotice <==> !isConnected
    ensures c.clearAllShown <==> |updates| > 0
    ensures c.body.Placeholder? <==> !c.clearAllShown
    ensures c.body.Placeholder? ==> c.body.text == (if isConnected then IdleText else DisconnectedText)
    ensures c.body.Entries? ==>
      |c.body.entries| == |updates| &&
      forall i :: 0 <= i < |updates| ==> c.body.entries[i] == RenderEntry(updates[i])
  {
    var body :=
      if |updates| == 0 then Placeholder(if isConnected then IdleText else DisconnectedText)
      else Entries(seq(|updates|, i requires 0 <= i < |updates| => RenderEntry(updates[i])));
    Card(!isConnected, |updates| > 0, body)
  }
}
