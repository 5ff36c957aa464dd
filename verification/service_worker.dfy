/**
 The browser side of a push: the service worker's `push` handler, which merges
 the pushed JSON field by field onto a default notification and shows it, and
 its `notificationclick` handler, which closes the notification and decides
 which page to open.
 */
module ServiceWorker {
  import opened JsValue
  import opened Payload

  /** The notification shown when the push carries nothing usable. */
  const DefaultNotification := Notification(
    Str(Ship + " YachtSummary"),
    Str("You have a new notification"),
    Str("/icon-192x192.png"),
    Str("/badge-72x72.png"),
    Str("yacht-notification"),
    Obj(map["url" := Str(SiteUrl)]))

  /** What `event.data` holds: no data at all, bytes that are not JSON (so
      `json()` throws), or the parsed JSON value. */
  datatype PushData = NoData | NotJson | Parsed(json: Value)

  /** The six fields the merge reads, by name. */
  const FieldNames: set<string> := {"title", "body", "icon", "badge", "tag", "data"}

  function FieldOf(n: Notification, name: string): Value {
    match name
    case "title" => n.title
    case "body" => n.body
    case "icon" => n.icon
    case "badge" => n.badge
    case "tag" => n.tag
    case "data" => n.data
    case _ => Undefined
  }

  /** `{ title: pushData.title || base.title, ... }`: each field is the pushed
      one when truthy and the base one otherwise. */
  function Merge(pushed: Value, base: Notification): Notification {
    Notification(
      Or(Property(pushed, "title"), base.title),
      Or(Property(pushed, "body"), base.body),
      Or(Property(pushed, "icon"), base.icon),
      Or(Property(pushed, "badge"), base.badge),
      Or(Property(pushed, "tag"), base.tag),
      Or(Property(pushed, "data"), base.data))
  }

  /** The record the `push` handler ends with. Without data, with data that
      is not JSON, or with JSON `null` (whose property reads throw), it is the
      default record as a whole: nothing is half overwritten. Otherwise each
      field independently takes the pushed value when that is truthy and the
      default otherwise; `data` in particular is replaced wholesale. */
  function NotificationData(push: PushData): (n: Notification)
    ensures push.NoData? || push.NotJson? || (push.Parsed? && Nullish(push.json)) ==>
      n == DefaultNotification
    ensures push.Parsed? && !Nullish(push.json) ==>
      forall name | name in FieldNames ::
        && (Truthy(Property(push.json, name)) ==> FieldOf(n, name) == Property(push.json, name))
        && (!Truthy(Property(push.json, name)) ==> FieldOf(n, name) == FieldOf(DefaultNotification, name))
    ensures forall name | name in FieldNames :: Truthy(FieldOf(n, name))
  {
    match push
    case NoData => DefaultNotification
    case NotJson => DefaultNotification
    case Parsed(json) => if Nullish(json) then DefaultNotification else Merge(json, DefaultNotification)
  }

  /** A button offered on the notification. */
  datatype Action = Action(action: string, title: string, icon: string)

  /** The `options` argument of `showNotification`. */
  datatype NotificationOptions = NotificationOptions(
    body: Value,
    icon: Value,
    badge: Value,
    tag: Value,
    data: Value,
    requireInteraction: bool,
    actions: seq<Action>)

  /** `self.registration.showNotification(title, options)`. */
  datatype Shown = Shown(title: Value, options: NotificationOptions)

  /** The `push` handler: shows the merged record, kept on screen until the
      user acts, with a "view" and a "dismiss" button. */
  function OnPush(push: PushData): (shown: Shown)
    ensures var n := NotificationData(push);
      && shown.title == n.title
      && shown.options.body == n.body
      && shown.options.icon == n.icon
      && shown.options.badge == n.badge
      && shown.options.tag == n.tag
      && shown.options.data == n.data
    ensures shown.options.requireInteraction
    ensures |shown.options.actions| == 2
    ensures shown.options.actions[0].action == "view" && shown.options.actions[1].action == "dismiss"
  {
    var n := NotificationData(push);
    Shown(n.title, NotificationOptions(
      n.body, n.icon, n.badge, n.tag, n.data, true,
      [Action("view", "View Details", "/icon-192x192.png"),
       Action("dismiss", "Dismiss", "/icon-192x192.png")]))
  }

  /** What a click does, in order. `OpenTarget(url)` is the page the click
      resolves to: it is opened in a new window unless a window of the app is
      already open, which is focused instead. */
  datatype ClickEffect = Close | OpenTarget(url: Value)

  /** The `notificationclick` handler, given the clicked action ("" for the
      notification body) and the notification's data. The notification is
      closed first; "dismiss" does nothing more; anything else resolves to the
      data's `url` when truthy and to "/" otherwise, so never to an empty
      target. */
  function OnClick(action: string, data: Value): (effects: seq<ClickEffect>)
    ensures |effects| >= 1 && effects[0] == Close
    ensures action == "dismiss" <==> |effects| == 1
    ensures action != "dismiss" ==> |effects| == 2 && effects[1].OpenTarget? && Truthy(effects[1].url)
    ensures action != "dismiss" && Truthy(OptionalProperty(data, "url")) ==>
      effects[1] == OpenTarget(OptionalProperty(data, "url"))
    ensures action != "dismiss" && !Truthy(OptionalProperty(data, "url")) ==>
      effects[1] == OpenTarget(Str("/"))
  {
    if action == "dismiss" then [Close]
    else [Close, OpenTarget(Or(OptionalProperty(data, "url"), Str("/")))]
  }

  /** Because the pushed `data` replaces the default one instead of being
      merged into it, a push whose `data` is an object without a truthy `url`
      opens "/" rather than the site's default page. */
  lemma PushedDataReplacesDefault(pushed: Props)
    requires "data" in pushed && pushed["data"].Obj?
    requires !Truthy(Property(pushed["data"], "url"))
    ensures var shown := OnPush(Parsed(Obj(pushed)));
      OnClick("view", shown.options.data) == [Close, OpenTarget(Str("/"))]
  {
    var n := NotificationData(Parsed(Obj(pushed)));
    assert FieldOf(n, "data") == pushed["data"];
  }
}
