/**
 The notification record a push message carries, shared by the server that
 builds it and the service worker that displays it, and the brand constants
 both use.
 */
module Payload {
  import opened JsValue

  /** The ship emoji, the default icon, badge and title prefix. */
  const Ship: string := "\U{1F6A2}"

  /** The site a notification opens unless the message names another page. */
  const SiteUrl: string := "https://yachtsummary.com"

  /** The fields of a push message; a field the sender leaves out is `Undefined`. */
  datatype Notification = Notification(
    title: Value,
    body: Value,
    icon: Value,
    badge: Value,
    tag: Value,
    data: Value)

  /** The value `event.data.json()` yields for a message built from `n`. JSON
      text omits a property whose value is undefined; reading it back yields
      `undefined` either way, so such properties are kept here. */
  function ToJson(n: Notification): Value {
    Obj(map[
      "title" := n.title,
      "body" := n.body,
      "icon" := n.icon,
      "badge" := n.badge,
      "tag" := n.tag,
      "data" := n.data])
  }
}
