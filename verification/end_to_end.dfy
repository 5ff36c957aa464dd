/**
 What a user sees when a message the server sends reaches the service worker:
 the server's payload, read back from its JSON text, run through the `push`
 and `notificationclick` handlers.
 */
module EndToEnd {
  import opened JsValue
  import opened Payload
  import opened Delivery
  import opened Server
  import opened ServiceWorker

  /** The notification a delivered message shows. */
  function Displayed(p: Notification): Shown {
    OnPush(Parsed(ToJson(p)))
  }

  /** A message whose six fields are all truthy is shown exactly as sent. */
  lemma TruthyFieldsShownAsSent(p: Notification)
    requires Truthy(p.title) && Truthy(p.body) && Truthy(p.icon)
    requires Truthy(p.badge) && Truthy(p.tag) && Truthy(p.data)
    ensures var shown := Displayed(p);
      && shown.title == p.title && shown.options.body == p.body
      && shown.options.icon == p.icon && shown.options.badge == p.badge
      && shown.options.tag == p.tag && shown.options.data == p.data
  {
    var n := NotificationData(Parsed(ToJson(p)));
    assert FieldOf(n, "title") == p.title;
    assert FieldOf(n, "body") == p.body;
    assert FieldOf(n, "icon") == p.icon;
    assert FieldOf(n, "badge") == p.badge;
    assert FieldOf(n, "tag") == p.tag;
    assert FieldOf(n, "data") == p.data;
  }

  /** A /send-notification message shows the caller's title and body; its
      icon, badge and tag are never replaced by the service worker's own
      defaults, since the server already filled them in; and viewing it opens
      the site. */
  lemma SendNotificationDisplay(reg: Registry, body: Props, oracle: Oracle)
    requires Truthy(Field(body, "userId")) && Truthy(Field(body, "title")) && Truthy(Field(body, "body"))
    requires Truthy(Get(reg, Field(body, "userId")))
    ensures var st := SendNotification(reg, body, oracle);
      && |st.sent| == 1
      && var shown := Displayed(st.sent[0].payload);
      && shown.title == Field(body, "title")
      && shown.options.body == Field(body, "body")
      && shown.options.icon == BasicPayload(body).icon
      && shown.options.badge == BasicPayload(body).badge
      && shown.options.tag == BasicPayload(body).tag
      && OnClick("view", shown.options.data) == [Close, OpenTarget(Str(SiteUrl))]
  {
    var p := BasicPayload(body);
    assert SendNotification(reg, body, oracle).sent[0].payload == p;
    TruthyFieldsShownAsSent(p);
  }

  /** The test message carries no data, so the service worker falls back to
      its default data and viewing it opens the site. */
  lemma TestNotificationDisplay()
    ensures var shown := Displayed(TestPayload);
      && shown.title == TestPayload.title
      && shown.options.tag == Str("test-notification")
      && shown.options.data == DefaultNotification.data
      && OnClick("view", shown.options.data) == [Close, OpenTarget(Str(SiteUrl))]
  {
    var n := NotificationData(Parsed(ToJson(TestPayload)));
    assert FieldOf(n, "title") == TestPayload.title;
    assert FieldOf(n, "tag") == TestPayload.tag;
    assert FieldOf(n, "data") == DefaultNotification.data;
  }

  /** Viewing a /notify message opens the `url` of the caller's `data` object
      when it has that property, else the request's `url` field; a falsy
      choice opens "/", so a falsy `url` in `data` hides the request's. An
      explicit `url: null` is not replaced by the site's address, because the
      destructuring default applies only to `undefined`. */
  lemma NotifyClickTarget(f: NotifyFields, now: string)
    ensures var target := OnClick("view", Displayed(NotifyPayload(f, now)).options.data)[1];
      && ("url" in SpreadProps(f.data) && Truthy(SpreadProps(f.data)["url"]) ==>
           target == OpenTarget(SpreadProps(f.data)["url"]))
      && ("url" in SpreadProps(f.data) && !Truthy(SpreadProps(f.data)["url"]) ==>
           target == OpenTarget(Str("/")))
      && ("url" !in SpreadProps(f.data) && Truthy(f.url) ==> target == OpenTarget(f.url))
      && ("url" !in SpreadProps(f.data) && !Truthy(f.url) ==> target == OpenTarget(Str("/")))
  {
    var p := NotifyPayload(f, now);
    var n := NotificationData(Parsed(ToJson(p)));
    assert FieldOf(n, "data") == p.data;
  }
}
