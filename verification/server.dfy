/**
 The HTTP handlers of the relay as pure transitions: each takes the registry,
 the parsed request body and the push service's answers, and gives back the
 new registry, the response and the messages it handed to the push service.
 */
module Server {
  import opened Options
  import opened JsValue
  import opened OrderedMap
  import opened Payload
  import opened Delivery

  /** A handler's answer; `Status` gives its HTTP status code. */
  datatype Response =
    | Done(message: string)
    | SentTo(userId: Value)
    | BroadcastSummary(message: string, successCount: nat, failureCount: nat)
    | NotifyBroadcastSummary(message: string, successCount: nat, failureCount: nat, results: seq<SendResult>)
    | StatsReport(totalSubscriptions: nat, subscriptions: seq<Value>)
    | BadRequest(error: string)
    | NotFound(error: string)
    | DeliveryError(error: string, details: string)
  {
    function Status(): int {
      match this
      case BadRequest(_) => 400
      case NotFound(_) => 404
      case DeliveryError(_, _) => 500
      case _ => 200
    }
  }

  /** The registry after a request, the response, and the messages sent. */
  datatype Step = Step(reg: Registry, resp: Response, sent: seq<Attempt>)

  /** `subscriptions.get(userId)`: `undefined` for an unknown user. */
  function Get(reg: Registry, userId: Value): Value {
    match Lookup(reg, userId)
    case None => Undefined
    case Some(subscription) => subscription
  }

  /** The 404 answer for a user without a subscription. */
  function NotFoundFor(userId: Value): Response {
    NotFound("No subscription found for user: " + ToStr(userId))
  }

  /** The `message` of a broadcast answer. */
  function SummaryText(successCount: nat, failureCount: nat): string {
    "Broadcast sent to " + NatToString(successCount) + " users, " + NatToString(failureCount) + " failed"
  }

  /** In a well-formed registry the stored subscription is truthy exactly for
      registered users, so the `!subscription` test is a membership test. */
  lemma GetTruthyIffRegistered(reg: Registry, userId: Value)
    requires Wellformed(reg)
    ensures Truthy(Get(reg, userId)) <==> Has(reg, userId)
  {
    if j :| 0 <= j < |reg.entries| && reg.entries[j].0 == userId {
      LookupAt(reg, j);
    } else {
      LookupMissing(reg, userId);
    }
  }

  // ---------------------------------------------------------------------------
  // Registry handlers

  /** The key a subscription is stored under: `userId || 'anonymous'`. */
  function SubscriberKey(userId: Value): Value {
    Or(userId, Str("anonymous"))
  }

  /** POST /subscribe. A falsy subscription is refused and nothing changes.
      Otherwise the subscription is stored under the user id, or under
      "anonymous" when the id is falsy; every other user keeps their entry; a
      known key keeps its place in the key list and a new key comes last. */
  function Subscribe(reg: Registry, body: Props): (st: Step)
    ensures st.sent == []
    ensures var subscription, userId := Field(body, "subscription"), Field(body, "userId");
      && (!Truthy(subscription) ==> st.reg == reg && st.resp == BadRequest("Subscription is required"))
      && (Truthy(subscription) ==>
        && st.resp == Done("Subscribed to push notifications")
        && (Truthy(userId) ==> Lookup(st.reg, userId) == Some(subscription))
        && (!Truthy(userId) ==> Lookup(st.reg, Str("anonymous")) == Some(subscription))
        && (forall k :: k != SubscriberKey(userId) ==> Lookup(st.reg, k) == Lookup(reg, k))
        && (Has(reg, SubscriberKey(userId)) ==> Keys(st.reg) == Keys(reg))
        && (!Has(reg, SubscriberKey(userId)) ==> Keys(st.reg) == Keys(reg) + [SubscriberKey(userId)]))
    ensures Wellformed(reg) ==> Wellformed(st.reg)
  {
    var subscription := Field(body, "subscription");
    if !Truthy(subscription) then
      Step(reg, BadRequest("Subscription is required"), [])
    else
      var key := SubscriberKey(Field(body, "userId"));
      var reg' := Set(reg, key, subscription);
      assert Wellformed(reg) ==> Wellformed(reg') by {
        if Wellformed(reg) {
          forall i | 0 <= i < |reg'.entries|
            ensures Truthy(reg'.entries[i].0) && Truthy(reg'.entries[i].1)
          {
            var k := reg'.entries[i].0;
            LookupAt(reg', i);
            if k != key {
              var j :| 0 <= j < |reg.entries| && Keys(reg)[j] == k;
              LookupAt(reg, j);
            }
          }
        }
      }
      Step(reg', Done("Subscribed to push notifications"), [])
  }

  /** POST /unsubscribe. Always answers success; removes exactly the given
      user id when it is registered, keeping the other entries in their
      order, and otherwise changes nothing. An absent
      user id is `undefined`, which is never a key, so it does not remove the
      "anonymous" entry. */
  function Unsubscribe(reg: Registry, body: Props): (st: Step)
    ensures st.sent == [] && st.resp == Done("Unsubscribed from push notifications")
    ensures var userId := Field(body, "userId");
      && !Has(st.reg, userId)
      && (forall k :: k != userId ==> Lookup(st.reg, k) == Lookup(reg, k))
      && st.reg == Without(reg, {userId})
      && (!Has(reg, userId) ==> st.reg == reg)
    ensures Wellformed(reg) ==> Wellformed(st.reg)
  {
    var userId := Field(body, "userId");
    var reg' := if Has(reg, userId) then Delete(reg, userId) else reg;
    assert reg' == Delete(reg, userId);
    assert Wellformed(reg) ==> Wellformed(reg') by {
      if Wellformed(reg) {
        WithoutWellformed(reg, {userId});
      }
    }
    Step(reg', Done("Unsubscribed from push notifications"), [])
  }

  /** GET /stats. The total is the number of distinct registered users, and
      the list holds every registered user id once, in insertion order. */
  function Stats(reg: Registry): (resp: Response)
    ensures resp.StatsReport?
    ensures resp.totalSubscriptions == |ToMap(reg)|
    ensures |resp.subscriptions| == resp.totalSubscriptions == Size(reg)
    ensures forall k :: k in resp.subscriptions <==> Has(reg, k)
    ensures forall i :: 0 <= i < |reg.entries| ==> resp.subscriptions[i] == reg.entries[i].0
  {
    SizeIsKeyCount(reg);
    forall k
      ensures k in Keys(reg) <==> Has(reg, k)
    {
      HasIffListed(reg, k);
    }
    StatsReport(Size(reg), Keys(reg))
  }

  // ---------------------------------------------------------------------------
  // Sending to one user

  /** The eviction policy of a single send: a delivered message changes
      nothing and answers `ok`; a rejected one answers 500 with the error's
      message, and removes the user, and no one else, exactly when the status
      code is 410; the remaining users keep their order. */
  ghost predicate SendOutcome(reg: Registry, userId: Value, outcome: Outcome, ok: Response, failure: string, st: Step) {
    && (outcome.Delivered? ==> st.reg == reg && st.resp == ok)
    && (outcome.Rejected? ==> st.resp == DeliveryError(failure, outcome.message) && st.resp.Status() == 500)
    && (outcome.Rejected? && !outcome.Gone() ==> st.reg == reg)
    && (outcome.Gone() ==>
      && !Has(st.reg, userId)
      && (forall k :: k != userId ==> Lookup(st.reg, k) == Lookup(reg, k))
      && st.reg == Without(reg, {userId}))
  }

  /** The `try { await webpush.sendNotification(...) } catch` block of the
      single-user handlers. */
  function DeliverTo(reg: Registry, userId: Value, subscription: Value, payload: Notification,
                     outcome: Outcome, ok: Response, failure: string): (st: Step)
    ensures st.sent == [Attempt(subscription, payload)]
    ensures SendOutcome(reg, userId, outcome, ok, failure, st)
    ensures Wellformed(reg) ==> Wellformed(st.reg)
  {
    var sent := [Attempt(subscription, payload)];
    match outcome
    case Delivered => Step(reg, ok, sent)
    case Rejected(_, message) =>
      var reg' := if outcome.Gone() then Delete(reg, userId) else reg;
      assert Wellformed(reg) ==> Wellformed(reg') by {
        if Wellformed(reg) {
          WithoutWellformed(reg, {userId});
        }
      }
      Step(reg', DeliveryError(failure, message), sent)
  }

  /** What the single-user handlers share: a 400 when validation fails,
      decided before the registry is consulted; a 404 with nothing changed for
      a user without a subscription; otherwise one delivery attempt of the
      payload to the stored subscription, handled by the eviction policy. */
  ghost predicate SingleSend(reg: Registry, valid: bool, invalid: string, userId: Value, payload: Notification,
                             outcome: Outcome, ok: Response, failure: string, st: Step) {
    && (!valid ==> st == Step(reg, BadRequest(invalid), []) && st.resp.Status() == 400)
    && (valid && !Truthy(Get(reg, userId)) ==> st == Step(reg, NotFoundFor(userId), []) && st.resp.Status() == 404)
    && (valid && Truthy(Get(reg, userId)) ==>
      && st.sent == [Attempt(Get(reg, userId), payload)]
      && SendOutcome(reg, userId, outcome, ok, failure, st))
  }

  /** The path the single-user handlers share: validation, lookup, one
      delivery attempt. */
  function SendTo(reg: Registry, valid: bool, invalid: string, userId: Value, payload: Notification,
                  outcome: Outcome, ok: Response, failure: string): (st: Step)
    ensures SingleSend(reg, valid, invalid, userId, payload, outcome, ok, failure, st)
    ensures Wellformed(reg) ==> Wellformed(st.reg)
  {
    if !valid then
      Step(reg, BadRequest(invalid), [])
    else
      var subscription := Get(reg, userId);
      if !Truthy(subscription) then
        Step(reg, NotFoundFor(userId), [])
      else
        DeliverTo(reg, userId, subscription, payload, outcome, ok, failure)
  }

  /** The payload of /send-notification and /broadcast-notification: a truthy
      title, icon, badge or tag is kept and a falsy one replaced by its fixed
      default, so all four are truthy; the body is passed through and the data
      always points at the site. */
  function BasicPayload(body: Props): (p: Notification)
    ensures Truthy(p.title) && Truthy(p.icon) && Truthy(p.badge) && Truthy(p.tag)
    ensures Truthy(Field(body, "title")) ==> p.title == Field(body, "title")
    ensures !Truthy(Field(body, "title")) ==> p.title == Str(Ship + " YachtSummary")
    ensures p.body == Field(body, "body")
    ensures Truthy(Field(body, "icon")) ==> p.icon == Field(body, "icon")
    ensures !Truthy(Field(body, "icon")) ==> p.icon == Str(Ship)
    ensures Truthy(Field(body, "badge")) ==> p.badge == Field(body, "badge")
    ensures !Truthy(Field(body, "badge")) ==> p.badge == Str(Ship)
    ensures Truthy(Field(body, "tag")) ==> p.tag == Field(body, "tag")
    ensures !Truthy(Field(body, "tag")) ==> p.tag == Str("notification")
    ensures p.data == Obj(map["url" := Str(SiteUrl)])
  {
    Notification(
      Or(Field(body, "title"), Str(Ship + " YachtSummary")),
      Field(body, "body"),
      Or(Field(body, "icon"), Str(Ship)),
      Or(Field(body, "badge"), Str(Ship)),
      Or(Field(body, "tag"), Str("notification")),
      Obj(map["url" := Str(SiteUrl)]))
  }

  /** POST /send-notification. */
  function SendNotification(reg: Registry, body: Props, oracle: Oracle): (st: Step)
    ensures var userId := Field(body, "userId");
      SingleSend(reg, Truthy(userId) && Truthy(Field(body, "title")) && Truthy(Field(body, "body")),
                 "userId, title, and body are required", userId, BasicPayload(body), oracle(0),
                 Done("Notification sent successfully"), "Failed to send notification", st)
    ensures Wellformed(reg) ==> Wellformed(st.reg)
  {
    var userId := Field(body, "userId");
    SendTo(reg, Truthy(userId) && Truthy(Field(body, "title")) && Truthy(Field(body, "body")),
           "userId, title, and body are required", userId, BasicPayload(body), oracle(0),
           Done("Notification sent successfully"), "Failed to send notification")
  }

  /** The test message of /test-notification; it carries no data. */
  const TestPayload := Notification(
    Str("\U{2713} Test Notification"),
    Str("Push notifications are working perfectly!"),
    Str(Ship),
    Str(Ship),
    Str("test-notification"),
    Undefined)

  /** POST /test-notification. */
  function TestNotification(reg: Registry, body: Props, oracle: Oracle): (st: Step)
    ensures SingleSend(reg, Truthy(Field(body, "userId")), "userId is required", Field(body, "userId"),
                       TestPayload, oracle(0), Done("Test notification sent!"),
                       "Failed to send test notification", st)
    ensures Wellformed(reg) ==> Wellformed(st.reg)
  {
    var userId := Field(body, "userId");
    SendTo(reg, Truthy(userId), "userId is required", userId, TestPayload, oracle(0),
           Done("Test notification sent!"), "Failed to send test notification")
  }

  // ---------------------------------------------------------------------------
  // Priority markers

  /** The priority levels of /notify, each shown as a coloured marker. */
  datatype Priority = Low | Normal | Medium | High | Urgent

  /** The name a request uses for a level. */
  function Name(p: Priority): string {
    match p
    case Low => "low"
    case Normal => "normal"
    case Medium => "medium"
    case High => "high"
    case Urgent => "urgent"
  }

  /** The marker put before the title: green, blue, yellow and red circles
      and a siren. */
  function Marker(p: Priority): string {
    match p
    case Low => "\U{1F7E2}"
    case Normal => "\U{1F535}"
    case Medium => "\U{1F7E1}"
    case High => "\U{1F534}"
    case Urgent => "\U{1F6A8}"
  }

  /** `priorityEmojis[priority] || '🔵'`: the level named by the property key,
      and the normal level when no level has that name. */
  function NotifyPriority(key: string): (p: Priority)
    ensures Name(p) == key || (p == Normal && forall q :: Name(q) != key)
  {
    if key == "low" then Low
    else if key == "normal" then Normal
    else if key == "medium" then Medium
    else if key == "high" then High
    else if key == "urgent" then Urgent
    else Normal
  }

  /** The marker of /notify-new-lead, compared by strict equality. */
  function LeadPriority(priority: Value): Priority {
    if priority == Str("high") then High
    else if priority == Str("medium") then Medium
    else Low
  }

  /** The lead marker agrees with the /notify table on "high", "medium" and
      "low", is never the normal or urgent marker, and is the low marker for
      every other value, "normal", "urgent" and an absent priority included. */
  lemma LeadPriorityVersusNotify(priority: Value)
    ensures LeadPriority(priority) in {Low, Medium, High}
    ensures priority in {Str("high"), Str("medium"), Str("low")} ==>
      LeadPriority(priority) == NotifyPriority(ToStr(priority))
    ensures priority !in {Str("high"), Str("medium")} ==> LeadPriority(priority) == Low
  {
  }

  // ---------------------------------------------------------------------------
  // /notify

  /** The request fields /notify reads, after the destructuring defaults,
      which apply only to `undefined`. */
  datatype NotifyFields = NotifyFields(
    userId: Value,
    title: Value,
    body: Value,
    icon: Value,
    badge: Value,
    tag: Value,
    url: Value,
    kind: Value,
    priority: Value,
    data: Value,
    broadcast: Value)

  function ReadNotifyFields(body: Props): NotifyFields {
    NotifyFields(
      Field(body, "userId"),
      Field(body, "title"),
      Field(body, "body"),
      Default(Field(body, "icon"), Str(Ship)),
      Default(Field(body, "badge"), Str(Ship)),
      Default(Field(body, "tag"), Str("notification")),
      Default(Field(body, "url"), Str(SiteUrl)),
      Default(Field(body, "type"), Str("general")),
      Default(Field(body, "priority"), Str("normal")),
      Default(Field(body, "data"), Obj(map[])),
      Default(Field(body, "broadcast"), Bool(false)))
  }

  /** The data of a /notify message: `url`, `type`, `priority` and
      `timestamp` from the request, each overridden by a property of the
      caller's `data` object of the same name, since the spread comes last;
      the caller's other properties are added as they are. */
  function NotifyData(f: NotifyFields, now: string): (data: Props)
    ensures forall k :: k in SpreadProps(f.data) ==> Field(data, k) == SpreadProps(f.data)[k]
    ensures "url" !in SpreadProps(f.data) ==> Field(data, "url") == f.url
    ensures "type" !in SpreadProps(f.data) ==> Field(data, "type") == f.kind
    ensures "priority" !in SpreadProps(f.data) ==> Field(data, "priority") == f.priority
    ensures "timestamp" !in SpreadProps(f.data) ==> Field(data, "timestamp") == Str(now)
    ensures data.Keys == {"url", "type", "priority", "timestamp"} + SpreadProps(f.data).Keys
  {
    map["url" := f.url, "type" := f.kind, "priority" := f.priority, "timestamp" := Str(now)]
      + SpreadProps(f.data)
  }

  /** The message /notify sends. The title is the marker of the level the
      priority names, or the normal marker when no level has that name,
      followed by a space and the title's text. Body, icon, badge and tag are
      the request's. Reading the data's properties gives the caller's `data`
      property where it has one, and otherwise the request's url, type and
      priority and the current time; no other property is set. */
  function NotifyPayload(f: NotifyFields, now: string): (p: Notification)
    ensures forall q :: Name(q) == ToStr(f.priority) ==>
      p.title == Str(Marker(q) + " " + ToStr(f.title))
    ensures (forall q :: Name(q) != ToStr(f.priority)) ==>
      p.title == Str(Marker(Normal) + " " + ToStr(f.title))
    ensures p.body == f.body && p.icon == f.icon && p.badge == f.badge && p.tag == f.tag
    ensures forall k :: k in SpreadProps(f.data) ==> Property(p.data, k) == SpreadProps(f.data)[k]
    ensures "url" !in SpreadProps(f.data) ==> Property(p.data, "url") == f.url
    ensures "type" !in SpreadProps(f.data) ==> Property(p.data, "type") == f.kind
    ensures "priority" !in SpreadProps(f.data) ==> Property(p.data, "priority") == f.priority
    ensures "timestamp" !in SpreadProps(f.data) ==> Property(p.data, "timestamp") == Str(now)
    ensures forall k :: k !in SpreadProps(f.data) && k !in {"url", "type", "priority", "timestamp"} ==>
      Property(p.data, k) == Undefined
  {
    Notification(
      Str(Marker(NotifyPriority(ToStr(f.priority))) + " " + ToStr(f.title)),
      f.body, f.icon, f.badge, f.tag,
      Obj(NotifyData(f, now)))
  }

  /** POST /notify. A falsy title or body is a 400; without a truthy
      `broadcast` a falsy user id is a 400. With `broadcast` every registered
      user gets one attempt, in registry order, and the answer counts and
      lists them; gone subscriptions are evicted. Otherwise it is a
      single-user send. */
  function Notify(reg: Registry, body: Props, oracle: Oracle, now: string): (st: Step)
    ensures var f := ReadNotifyFields(body);
      && (!Truthy(f.title) || !Truthy(f.body) ==>
        st == Step(reg, BadRequest("title and body are required"), []))
      && (Truthy(f.title) && Truthy(f.body) && !Truthy(f.broadcast) ==>
        SingleSend(reg, Truthy(f.userId),
                   "userId is required for individual notifications, or set broadcast: true",
                   f.userId, NotifyPayload(f, now), oracle(0), SentTo(f.userId),
                   "Failed to send notification", st))
      && (Truthy(f.title) && Truthy(f.body) && Truthy(f.broadcast) ==>
        && st.resp.NotifyBroadcastSummary?
        && st.resp.successCount + st.resp.failureCount == Size(reg)
        && st.resp.successCount == CountDelivered(oracle, Size(reg))
        && st.resp.message == SummaryText(st.resp.successCount, st.resp.failureCount)
        && |st.resp.results| == Size(reg)
        && (forall i :: 0 <= i < Size(reg) ==>
          && st.resp.results[i].userId == reg.entries[i].0
          && (st.resp.results[i].Sent? <==> oracle(i).Delivered?)
          && (st.resp.results[i].NotSent? ==> st.resp.results[i].error == oracle(i).message))
        && |st.sent| == Size(reg)
        && (forall i :: 0 <= i < Size(reg) ==> st.sent[i] == Attempt(reg.entries[i].1, NotifyPayload(f, now)))
        && st.reg == Without(reg, GoneKeys(reg.entries, oracle))
        && Size(st.reg) == Size(reg) - CountGone(oracle, Size(reg)))
    ensures Wellformed(reg) ==> Wellformed(st.reg)
  {
    var f := ReadNotifyFields(body);
    if !Truthy(f.title) || !Truthy(f.body) then
      Step(reg, BadRequest("title and body are required"), [])
    else if Truthy(f.broadcast) then
      var out := BroadcastToAll(reg, oracle, NotifyPayload(f, now));
      Step(out.reg,
           NotifyBroadcastSummary(SummaryText(out.successCount, out.failureCount),
                                  out.successCount, out.failureCount, out.results),
           out.sent)
    else
      SendTo(reg, Truthy(f.userId), "userId is required for individual notifications, or set broadcast: true",
             f.userId, NotifyPayload(f, now), oracle(0), SentTo(f.userId), "Failed to send notification")
  }

  /** A broadcast over the registry's own entries shrinks it by the number of
      "gone" answers. */
  lemma BroadcastOverRegistry(reg: Registry, oracle: Oracle, payload: Notification)
    ensures Size(Broadcast(reg, reg.entries, oracle, payload).reg) == Size(reg) - CountGone(oracle, Size(reg))
  {
    forall j | 0 <= j < |reg.entries|
      ensures Has(reg, reg.entries[j].0)
    {
      LookupAt(reg, j);
    }
    BroadcastShrinksByGone(reg, reg.entries, oracle, payload);
  }

  /** The loop over every registered user shared by the two broadcast
      handlers: one attempt per user in registry order, counted and listed,
      with exactly the 410 answers evicted. */
  function BroadcastToAll(reg: Registry, oracle: Oracle, payload: Notification): (out: Fanout)
    ensures out.successCount + out.failureCount == Size(reg)
    ensures out.successCount == CountDelivered(oracle, Size(reg))
    ensures |out.results| == Size(reg)
    ensures forall i :: 0 <= i < Size(reg) ==>
      && out.results[i].userId == reg.entries[i].0
      && (out.results[i].Sent? <==> oracle(i).Delivered?)
      && (out.results[i].NotSent? ==> out.results[i].error == oracle(i).message)
    ensures |out.sent| == Size(reg)
    ensures forall i :: 0 <= i < Size(reg) ==> out.sent[i] == Attempt(reg.entries[i].1, payload)
    ensures out.reg == Without(reg, GoneKeys(reg.entries, oracle))
    ensures Size(out.reg) == Size(reg) - CountGone(oracle, Size(reg))
    ensures Wellformed(reg) ==> Wellformed(out.reg)
  {
    BroadcastEvictsGone(reg, reg.entries, oracle, payload);
    BroadcastOverRegistry(reg, oracle, payload);
    Broadcast(reg, reg.entries, oracle, payload)
  }

  /** POST /broadcast-notification: like the broadcast branch of /notify with
      the basic payload and without the per-user list. */
  function BroadcastNotification(reg: Registry, body: Props, oracle: Oracle): (st: Step)
    ensures !Truthy(Field(body, "title")) || !Truthy(Field(body, "body")) ==>
      st == Step(reg, BadRequest("title and body are required"), [])
    ensures Truthy(Field(body, "title")) && Truthy(Field(body, "body")) ==>
      && st.resp.BroadcastSummary?
      && st.resp.successCount + st.resp.failureCount == Size(reg)
      && st.resp.successCount == CountDelivered(oracle, Size(reg))
      && st.resp.message == SummaryText(st.resp.successCount, st.resp.failureCount)
      && |st.sent| == Size(reg)
      && (forall i :: 0 <= i < Size(reg) ==> st.sent[i] == Attempt(reg.entries[i].1, BasicPayload(body)))
      && st.reg == Without(reg, GoneKeys(reg.entries, oracle))
      && Size(st.reg) == Size(reg) - CountGone(oracle, Size(reg))
    ensures Wellformed(reg) ==> Wellformed(st.reg)
  {
    if !Truthy(Field(body, "title")) || !Truthy(Field(body, "body")) then
      Step(reg, BadRequest("title and body are required"), [])
    else
      var payload := BasicPayload(body);
      var out := BroadcastToAll(reg, oracle, payload);
      Step(out.reg,
           BroadcastSummary(SummaryText(out.successCount, out.failureCount),
                            out.successCount, out.failureCount),
           out.sent)
  }

  // ---------------------------------------------------------------------------
  // /notify-new-lead

  /** The message /notify-new-lead sends. The title starts with the red
      marker for exactly "high", the yellow one for exactly "medium" and the
      green one for anything else, then names the client; the body names the
      yacht. The data opens the site and carries the lead's type, client,
      yacht and priority as given. */
  function LeadPayload(body: Props): (p: Notification)
    ensures var client := ToStr(Field(body, "clientName"));
      && (Field(body, "priority") == Str("high") ==> p.title == Str(Marker(High) + " New Lead: " + client))
      && (Field(body, "priority") == Str("medium") ==> p.title == Str(Marker(Medium) + " New Lead: " + client))
      && (Field(body, "priority") !in {Str("high"), Str("medium")} ==>
        p.title == Str(Marker(Low) + " New Lead: " + client))
    ensures p.body == Str("Interested in: " + ToStr(Field(body, "yachtName")))
    ensures p.icon == Str(Ship) && p.badge == Str(Ship) && p.tag == Str("new-lead")
    ensures Property(p.data, "url") == Str(SiteUrl)
    ensures Property(p.data, "type") == Str("new_lead")
    ensures Property(p.data, "clientName") == Field(body, "clientName")
    ensures Property(p.data, "yachtName") == Field(body, "yachtName")
    ensures Property(p.data, "priority") == Field(body, "priority")
  {
    Notification(
      Str(Marker(LeadPriority(Field(body, "priority"))) + " New Lead: " + ToStr(Field(body, "clientName"))),
      Str("Interested in: " + ToStr(Field(body, "yachtName"))),
      Str(Ship),
      Str(Ship),
      Str("new-lead"),
      Obj(map[
        "url" := Str(SiteUrl),
        "type" := Str("new_lead"),
        "clientName" := Field(body, "clientName"),
        "yachtName" := Field(body, "yachtName"),
        "priority" := Field(body, "priority")]))
  }

  /** POST /notify-new-lead. */
  function NotifyNewLead(reg: Registry, body: Props, oracle: Oracle): (st: Step)
    ensures var userId := Field(body, "userId");
      SingleSend(reg, Truthy(userId) && Truthy(Field(body, "clientName")) && Truthy(Field(body, "yachtName")),
                 "userId, clientName, and yachtName are required", userId, LeadPayload(body), oracle(0),
                 Done("Lead notification sent!"), "Failed to send lead notification", st)
    ensures Wellformed(reg) ==> Wellformed(st.reg)
  {
    var userId := Field(body, "userId");
    SendTo(reg, Truthy(userId) && Truthy(Field(body, "clientName")) && Truthy(Field(body, "yachtName")),
           "userId, clientName, and yachtName are required", userId, LeadPayload(body), oracle(0),
           Done("Lead notification sent!"), "Failed to send lead notification")
  }

  // ---------------------------------------------------------------------------
  // The server as a whole

  /** A request to one of the modelled endpoints, with the push service's
      answers for the deliveries it causes and, for /notify, the clock. */
  datatype Request =
    | SubscribeRequest(body: Props)
    | UnsubscribeRequest(body: Props)
    | SendNotificationRequest(body: Props, oracle: Oracle)
    | BroadcastNotificationRequest(body: Props, oracle: Oracle)
    | StatsRequest
    | TestNotificationRequest(body: Props, oracle: Oracle)
    | NotifyRequest(body: Props, oracle: Oracle, now: string)
    | NotifyNewLeadRequest(body: Props, oracle: Oracle)

  /** Routing a request to its handler; every handler keeps the registry well formed. */
  function Handle(reg: Registry, req: Request): (st: Step)
    ensures Wellformed(reg) ==> Wellformed(st.reg)
    ensures req.StatsRequest? ==> st.reg == reg
  {
    match req
    case SubscribeRequest(body) => Subscribe(reg, body)
    case UnsubscribeRequest(body) => Unsubscribe(reg, body)
    case SendNotificationRequest(body, oracle) => SendNotification(reg, body, oracle)
    case BroadcastNotificationRequest(body, oracle) => BroadcastNotification(reg, body, oracle)
    case StatsRequest => Step(reg, Stats(reg), [])
    case TestNotificationRequest(body, oracle) => TestNotification(reg, body, oracle)
    case NotifyRequest(body, oracle, now) => Notify(reg, body, oracle, now)
    case NotifyNewLeadRequest(body, oracle) => NotifyNewLead(reg, body, oracle)
  }

  /** The registry after serving `reqs` one after another from server start. */
  function Run(reqs: seq<Request>): Registry
    decreases |reqs|
  {
    if |reqs| == 0 then Empty()
    else Handle(Run(reqs[..|reqs| - 1]), reqs[|reqs| - 1]).reg
  }

  /** Whatever requests have been served, every key and every stored
      subscription is truthy; so a lookup finds a truthy subscription exactly
      for a registered user, and 404 means "not registered". */
  lemma {:induction false} ReachableRegistryWellformed(reqs: seq<Request>)
    ensures Wellformed(Run(reqs))
    ensures forall userId :: Truthy(Get(Run(reqs), userId)) <==> Has(Run(reqs), userId)
    decreases |reqs|
  {
    if |reqs| > 0 {
      ReachableRegistryWellformed(reqs[..|reqs| - 1]);
    }
    forall userId
      ensures Truthy(Get(Run(reqs), userId)) <==> Has(Run(reqs), userId)
    {
      GetTruthyIffRegistered(Run(reqs), userId);
    }
  }

  // ---------------------------------------------------------------------------
  // Properties relating several requests

  /** Subscribing again under a registered key replaces the subscription but
      leaves /stats' total and key list as they were. */
  lemma ResubscribeKeepsStats(reg: Registry, body: Props)
    requires Truthy(Field(body, "subscription"))
    requires Has(reg, SubscriberKey(Field(body, "userId")))
    ensures Stats(Subscribe(reg, body).reg) == Stats(reg)
    ensures Lookup(Subscribe(reg, body).reg, SubscriberKey(Field(body, "userId"))) == Some(Field(body, "subscription"))
  {
  }

  /** Subscribing without a user id and then unsubscribing without one leaves
      the subscription under "anonymous": `has(undefined)` is false. */
  lemma AnonymousSurvivesBareUnsubscribe(reg: Registry, subscription: Value)
    requires Truthy(subscription)
    ensures var after := Unsubscribe(Subscribe(reg, map["subscription" := subscription]).reg, map[]).reg;
      Lookup(after, Str("anonymous")) == Some(subscription)
  {
    var reg1 := Subscribe(reg, map["subscription" := subscription]).reg;
    assert Field(map[], "userId") == Undefined;
  }

  /** With a truthy `broadcast`, /notify does not look at the user id: two
      requests that differ only there have the same effect. */
  lemma NotifyBroadcastIgnoresUserId(reg: Registry, body: Props, userId: Value, oracle: Oracle, now: string)
    requires Truthy(ReadNotifyFields(body).broadcast)
    ensures Notify(reg, body["userId" := userId], oracle, now) == Notify(reg, body, oracle, now)
  {
    var body' := body["userId" := userId];
    assert forall k :: k != "userId" ==> Field(body', k) == Field(body, k);
    var f, f' := ReadNotifyFields(body), ReadNotifyFields(body');
    assert f'.title == f.title && f'.body == f.body && f'.broadcast == f.broadcast;
    assert NotifyPayload(f', now) == NotifyPayload(f, now);
  }

  /** The broadcast scenario: when every attempt is either delivered or
      reports the subscription gone, the failures are exactly the evictions
      and the registry keeps one entry per success. */
  lemma BroadcastAllOrGone(reg: Registry, body: Props, oracle: Oracle)
    requires Truthy(Field(body, "title")) && Truthy(Field(body, "body"))
    requires forall i :: 0 <= i < Size(reg) ==> oracle(i).Delivered? || oracle(i).Gone()
    ensures var st := BroadcastNotification(reg, body, oracle);
      && st.resp.failureCount == CountGone(oracle, Size(reg))
      && Size(st.reg) == st.resp.successCount
  {
    CountsSplit(oracle, Size(reg));
  }

  /** When every attempt is delivered or gone, the two counts add up. */
  lemma {:induction false} CountsSplit(oracle: Oracle, n: nat)
    requires forall i :: 0 <= i < n ==> oracle(i).Delivered? || oracle(i).Gone()
    ensures CountDelivered(oracle, n) + CountGone(oracle, n) == n
  {
    if n > 0 {
      CountsSplit(oracle, n - 1);
    }
  }
}
