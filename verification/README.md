# YachtSummary push relay, modelled in Dafny

The relay is a small web server. It keeps browser push subscriptions in memory, keyed by user id. It forwards notification messages to those subscriptions through a push service, and it evicts a subscription when the push service reports it gone (HTTP 410). This project models two parts of it:

- **The server's registry and request handlers.** These are /subscribe, /unsubscribe, /send-notification, /broadcast-notification, /stats, /test-notification, /notify and /notify-new-lead, in `server.js`. Each handler is a pure function. It takes the registry, the parsed request body and the push service's answers. It returns the new registry, the response and the list of messages handed to the push service.
- **The service worker.** This covers the `push` handler, which merges the received JSON onto a default notification and shows it, and the `notificationclick` handler, which closes the notification and picks the page to open. Both are in `web/sw.js`.

Modules:

- `JsValue` (`js_value.dfy`): JavaScript values, including the difference between truthiness (`||`) and destructuring defaults, which apply only to `undefined`. It also has property reads, object spread, and the decimal rendering of numbers in template strings.
- `OrderedMap` (`ordered_map.dfy`): a JavaScript `Map` as an insertion-ordered list with unique keys. `set` replaces a value in place or appends a new key; `delete` removes one entry. It includes lemmas tying it to a mathematical map.
- `Payload` (`payload.dfy`): the notification record the server sends and the service worker reads.
- `Delivery` (`delivery.dfy`): the registry type, the push service's answers, and the broadcast loop with its eviction of gone subscriptions.
- `Server` (`server.dfy`): the handlers, the router, and properties of sequences of requests.
- `ServiceWorker` (`service_worker.dfy`): the `push` and `notificationclick` handlers.
- `EndToEnd` (`end_to_end.dfy`): what a user sees and opens for each kind of message the server sends.

The push service is an *oracle* `nat -> Outcome`: the answer to the i-th delivery attempt of a request. That answer is either delivered, or rejected with a status code and a message. The broadcast loop walks the registry's entries in insertion order, and a 410 deletes the current entry. A JavaScript `Map` iterator visits every entry present at the start that has not been deleted. The loop deletes only entries it has already visited, and requests are served one at a time. So the model iterates over the entries as they were when the loop began.

An unsubscribe without a user id does not remove the "anonymous" subscription: `subscriptions.has(undefined)` is false, because `undefined` is never stored as a key (server.js:63). See `Server.AnonymousSurvivesBareUnsubscribe`.

## Model

| member | source | states |
|---|---|---|
| OrderedMap.Find | server.js:79 | Lookup finds the position of the first, and in a unique-key list the only, entry with the key, and finds nothing exactly when no entry has it |
| OrderedMap.Set | server.js:53 | `Map.set` makes the key map to the value, leaves every other key's value alone, keeps the key order when the key was present and appends the key otherwise |
| OrderedMap.Delete | server.js:64 | `Map.delete` removes the key, leaves every other key's value alone, shrinks the size by one exactly when the key was present, and keeps the order of the remaining entries |
| OrderedMap.SetIsMapUpdate | server.js:53 | Setting a key in the ordered map is updating the abstract map at that key |
| OrderedMap.DeleteIsMapRemoval | server.js:64 | Deleting a key from the ordered map is removing it from the abstract map |
| OrderedMap.SizeIsKeyCount | server.js:161 | The map's `size` is the number of distinct keys it holds |
| JsValue.NatToString | server.js:152 | A count is rendered as a non-empty string of decimal digits without a leading zero |
| JsValue.NatToStringRoundTrip | server.js:152 | Reading the rendered digits back as a decimal number gives the count |
| Delivery.Broadcast | server.js:131-148 | One attempt per target in order; the success and failure counts add up to the number of targets; the success count is the number of delivered answers; per-target result carries the user id, success exactly for delivered answers and the error message otherwise; every attempt sends the same payload to the target's subscription; a well-formed registry stays well formed |
| Delivery.BroadcastEvictsGone | server.js:143-146 | After the loop the registry is the initial one minus exactly the users whose delivery answered 410, with the rest in their original order |
| Delivery.BroadcastShrinksByGone | server.js:134-147 | For distinct registered targets the registry shrinks by exactly the number of 410 answers |
| Server.GetTruthyIffRegistered | server.js:79-83 | In a well-formed registry `get` yields a truthy subscription exactly for registered users, so the 404 test is a membership test |
| Server.Subscribe | server.js:45-57 | A falsy subscription is a 400 that changes nothing; otherwise the subscription is stored under the user id or "anonymous" for a falsy id, no other entry changes, a known key keeps its place and a new key comes last |
| Server.Unsubscribe | server.js:60-69 | Always succeeds; afterwards the id is not registered, no other entry changes, the result is the registry with that id filtered out and the survivors in their order, and an unknown id leaves the registry as it was |
| Server.Stats | server.js:159-164 | The total is the number of distinct users and equals the list's length; the list holds exactly the registered ids, in insertion order |
| Server.DeliverTo | server.js:96-109 | One message goes to the subscription; delivery answers success and changes nothing; a rejection answers 500 with the error's message and evicts that user, and only that user, exactly on status 410, the remaining users keeping their order |
| Server.BasicPayload | server.js:85-94 | A truthy title, icon, badge or tag is kept and a falsy one replaced by its default (the ship title, the ship emoji for icon and badge, "notification" for the tag); the body is passed through; the data points at the site |
| Server.SendTo | server.js:288-315 | The single-user path: a failed validation is a 400 with nothing changed and nothing sent, an unregistered user a 404 with nothing changed, and otherwise one delivery attempt under the eviction policy |
| Server.SendNotification | server.js:72-110 | 400 unless user id, title and body are truthy, decided before the lookup; 404 with nothing changed for an unregistered user; otherwise one delivery of the basic payload under the eviction policy: success changes nothing, a rejection is a 500 with its message, and a 410 filters out that user alone with the others kept in order |
| Server.TestNotification | server.js:167-201 | 400 without a user id; 404 for an unregistered user; otherwise one delivery of the fixed test message under the eviction policy: success changes nothing, a rejection is a 500 with its message, and a 410 filters out that user alone with the others kept in order |
| Server.NotifyPriority | server.js:229-237 | The marker level is the one the priority names, and the normal level when no level has that name |
| Server.LeadPriorityVersusNotify | server.js:326 | The lead marker matches the /notify table for "high", "medium" and "low", is never the normal or urgent marker, and is the low marker for every other value |
| Server.NotifyData | server.js:246-252 | The message data holds url, type, priority and timestamp, each overridden by a same-named property of the caller's data object, plus every other property of that object |
| Server.NotifyPayload | server.js:240-253 | The title is the marker of the level the priority names, or the normal marker when no level has that name, then a space and the title's text; body, icon, badge and tag are the request's after destructuring defaults; each data property is the caller's `data` property of that name when present, else the request's url, type or priority or the timestamp, and no other property is set |
| Server.Notify | server.js:204-316 | 400 for a falsy title or body, then 400 for a falsy user id without broadcast; a broadcast makes one attempt per registered user in order, reports the counts and per-user results with each failure's error message, and evicts exactly the 410 answers; otherwise a single-user send answering with the user id |
| Server.BroadcastToAll | server.js:259-277 | One attempt per registered user in registry order; counts, per-user results with error messages, and eviction of exactly the 410 answers with the survivors in order |
| Server.BroadcastNotification | server.js:113-156 | 400 for a falsy title or body; otherwise one attempt per registered user in order with the basic payload, the summary message built from the counts, and eviction of exactly the 410 answers |
| Server.LeadPayload | server.js:334-347 | The title starts with the red marker for exactly "high", the yellow one for exactly "medium" and the green one otherwise, then "New Lead: " and the client name; the body names the yacht; icon and badge are the ship, the tag is "new-lead"; the data carries the site url, type "new_lead", the client and yacht names and the priority as given |
| Server.NotifyNewLead | server.js:319-362 | 400 unless user id, client name and yacht name are truthy; 404 for an unregistered user; otherwise one delivery of the lead payload under the eviction policy: success changes nothing, a rejection is a 500 with its message, and a 410 filters out that user alone with the others kept in order |
| Server.Handle | server.js:45-362 | Every handler keeps every stored key and subscription truthy, and /stats changes nothing |
| Server.ReachableRegistryWellformed | server.js:48-53 | Starting from the empty map, every sequence of requests leaves only truthy keys and subscriptions, so a truthy lookup means "registered" |
| Server.ResubscribeKeepsStats | server.js:53 | Subscribing again under a registered key replaces the subscription without changing /stats' total or key list |
| Server.AnonymousSurvivesBareUnsubscribe | server.js:60-66 | An anonymous subscription survives an unsubscribe that names no user |
| Server.NotifyBroadcastIgnoresUserId | server.js:224-261 | With a truthy broadcast flag the user id has no effect on /notify |
| Server.BroadcastAllOrGone | server.js:131-155 | When every answer is delivered or 410, the failures are exactly the evictions and the remaining registry size equals the success count |
| ServiceWorker.NotificationData | web/sw.js:39-65 | Without data, with non-JSON data or with JSON null the default notification is used whole; otherwise each field is the pushed value when truthy and the default when not; every field ends up truthy |
| ServiceWorker.OnPush | web/sw.js:67-90 | The notification shown carries the merged fields, requires interaction and offers exactly a "view" and a "dismiss" action |
| ServiceWorker.OnClick | web/sw.js:97-105 | The notification is closed first; "dismiss" does nothing else; any other action opens the data's url when truthy and "/" otherwise, never an empty target |
| ServiceWorker.PushedDataReplacesDefault | web/sw.js:60 | A pushed data object without a truthy url replaces the default data, so viewing opens "/" rather than the site |
| EndToEnd.TruthyFieldsShownAsSent | web/sw.js:54-61 | A message whose six fields are all truthy is shown exactly as the server built it |
| EndToEnd.SendNotificationDisplay | server.js:85-94 | A /send-notification message shows the caller's title and body and the server's icon, badge and tag, and viewing it opens the site |
| EndToEnd.TestNotificationDisplay | server.js:180-186 | The test message shows its own title and tag but, carrying no data, falls back to the default data, so viewing it opens the site |
| EndToEnd.NotifyClickTarget | server.js:212-252 | Viewing a /notify message opens the data object's url when it has a truthy one; when the data object has a `url` property that is falsy, it opens "/"; without that property it opens the request's url, or "/" when that is falsy |

## Left out

- /health and /vapid-public-key: they read the clock and the process configuration, and touch no state.
- VAPID key setup, environment variables, Express middleware, static files and `listen`: configuration and plumbing.
- The push service itself. Its answers are a parameter (`Delivery.Oracle`), and a rejection's status code and message are taken as given.
- The error-handling middleware and malformed request bodies. A body is a map from property names to values.
- JSON text. A payload is the record it encodes. A property whose value is `undefined` is kept as `undefined` instead of being dropped, which reads back the same.
- The clock. /notify's ISO timestamp is a string parameter.
- Concurrency. Requests are served one after another, so a request arriving during a broadcast's `await` is not modelled.
- Console logging.
- Numbers are integers. Fractions, NaN, infinities, `-0` and exponent notation in `String(n)` are not modelled.
- Arrays are not distinguished from objects. A `Map` key that is an object is compared by content, where JavaScript compares by identity.
- Property reads see an object's own properties only. Inherited ones (a priority of "constructor", for instance) and the properties of strings and numbers read as `undefined`. Spreading a string `data` into /notify's data, which copies its characters by index, adds nothing in the model.
- The service worker's install, activate, fetch, sync and message handlers: caching and lifecycle, not notification logic.
- Focusing an open window versus opening a new one on click. The model stops at the page the click resolves to, since which windows are open is browser state.
