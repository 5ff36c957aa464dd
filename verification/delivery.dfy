/**
 The subscription registry of the relay and its delivery loop. The registry is
 a `Map` from user id to the subscription the browser supplied. Delivering a
 message to a subscription is the push service's business: its answer is an
 `Outcome` supplied by the caller. A failure whose status code is 410 means the
 subscription is gone, and the relay evicts it.
 */
module Delivery {
  import opened JsValue
  import opened OrderedMap
  import opened Payload

  /** The `subscriptions` map: user id to subscription, in insertion order. */
  type Registry = JsMap<Value, Value>

  /** What `webpush.sendNotification` did with one message: it resolved, or it
      rejected with an error carrying a status code and a message. */
  datatype Outcome = Delivered | Rejected(statusCode: Value, message: string) {
    /** `error.statusCode === 410`: the push service reports the subscription gone. */
    predicate Gone() {
      Rejected? && statusCode == Num(410)
    }
  }

  /** The push service's answer to the i-th delivery attempt of one request. */
  type Oracle = nat -> Outcome

  /** One call of `webpush.sendNotification(subscription, payload)`. */
  datatype Attempt = Attempt(subscription: Value, payload: Notification)

  /** One element of a broadcast's `results` list. */
  datatype SendResult =
    | Sent(userId: Value)
    | NotSent(userId: Value, error: string)

  /** What the handlers keep true of the registry: every key and every stored
      subscription is truthy. */
  ghost predicate Wellformed(reg: Registry) {
    forall i :: 0 <= i < |reg.entries| ==> Truthy(reg.entries[i].0) && Truthy(reg.entries[i].1)
  }

  /** Among the first `n` attempts, how many were delivered. */
  function CountDelivered(oracle: Oracle, n: nat): nat {
    if n == 0 then 0 else CountDelivered(oracle, n - 1) + (if oracle(n - 1).Delivered? then 1 else 0)
  }

  /** Among the first `n` attempts, how many reported the subscription gone. */
  function CountGone(oracle: Oracle, n: nat): nat {
    if n == 0 then 0 else CountGone(oracle, n - 1) + (if oracle(n - 1).Gone() then 1 else 0)
  }

  /** The user ids among `targets` whose delivery reported the subscription gone. */
  ghost function GoneKeys(targets: seq<(Value, Value)>, oracle: Oracle): set<Value>
    decreases |targets|
  {
    if |targets| == 0 then {}
    else
      var n := |targets| - 1;
      GoneKeys(targets[..n], oracle) + (if oracle(n).Gone() then {targets[n].0} else {})
  }

  /** The state a broadcast loop leaves behind. */
  datatype Fanout = Fanout(
    reg: Registry,
    successCount: nat,
    failureCount: nat,
    results: seq<SendResult>,
    sent: seq<Attempt>)

  /** The loop `for (const [userId, subscription] of subscriptions.entries())`
      with its `try`/`catch`: one attempt per target in order, counting
      successes and failures, listing a result per target, and deleting the
      user whose delivery reports the subscription gone. */
  function Broadcast(reg: Registry, targets: seq<(Value, Value)>, oracle: Oracle, payload: Notification): (f: Fanout)
    ensures f.successCount + f.failureCount == |targets|
    ensures f.successCount == CountDelivered(oracle, |targets|)
    ensures |f.results| == |targets|
    ensures forall i :: 0 <= i < |targets| ==>
      && f.results[i].userId == targets[i].0
      && (f.results[i].Sent? <==> oracle(i).Delivered?)
      && (f.results[i].NotSent? ==> f.results[i].error == oracle(i).message)
    ensures |f.sent| == |targets|
    ensures forall i :: 0 <= i < |targets| ==> f.sent[i] == Attempt(targets[i].1, payload)
    ensures Wellformed(reg) ==> Wellformed(f.reg)
    decreases |targets|
  {
    if |targets| == 0 then Fanout(reg, 0, 0, [], [])
    else
      var n := |targets| - 1;
      var prev := Broadcast(reg, targets[..n], oracle, payload);
      var userId := targets[n].0;
      var attempt := Attempt(targets[n].1, payload);
      match oracle(n)
      case Delivered =>
        Fanout(prev.reg, prev.successCount + 1, prev.failureCount,
               prev.results + [Sent(userId)], prev.sent + [attempt])
      case Rejected(_, message) =>
        var reg' := if oracle(n).Gone() then Delete(prev.reg, userId) else prev.reg;
        assert Wellformed(reg) ==> Wellformed(reg') by {
          if Wellformed(reg) && oracle(n).Gone() {
            WithoutWellformed(prev.reg, {userId});
          }
        }
        Fanout(reg', prev.successCount, prev.failureCount + 1,
               prev.results + [NotSent(userId, message)], prev.sent + [attempt])
  }

  /** Removing keys keeps the registry well formed. */
  lemma WithoutWellformed(reg: Registry, ks: set<Value>)
    requires Wellformed(reg)
    ensures Wellformed(Without(reg, ks))
  {
    FilterOutMembers(reg.entries, ks);
    var r := Without(reg, ks);
    forall i | 0 <= i < |r.entries|
      ensures Truthy(r.entries[i].0) && Truthy(r.entries[i].1)
    {
      assert r.entries[i] in reg.entries;
    }
  }

  /** After a broadcast the registry is the initial one with exactly the users
      whose delivery reported the subscription gone removed; the other entries
      keep their subscriptions and their order. */
  lemma {:induction false} BroadcastEvictsGone(reg: Registry, targets: seq<(Value, Value)>, oracle: Oracle, payload: Notification)
    ensures Broadcast(reg, targets, oracle, payload).reg == Without(reg, GoneKeys(targets, oracle))
    decreases |targets|
  {
    if |targets| == 0 {
      FilterOutKeeps(reg.entries, {});
    } else {
      var n := |targets| - 1;
      var gone := GoneKeys(targets[..n], oracle);
      BroadcastEvictsGone(reg, targets[..n], oracle, payload);
      FilterOutTwice(reg.entries, gone, {targets[n].0});
      FilterOutTwice(reg.entries, gone, {});
      assert gone + {} == gone;
    }
  }

  /** Every evicted user id is one of the targets. */
  lemma {:induction false} GoneKeysAreTargets(targets: seq<(Value, Value)>, oracle: Oracle, k: Value)
    requires k in GoneKeys(targets, oracle)
    ensures exists j :: 0 <= j < |targets| && targets[j].0 == k && oracle(j).Gone()
    decreases |targets|
  {
    var n := |targets| - 1;
    if k in GoneKeys(targets[..n], oracle) {
      GoneKeysAreTargets(targets[..n], oracle, k);
      var j :| 0 <= j < n && targets[..n][j].0 == k && oracle(j).Gone();
      assert targets[j].0 == k;
    }
  }

  /** When the targets are distinct users of the registry, each "gone" answer
      removes exactly one entry: the registry shrinks by the number of such
      answers. */
  lemma {:induction false} BroadcastShrinksByGone(reg: Registry, targets: seq<(Value, Value)>, oracle: Oracle, payload: Notification)
    requires UniqueKeys(targets)
    requires forall j :: 0 <= j < |targets| ==> Has(reg, targets[j].0)
    ensures Size(Broadcast(reg, targets, oracle, payload).reg) == Size(reg) - CountGone(oracle, |targets|)
    decreases |targets|
  {
    if |targets| > 0 {
      var n := |targets| - 1;
      var prefix := targets[..n];
      assert UniqueKeys(prefix);
      assert forall j :: 0 <= j < |prefix| ==> prefix[j] == targets[j];
      BroadcastShrinksByGone(reg, prefix, oracle, payload);
      var prev := Broadcast(reg, prefix, oracle, payload);
      var k := targets[n].0;
      if oracle(n).Gone() {
        BroadcastEvictsGone(reg, prefix, oracle, payload);
        if k in GoneKeys(prefix, oracle) {
          GoneKeysAreTargets(prefix, oracle, k);
        }
        WithoutLookup(reg, GoneKeys(prefix, oracle), k);
        assert Has(prev.reg, k);
      }
    }
  }
}
