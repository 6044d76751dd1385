/** The notification service: a provider per channel, a bounded retry loop per
    send with a pause after an attempt that threw, and a queue of payloads whose
    every attempt failed. The pauses and provider calls are recorded in a ghost
    trace, since neither the timer nor the providers' effects are visible here. */
module Notifications {
  import opened Optional
  import opened PaymentTypes
  import Text

  const DefaultRetryAttempts := 3

  /** What one call of a provider's `send` does: resolves to true, resolves to
      false, or throws. */
  datatype Attempt = Delivered | Declined | Threw

  /** A provider for one channel; `respond(payload, n)` is what its `send` does on
      the `n`-th attempt for that payload. */
  datatype Provider = Provider(channel: Channel, respond: (NotificationPayload, nat) -> Attempt)

  /** The built-in email, SMS and webhook providers, which always resolve to true. */
  function DefaultProvider(channel: Channel): (p: Provider)
    ensures p.channel == channel
    ensures forall payload, n :: p.respond(payload, n) == Delivered
  {
    Provider(channel, (payload, n) => Delivered)
  }

  /** An observable step of a send: a provider call and its outcome, or a pause. */
  datatype Event = Call(attempt: nat, response: Attempt) | Pause(ms: nat)

  function CallCount(events: seq<Event>): (n: nat)
    ensures n <= |events|
  {
    if events == [] then 0 else (if events[0].Call? then 1 else 0) + CallCount(events[1..])
  }

  lemma {:induction false} CallCountAppend(a: seq<Event>, b: seq<Event>)
    ensures CallCount(a + b) == CallCount(a) + CallCount(b)
  {
    if a != [] {
      assert (a + b)[0] == a[0];
      assert (a + b)[1..] == a[1..] + b;
      CallCountAppend(a[1..], b);
      assert CallCount(a + b) == (if a[0].Call? then 1 else 0) + CallCount(a[1..] + b);
    } else {
      assert a + b == b;
    }
  }

  /** The events of attempt `k` when it did not deliver: its call, then a pause of
      `1000 * k` ms if it threw and was not the last attempt allowed. */
  function AttemptEvents(k: nat, response: Attempt, limit: int): seq<Event> {
    [Call(k, response)] + (if response == Threw && k < limit then [Pause(1000 * k)] else [])
  }

  /** The retry loop from attempt `k` up to `limit`: whether some attempt
      delivered, and the calls and pauses made on the way. */
  function Run(respond: (NotificationPayload, nat) -> Attempt, payload: NotificationPayload, k: nat, limit: int)
    : (r: (bool, seq<Event>))
    requires k >= 1
    ensures k > limit ==> r == (false, [])
    decreases if k <= limit then limit - k + 1 else 0
  {
    if k > limit then (false, [])
    else
      var response := respond(payload, k);
      if response == Delivered then (true, [Call(k, Delivered)])
      else
        var rest := Run(respond, payload, k + 1, limit);
        (rest.0, AttemptEvents(k, response, limit) + rest.1)
  }

  /** The loop reports success iff some attempt from `k` to `limit` delivers. */
  lemma {:induction false} RunDelivers(respond: (NotificationPayload, nat) -> Attempt, payload: NotificationPayload,
                                       k: nat, limit: int)
    requires k >= 1
    ensures Run(respond, payload, k, limit).0 <==> exists j :: k <= j <= limit && respond(payload, j) == Delivered
    decreases if k <= limit then limit - k + 1 else 0
  {
    if k <= limit && respond(payload, k) != Delivered {
      RunDelivers(respond, payload, k + 1, limit);
      if exists j :: k <= j <= limit && respond(payload, j) == Delivered {
        var j :| k <= j <= limit && respond(payload, j) == Delivered;
        assert j != k;
      }
    } else if k <= limit {
      assert respond(payload, k) == Delivered;
    }
  }

  /** The provider is called at most `limit - k + 1` times, and exactly that often
      when no attempt delivers; with no attempts allowed it is never called. */
  lemma {:induction false} RunCallCount(respond: (NotificationPayload, nat) -> Attempt, payload: NotificationPayload,
                                        k: nat, limit: int)
    requires k >= 1
    ensures var r := Run(respond, payload, k, limit);
      && CallCount(r.1) <= (if k <= limit then limit - k + 1 else 0)
      && (!r.0 ==> CallCount(r.1) == (if k <= limit then limit - k + 1 else 0))
    decreases if k <= limit then limit - k + 1 else 0
  {
    if k <= limit && respond(payload, k) != Delivered {
      var response := respond(payload, k);
      var rest := Run(respond, payload, k + 1, limit).1;
      var head := AttemptEvents(k, response, limit);
      RunCallCount(respond, payload, k + 1, limit);
      CallCountAppend(head, rest);
      assert CallCount(head) == 1 by {
        assert head[1..] == (if response == Threw && k < limit then [Pause(1000 * k)] else []);
      }
    } else if k <= limit {
      assert Run(respond, payload, k, limit).1 == [Call(k, Delivered)];
      assert [Call(k, Delivered)][1..] == [];
    }
  }

  /** Every call in `events` is an attempt from `k` to `limit`, carrying the
      provider's own outcome for that attempt. */
  ghost predicate CallsInRange(events: seq<Event>, respond: (NotificationPayload, nat) -> Attempt,
                               payload: NotificationPayload, k: nat, limit: int)
  {
    forall i :: 0 <= i < |events| && events[i].Call? ==>
      k <= events[i].attempt <= limit && events[i].response == respond(payload, events[i].attempt)
  }

  /** A call that delivered is the last event. */
  ghost predicate StopsAtSuccess(events: seq<Event>) {
    forall i :: 0 <= i < |events| && events[i].Call? && events[i].response == Delivered ==> i == |events| - 1
  }

  /** Every pause directly follows an attempt that threw and was not the last
      allowed, and lasts 1000 ms times that attempt's number. */
  ghost predicate PausesOnlyAfterThrow(events: seq<Event>, limit: int) {
    forall i :: 0 <= i < |events| && events[i].Pause? ==>
      (0 < i && events[i - 1].Call? && events[i - 1].response == Threw && events[i - 1].attempt < limit
       && events[i].ms == 1000 * events[i - 1].attempt)
  }

  /** Every attempt that threw and was not the last allowed is followed at once
      by its pause. */
  ghost predicate PausesAfterEveryThrow(events: seq<Event>, limit: int) {
    forall i :: 0 <= i < |events| && events[i].Call? && events[i].response == Threw && events[i].attempt < limit ==>
      i + 1 < |events| && events[i + 1] == Pause(1000 * events[i].attempt)
  }

  /** One step of the retry loop: an attempt that did not deliver is followed by
      its pause, if any, and then by the rest of the loop. */
  lemma RunUnfold(respond: (NotificationPayload, nat) -> Attempt, payload: NotificationPayload, k: nat, limit: int)
    requires 1 <= k <= limit && respond(payload, k) != Delivered
    ensures Run(respond, payload, k, limit)
      == (Run(respond, payload, k + 1, limit).0,
          AttemptEvents(k, respond(payload, k), limit) + Run(respond, payload, k + 1, limit).1)
  {
  }

  lemma RunDelivered(respond: (NotificationPayload, nat) -> Attempt, payload: NotificationPayload, k: nat, limit: int)
    requires 1 <= k <= limit && respond(payload, k) == Delivered
    ensures Run(respond, payload, k, limit) == (true, [Call(k, Delivered)])
  {
  }

  /** Every call in a trace of the retry loop is an attempt in range with the
      provider's own outcome. */
  lemma {:induction false} RunCallsInRange(respond: (NotificationPayload, nat) -> Attempt,
                                           payload: NotificationPayload, k: nat, limit: int)
    requires k >= 1
    ensures CallsInRange(Run(respond, payload, k, limit).1, respond, payload, k, limit)
    decreases if k <= limit then limit - k + 1 else 0
  {
    if k <= limit && respond(payload, k) != Delivered {
      RunCallsInRange(respond, payload, k + 1, limit);
      RunUnfold(respond, payload, k, limit);
      var rest := Run(respond, payload, k + 1, limit).1;
      var events := Run(respond, payload, k, limit).1;
      var h := |events| - |rest|;
      forall i | 0 <= i < |events| && events[i].Call?
        ensures k <= events[i].attempt <= limit && events[i].response == respond(payload, events[i].attempt)
      {
        if i >= h {
          assert events[i] == rest[i - h];
        } else {
          assert i == 0 && events[0] == Call(k, respond(payload, k));
        }
      }
    }
  }

  /** The loop stops at the first success: nothing follows a delivering call. */
  lemma {:induction false} RunStopsAtSuccess(respond: (NotificationPayload, nat) -> Attempt,
                                             payload: NotificationPayload, k: nat, limit: int)
    requires k >= 1
    ensures StopsAtSuccess(Run(respond, payload, k, limit).1)
    decreases if k <= limit then limit - k + 1 else 0
  {
    if k <= limit && respond(payload, k) != Delivered {
      RunStopsAtSuccess(respond, payload, k + 1, limit);
      RunUnfold(respond, payload, k, limit);
      var rest := Run(respond, payload, k + 1, limit).1;
      var events := Run(respond, payload, k, limit).1;
      var h := |events| - |rest|;
      forall i | 0 <= i < |events| && events[i].Call? && events[i].response == Delivered
        ensures i == |events| - 1
      {
        assert i >= h;
        assert events[i] == rest[i - h];
      }
    }
  }

  /** No pause follows an attempt that resolved to false or delivered, and each
      pause has the length of its attempt. */
  lemma {:induction false} RunPausesOnlyAfterThrow(respond: (NotificationPayload, nat) -> Attempt,
                                                   payload: NotificationPayload, k: nat, limit: int)
    requires k >= 1
    ensures PausesOnlyAfterThrow(Run(respond, payload, k, limit).1, limit)
    decreases if k <= limit then limit - k + 1 else 0
  {
    if k <= limit && respond(payload, k) != Delivered {
      RunPausesOnlyAfterThrow(respond, payload, k + 1, limit);
      RunUnfold(respond, payload, k, limit);
      var rest := Run(respond, payload, k + 1, limit).1;
      var events := Run(respond, payload, k, limit).1;
      var h := |events| - |rest|;
      forall i | 0 <= i < |events| && events[i].Pause?
        ensures 0 < i && events[i - 1].Call? && events[i - 1].response == Threw && events[i - 1].attempt < limit
                && events[i].ms == 1000 * events[i - 1].attempt
      {
        if i > h {
          assert events[i] == rest[i - h];
          assert events[i - 1] == rest[i - h - 1];
        }
      }
    }
  }

  /** Every attempt that threw, except the last allowed, is followed by its pause. */
  lemma {:induction false} RunPausesAfterEveryThrow(respond: (NotificationPayload, nat) -> Attempt,
                                                    payload: NotificationPayload, k: nat, limit: int)
    requires k >= 1
    ensures PausesAfterEveryThrow(Run(respond, payload, k, limit).1, limit)
    decreases if k <= limit then limit - k + 1 else 0
  {
    if k <= limit && respond(payload, k) != Delivered {
      RunPausesAfterEveryThrow(respond, payload, k + 1, limit);
      RunUnfold(respond, payload, k, limit);
      var rest := Run(respond, payload, k + 1, limit).1;
      var events := Run(respond, payload, k, limit).1;
      var h := |events| - |rest|;
      forall i | 0 <= i < |events| && events[i].Call? && events[i].response == Threw && events[i].attempt < limit
        ensures i + 1 < |events| && events[i + 1] == Pause(1000 * events[i].attempt)
      {
        if i >= h {
          assert events[i] == rest[i - h];
          assert events[i + 1] == rest[i - h + 1];
        }
      }
    }
  }

  /** What `send` does for a payload under a provider table and retry count:
      whether it reports success, and the calls and pauses it makes. */
  function SendOutcome(providers: map<Channel, Provider>, retryAttempts: int, payload: NotificationPayload)
    : (r: (bool, seq<Event>))
    ensures payload.channel !in providers ==> r == (false, [])
    ensures payload.channel in providers ==> r == Run(providers[payload.channel].respond, payload, 1, retryAttempts)
  {
    if payload.channel !in providers then (false, [])
    else Run(providers[payload.channel].respond, payload, 1, retryAttempts)
  }

  /** A payload is queued after a send iff a provider exists and no attempt delivered. */
  predicate Requeues(providers: map<Channel, Provider>, retryAttempts: int, payload: NotificationPayload) {
    payload.channel in providers && !SendOutcome(providers, retryAttempts, payload).0
  }

  /** How many of `payloads` a sequence of sends delivers. */
  function CountDelivered(providers: map<Channel, Provider>, retryAttempts: int, payloads: seq<NotificationPayload>)
    : (n: nat)
    ensures n <= |payloads|
  {
    if payloads == [] then 0
    else
      (if SendOutcome(providers, retryAttempts, payloads[0]).0 then 1 else 0)
      + CountDelivered(providers, retryAttempts, payloads[1..])
  }

  /** The payloads a sequence of sends leaves queued, in order. */
  function Requeued(providers: map<Channel, Provider>, retryAttempts: int, payloads: seq<NotificationPayload>)
    : (r: seq<NotificationPayload>)
    ensures |r| + CountDelivered(providers, retryAttempts, payloads) <= |payloads|
    ensures forall p :: p in r <==> p in payloads && Requeues(providers, retryAttempts, p)
  {
    if payloads == [] then []
    else
      assert payloads == [payloads[0]] + payloads[1..];
      (if Requeues(providers, retryAttempts, payloads[0]) then [payloads[0]] else [])
      + Requeued(providers, retryAttempts, payloads[1..])
  }

  /** The calls and pauses of a sequence of sends. */
  ghost function BatchTrace(providers: map<Channel, Provider>, retryAttempts: int, payloads: seq<NotificationPayload>)
    : seq<Event>
  {
    if payloads == [] then []
    else SendOutcome(providers, retryAttempts, payloads[0]).1 + BatchTrace(providers, retryAttempts, payloads[1..])
  }

  /** Sending one more payload adds one to the delivered count iff it is delivered. */
  lemma {:induction false} CountDeliveredSnoc(providers: map<Channel, Provider>, retryAttempts: int,
                                              payloads: seq<NotificationPayload>, p: NotificationPayload)
    ensures CountDelivered(providers, retryAttempts, payloads + [p])
      == CountDelivered(providers, retryAttempts, payloads) + (if SendOutcome(providers, retryAttempts, p).0 then 1 else 0)
  {
    if payloads != [] {
      assert (payloads + [p])[1..] == payloads[1..] + [p];
      CountDeliveredSnoc(providers, retryAttempts, payloads[1..], p);
    }
  }

  /** Sending one more payload appends it to the queued ones iff it is queued. */
  lemma {:induction false} RequeuedSnoc(providers: map<Channel, Provider>, retryAttempts: int,
                                        payloads: seq<NotificationPayload>, p: NotificationPayload)
    ensures Requeued(providers, retryAttempts, payloads + [p])
      == Requeued(providers, retryAttempts, payloads) + (if Requeues(providers, retryAttempts, p) then [p] else [])
  {
    if payloads != [] {
      assert (payloads + [p])[1..] == payloads[1..] + [p];
      assert (payloads + [p])[0] == payloads[0];
      RequeuedSnoc(providers, retryAttempts, payloads[1..], p);
    } else {
      assert [] + [p] == [p];
    }
  }

  /** Sending one more payload appends its calls and pauses to the trace. */
  lemma {:induction false} BatchTraceSnoc(providers: map<Channel, Provider>, retryAttempts: int,
                                          payloads: seq<NotificationPayload>, p: NotificationPayload)
    ensures BatchTrace(providers, retryAttempts, payloads + [p])
      == BatchTrace(providers, retryAttempts, payloads) + SendOutcome(providers, retryAttempts, p).1
  {
    if payloads != [] {
      assert (payloads + [p])[1..] == payloads[1..] + [p];
      assert (payloads + [p])[0] == payloads[0];
      BatchTraceSnoc(providers, retryAttempts, payloads[1..], p);
    } else {
      assert [] + [p] == [p];
    }
  }

  /** One more payload of a batch: its outcome extends the count, the queue and
      the trace of the ones before it. */
  lemma BatchStep(providers: map<Channel, Provider>, retryAttempts: int, payloads: seq<NotificationPayload>, i: nat)
    requires i < |payloads|
    ensures CountDelivered(providers, retryAttempts, payloads[..i + 1])
      == CountDelivered(providers, retryAttempts, payloads[..i])
         + (if SendOutcome(providers, retryAttempts, payloads[i]).0 then 1 else 0)
    ensures Requeued(providers, retryAttempts, payloads[..i + 1])
      == Requeued(providers, retryAttempts, payloads[..i])
         + (if Requeues(providers, retryAttempts, payloads[i]) then [payloads[i]] else [])
    ensures BatchTrace(providers, retryAttempts, payloads[..i + 1])
      == BatchTrace(providers, retryAttempts, payloads[..i]) + SendOutcome(providers, retryAttempts, payloads[i]).1
  {
    assert payloads[..i + 1] == payloads[..i] + [payloads[i]];
    CountDeliveredSnoc(providers, retryAttempts, payloads[..i], payloads[i]);
    RequeuedSnoc(providers, retryAttempts, payloads[..i], payloads[i]);
    BatchTraceSnoc(providers, retryAttempts, payloads[..i], payloads[i]);
  }

  /** A provider answers the same way for the same payload and attempt, so sending
      again, under the same providers and attempt count, payloads that were all
      re-queued delivers none of them and re-queues them all, in order. */
  lemma {:induction false} ReplayKeepsQueue(providers: map<Channel, Provider>, retryAttempts: int,
                                            queue: seq<NotificationPayload>)
    requires forall i :: 0 <= i < |queue| ==> Requeues(providers, retryAttempts, queue[i])
    ensures Requeued(providers, retryAttempts, queue) == queue
    ensures CountDelivered(providers, retryAttempts, queue) == 0
  {
    if queue != [] {
      ReplayKeepsQueue(providers, retryAttempts, queue[1..]);
      assert queue == [queue[0]] + queue[1..];
    }
  }

  /** Re-queuing is idempotent: until a channel's provider changes, a second
      round over the queue leaves exactly the same queue and delivers nothing. */
  lemma QueueIdempotent(providers: map<Channel, Provider>, retryAttempts: int, payloads: seq<NotificationPayload>)
    ensures var q := Requeued(providers, retryAttempts, payloads);
      Requeued(providers, retryAttempts, q) == q && CountDelivered(providers, retryAttempts, q) == 0
  {
    var q := Requeued(providers, retryAttempts, payloads);
    assert forall i :: 0 <= i < |q| ==> q[i] in q;
    ReplayKeepsQueue(providers, retryAttempts, q);
  }

  /** With the built-in providers and at least one attempt, everything is delivered
      except payloads for the push channel, which has no provider and is dropped
      rather than queued. */
  lemma DefaultsDeliver(retryAttempts: int, payload: NotificationPayload)
    requires retryAttempts >= 1
    ensures var providers := DefaultProviders();
      && (SendOutcome(providers, retryAttempts, payload).0 <==> payload.channel != Push)
      && !Requeues(providers, retryAttempts, payload)
  {
    if payload.channel != Push {
      assert DefaultProviders()[payload.channel].respond(payload, 1) == Delivered;
    }
  }

  function DefaultProviders(): (providers: map<Channel, Provider>)
    ensures providers.Keys == {Email, Sms, Webhook}
    ensures forall c :: c in providers ==> providers[c] == DefaultProvider(c)
  {
    map[Email := DefaultProvider(Email), Sms := DefaultProvider(Sms), Webhook := DefaultProvider(Webhook)]
  }

  class NotificationService {
    var providers: map<Channel, Provider>
    var queue: seq<NotificationPayload>
    const retryAttempts: int
    ghost var trace: seq<Event>

    /** The retry count defaults to 3 only when it is not given; the email, SMS
        and webhook providers are registered, and none for push. */
    constructor (retryAttempts: Option<int>)
      ensures this.retryAttempts == retryAttempts.GetOr(DefaultRetryAttempts)
      ensures providers == DefaultProviders()
      ensures queue == [] && trace == []
    {
      this.retryAttempts := retryAttempts.GetOr(DefaultRetryAttempts);
      providers := map[];
      queue := [];
      trace := [];
      new;
      RegisterProvider(DefaultProvider(Email));
      RegisterProvider(DefaultProvider(Sms));
      RegisterProvider(DefaultProvider(Webhook));
    }

    /** `registerProvider`: replaces the provider of that channel only. */
    method RegisterProvider(provider: Provider)
      modifies this
      ensures providers == old(providers)[provider.channel := provider]
      ensures queue == old(queue) && trace == old(trace)
    {
      providers := providers[provider.channel := provider];
    }

    /** `send`: with no provider, fails at once; otherwise calls the provider for
        attempts 1 to `retryAttempts`, returning true on the first success, pausing
        `attempt * 1000` ms after an attempt that threw unless it was the last, and
        queueing the payload once when no attempt succeeded. */
    method Send(payload: NotificationPayload) returns (sent: bool)
      modifies this
      ensures providers == old(providers)
      ensures sent == SendOutcome(providers, retryAttempts, payload).0
      ensures trace == old(trace) + SendOutcome(providers, retryAttempts, payload).1
      ensures queue == old(queue) + (if Requeues(providers, retryAttempts, payload) then [payload] else [])
    {
      if payload.channel !in providers {
        assert trace + [] == trace;
        return false;
      }
      var provider := providers[payload.channel];
      ghost var whole := Run(provider.respond, payload, 1, retryAttempts);
      ghost var done: seq<Event> := [];
      assert done + whole.1 == whole.1;
      var attempt := 1;
      while attempt <= retryAttempts
        invariant 1 <= attempt
        invariant trace == old(trace) + done
        invariant whole == (Run(provider.respond, payload, attempt, retryAttempts).0,
                            done + Run(provider.respond, payload, attempt, retryAttempts).1)
        invariant queue == old(queue) && providers == old(providers)
        decreases retryAttempts - attempt
      {
        var response := provider.respond(payload, attempt);
        trace := trace + [Call(attempt, response)];
        if response == Delivered {
          RunDelivered(provider.respond, payload, attempt, retryAttempts);
          Text.AppendAssociates(old(trace), done, [Call(attempt, response)]);
          done := done + [Call(attempt, response)];
          return true;
        }
        if response == Threw && attempt < retryAttempts {
          trace := trace + [Pause(attempt * 1000)];
        }
        ghost var step := AttemptEvents(attempt, response, retryAttempts);
        assert trace == old(trace) + (done + step);
        RunUnfold(provider.respond, payload, attempt, retryAttempts);
        Text.AppendAssociates(done, step, Run(provider.respond, payload, attempt + 1, retryAttempts).1);
        done := done + step;
        attempt := attempt + 1;
      }
      assert done + [] == done;
      queue := queue + [payload];
      return false;
    }

    /** `sendBatch`: sends each payload in order and counts the outcomes. */
    method SendBatch(payloads: seq<NotificationPayload>) returns (sent: nat, failed: nat)
      modifies this
      ensures sent == CountDelivered(providers, retryAttempts, payloads)
      ensures sent + failed == |payloads|
      ensures providers == old(providers)
      ensures queue == old(queue) + Requeued(providers, retryAttempts, payloads)
      ensures trace == old(trace) + BatchTrace(providers, retryAttempts, payloads)
    {
      sent, failed := 0, 0;
      var i := 0;
      while i < |payloads|
        invariant 0 <= i <= |payloads|
        invariant providers == old(providers)
        invariant sent == CountDelivered(providers, retryAttempts, payloads[..i])
        invariant sent + failed == i
        invariant queue == old(queue) + Requeued(providers, retryAttempts, payloads[..i])
        invariant trace == old(trace) + BatchTrace(providers, retryAttempts, payloads[..i])
      {
        BatchStep(providers, retryAttempts, payloads, i);
        Text.AppendAssociates(old(trace), BatchTrace(providers, retryAttempts, payloads[..i]),
                              SendOutcome(providers, retryAttempts, payloads[i]).1);
        Text.AppendAssociates(old(queue), Requeued(providers, retryAttempts, payloads[..i]),
                              if Requeues(providers, retryAttempts, payloads[i]) then [payloads[i]] else []);
        var success := Send(payloads[i]);
        if success {
          sent := sent + 1;
        } else {
          failed := failed + 1;
        }
        i := i + 1;
      }
      assert payloads[..i] == payloads;
    }

    /** `getQueuedNotifications`: a copy of the queue. */
    method GetQueuedNotifications() returns (r: seq<NotificationPayload>)
      ensures r == queue
    {
      r := queue;
    }

    /** `processQueue`: empties the queue, resends every payload it held in
        order, and returns how many were delivered; those that fail again are
        queued again by `send`, so they are exactly the new queue. */
    method ProcessQueue() returns (processed: nat)
      modifies this
      ensures processed == CountDelivered(providers, retryAttempts, old(queue))
      ensures processed <= |old(queue)|
      ensures providers == old(providers)
      ensures queue == Requeued(providers, retryAttempts, old(queue))
      ensures trace == old(trace) + BatchTrace(providers, retryAttempts, old(queue))
    {
      var toProcess := queue;
      queue := [];
      processed := 0;
      var i := 0;
      while i < |toProcess|
        invariant 0 <= i <= |toProcess|
        invariant providers == old(providers)
        invariant processed == CountDelivered(providers, retryAttempts, toProcess[..i])
        invariant queue == Requeued(providers, retryAttempts, toProcess[..i])
        invariant trace == old(trace) + BatchTrace(providers, retryAttempts, toProcess[..i])
      {
        BatchStep(providers, retryAttempts, toProcess, i);
        Text.AppendAssociates(old(trace), BatchTrace(providers, retryAttempts, toProcess[..i]),
                              SendOutcome(providers, retryAttempts, toProcess[i]).1);
        var success := Send(toProcess[i]);
        if success {
          processed := processed + 1;
        }
        i := i + 1;
      }
      assert toProcess[..i] == toProcess;
    }
  }
}
