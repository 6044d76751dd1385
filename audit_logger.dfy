/** The audit trail: an in-memory store of events that can be filtered by field
    equality, and a logger that stamps every event with the service name and the
    deployment environment before storing it. */
module Audit {
  import opened Optional
  import opened PaymentTypes

  const DefaultServiceName := "payment-service"
  const DefaultEnvironment := "development"

  /** The fields a query may constrain; an absent field matches every event. */
  datatype EventFilter = EventFilter(
    eventType: Option<string>,
    actor: Option<string>,
    resource: Option<string>,
    action: Option<string>,
    outcome: Option<Outcome>)

  const NoFilter := EventFilter(None, None, None, None, None)

  /** Every field the filter gives is strictly equal to the event's. */
  predicate Matches(e: AuditEvent, f: EventFilter) {
    && (f.eventType.None? || e.eventType == f.eventType.value)
    && (f.actor.None? || e.actor == f.actor.value)
    && (f.resource.None? || e.resource == f.resource.value)
    && (f.action.None? || e.action == f.action.value)
    && (f.outcome.None? || e.outcome == f.outcome.value)
  }

  /** `events.filter(...)`: the matching events, in the order they were saved. */
  function Select(events: seq<AuditEvent>, f: EventFilter): (r: seq<AuditEvent>)
    ensures |r| <= |events|
    ensures forall e :: e in r <==> e in events && Matches(e, f)
    ensures f == NoFilter ==> r == events
  {
    if events == [] then []
    else
      var rest := Select(events[1..], f);
      assert events == [events[0]] + events[1..];
      (if Matches(events[0], f) then [events[0]] else []) + rest
  }

  /** Saving one more event extends every query's answer by that event exactly
      when it matches: earlier answers are neither lost nor reordered. */
  lemma {:induction false} SelectAppend(events: seq<AuditEvent>, e: AuditEvent, f: EventFilter)
    ensures Select(events + [e], f) == Select(events, f) + (if Matches(e, f) then [e] else [])
  {
    if events != [] {
      assert (events + [e])[1..] == events[1..] + [e];
      SelectAppend(events[1..], e, f);
    }
  }

  class InMemoryAuditStorage {
    var events: seq<AuditEvent>

    constructor ()
      ensures events == []
    {
      events := [];
    }

    /** `save`: appends the event. */
    method Save(event: AuditEvent)
      modifies this
      ensures events == old(events) + [event]
    {
      events := events + [event];
    }

    /** `query`: the saved events that match the filter, oldest first. */
    method Query(f: EventFilter) returns (r: seq<AuditEvent>)
      ensures r == Select(events, f)
      ensures forall e :: e in r <==> e in events && Matches(e, f)
    {
      r := Select(events, f);
    }

    /** `getAll`: a copy of every saved event. */
    method GetAll() returns (r: seq<AuditEvent>)
      ensures r == events
      ensures r == Select(events, NoFilter)
    {
      r := events;
    }
  }

  /** `process.env.NODE_ENV || 'development'`. */
  function Environment(nodeEnv: Option<string>): (r: string)
    ensures r != ""
    ensures nodeEnv.Some? && nodeEnv.value != "" ==> r == nodeEnv.value
  {
    if nodeEnv.Some? && nodeEnv.value != "" then nodeEnv.value else DefaultEnvironment
  }

  /** The stored form of an event: every field kept, and `details` replaced by the
      original details (none counts as empty) with `service` and `environment`
      set, overriding keys of the same name. */
  function Enrich(event: AuditEvent, serviceName: string, environment: string): (r: AuditEvent)
    ensures r.(details := event.details) == event
    ensures r.details.Some?
    ensures r.details.value.Keys == event.details.GetOr(map[]).Keys + {"service", "environment"}
    ensures r.details.value["service"] == Text(serviceName)
    ensures r.details.value["environment"] == Text(environment)
    ensures forall k :: k in event.details.GetOr(map[]) && k != "service" && k != "environment"
              ==> r.details.value[k] == event.details.value[k]
  {
    var original := event.details.GetOr(map[]);
    event.(details := Some(original["service" := Text(serviceName)]["environment" := Text(environment)]))
  }

  /** Enrichment never changes which queries an event answers. */
  lemma EnrichKeepsMatches(event: AuditEvent, serviceName: string, environment: string, f: EventFilter)
    ensures Matches(Enrich(event, serviceName, environment), f) <==> Matches(event, f)
  {
    var r := Enrich(event, serviceName, environment);
    assert r.eventType == event.eventType && r.actor == event.actor && r.resource == event.resource;
    assert r.action == event.action && r.outcome == event.outcome;
  }

  class AuditLogger {
    const storage: InMemoryAuditStorage
    const serviceName: string

    /** The service name defaults to `payment-service` only when it is not given. */
    constructor (storage: InMemoryAuditStorage, serviceName: Option<string>)
      ensures this.storage == storage
      ensures this.serviceName == serviceName.GetOr(DefaultServiceName)
    {
      this.storage := storage;
      this.serviceName := serviceName.GetOr(DefaultServiceName);
    }

    /** `log`: stores the enriched event; `nodeEnv` is the value of `NODE_ENV` at
        the time of the call. */
    method Log(event: AuditEvent, nodeEnv: Option<string>)
      modifies storage
      ensures storage.events == old(storage.events) + [Enrich(event, serviceName, Environment(nodeEnv))]
    {
      var enrichedEvent := Enrich(event, serviceName, Environment(nodeEnv));
      storage.Save(enrichedEvent);
    }

    /** `getEventsByActor`. */
    method GetEventsByActor(actorId: string) returns (r: seq<AuditEvent>)
      ensures r == Select(storage.events, NoFilter.(actor := Some(actorId)))
      ensures forall e :: e in r <==> e in storage.events && e.actor == actorId
    {
      r := storage.Query(NoFilter.(actor := Some(actorId)));
    }

    /** `getEventsByResource`. */
    method GetEventsByResource(resourceId: string) returns (r: seq<AuditEvent>)
      ensures r == Select(storage.events, NoFilter.(resource := Some(resourceId)))
      ensures forall e :: e in r <==> e in storage.events && e.resource == resourceId
    {
      r := storage.Query(NoFilter.(resource := Some(resourceId)));
    }

    /** `getFailedEvents`. */
    method GetFailedEvents() returns (r: seq<AuditEvent>)
      ensures r == Select(storage.events, NoFilter.(outcome := Some(Failure)))
      ensures forall e :: e in r <==> e in storage.events && e.outcome == Failure
    {
      r := storage.Query(NoFilter.(outcome := Some(Failure)));
    }

    /** `getEventsByType`. */
    method GetEventsByType(eventType: string) returns (r: seq<AuditEvent>)
      ensures r == Select(storage.events, NoFilter.(eventType := Some(eventType)))
      ensures forall e :: e in r <==> e in storage.events && e.eventType == eventType
    {
      r := storage.Query(NoFilter.(eventType := Some(eventType)));
    }
  }

  /** A logged event is the last answer to a query by its own actor, and earlier
      answers to that query are kept in front of it. */
  method LogThenQueryByActor(logger: AuditLogger, event: AuditEvent, nodeEnv: Option<string>)
    returns (before: seq<AuditEvent>, after: seq<AuditEvent>)
    modifies logger.storage
    ensures after == before + [Enrich(event, logger.serviceName, Environment(nodeEnv))]
  {
    before := logger.GetEventsByActor(event.actor);
    ghost var saved := logger.storage.events;
    logger.Log(event, nodeEnv);
    var f := NoFilter.(actor := Some(event.actor));
    SelectAppend(saved, Enrich(event, logger.serviceName, Environment(nodeEnv)), f);
    EnrichKeepsMatches(event, logger.serviceName, Environment(nodeEnv), f);
    after := logger.GetEventsByActor(event.actor);
  }
}
