/**
 * The metrics collector: one call reads a metrics response and appends one
 * snapshot to the metric store, or nothing. The HTTP exchange itself is an
 * input: a transport failure, a null body, or the decoded JSON object.
 */
module Collection {
  import opened Outcomes
  import opened Domain
  import opened Repositories

  /** A decoded JSON value as the collector sees it: a java.lang.Integer, null, or anything else. */
  datatype JsonValue = JsonInteger(n: Int32) | JsonNull | JsonOther

  datatype MetricsResponse = TransportFailure | NullBody | Payload(entries: map<string, JsonValue>)

  /**
   * `(Integer) entries.get(key)` passed to an `int` setter: a missing key or
   * a null unboxes to a NullPointerException, any other type fails the cast.
   */
  function IntegerEntry(entries: map<string, JsonValue>, key: string): (r: Option<Int32>)
    ensures r.Some? <==> key in entries && entries[key].JsonInteger?
    ensures r.Some? ==> entries[key] == JsonInteger(r.value)
  {
    if key in entries && entries[key].JsonInteger? then Some(entries[key].n) else None
  }

  /**
   * The snapshot a response yields, before the store assigns its id, or None
   * when the collector skips the tick.
   */
  function Sample(response: MetricsResponse, serviceName: string, now: int): (r: Option<Metric>)
    ensures r.Some? <==>
      && response.Payload?
      && IntegerEntry(response.entries, "cpu").Some?
      && IntegerEntry(response.entries, "memory").Some?
      && IntegerEntry(response.entries, "requests").Some?
    ensures r.Some? ==>
      && r.value.serviceName == serviceName && r.value.timestamp == now
      && response.entries["cpu"] == JsonInteger(r.value.cpu)
      && response.entries["memory"] == JsonInteger(r.value.memory)
      && response.entries["requests"] == JsonInteger(r.value.requests)
  {
    match response
    case Payload(entries) =>
      var cpu := IntegerEntry(entries, "cpu");
      var memory := IntegerEntry(entries, "memory");
      var requests := IntegerEntry(entries, "requests");
      if cpu.Some? && memory.Some? && requests.Some? then
        Some(Metric(0, serviceName, cpu.value, memory.value, requests.value, now))
      else None
    case _ => None
  }

  /** The JSON object the metrics endpoint returns for the given readings. */
  function MetricsPayload(cpu: Int32, memory: Int32, requests: Int32): map<string, JsonValue> {
    map["cpu" := JsonInteger(cpu), "memory" := JsonInteger(memory), "requests" := JsonInteger(requests)]
  }

  /** Reading a well-formed payload gives back exactly the readings it carried; other keys are ignored. */
  lemma SampleRoundTrip(cpu: Int32, memory: Int32, requests: Int32, extra: map<string, JsonValue>, serviceName: string, now: int)
    requires "cpu" !in extra && "memory" !in extra && "requests" !in extra
    ensures Sample(Payload(extra + MetricsPayload(cpu, memory, requests)), serviceName, now)
         == Some(Metric(0, serviceName, cpu, memory, requests, now))
  {
  }

  /** How a collection ended: saved, skipped on a null body, or skipped on an exception. */
  datatype Collected = Saved(metric: Metric) | NullPayload | Failed

  class MetricsCollector {
    const repository: MetricRepository
    const serviceName: string

    constructor (repository: MetricRepository, serviceName: string)
      ensures this.repository == repository && this.serviceName == serviceName
    {
      this.repository := repository;
      this.serviceName := serviceName;
    }

    /** Start-up hook: exactly one collection. */
    method CollectMetricsAfterStartup(response: MetricsResponse, now: int) returns (result: Collected)
      requires repository.Valid()
      modifies repository
      ensures repository.Valid() && repository.available == old(repository.available)
      ensures match Sample(response, serviceName, now)
        case Some(m) =>
          if old(repository.available) then
            && result.Saved? && result.metric == m.(id := result.metric.id) && result.metric.id > 0
            && (forall r :: r in old(repository.records) ==> r.id != result.metric.id)
            && repository.records == old(repository.records) + [result.metric]
          else
            result == Failed && repository.records == old(repository.records)
        case None =>
          !result.Saved? && repository.records == old(repository.records)
      ensures result == NullPayload <==> response == NullBody
    {
      result := CollectMetrics(response, now);
    }

    /**
     * One tick: on a well-formed payload append one snapshot stamped now;
     * on a null body, a transport failure, a bad entry or a database that
     * does not answer append nothing.
     * No exception escapes.
     */
    method CollectMetrics(response: MetricsResponse, now: int) returns (result: Collected)
      requires repository.Valid()
      modifies repository
      ensures repository.Valid() && repository.available == old(repository.available)
      ensures match Sample(response, serviceName, now)
        case Some(m) =>
          if old(repository.available) then
            && result.Saved? && result.metric == m.(id := result.metric.id) && result.metric.id > 0
            && (forall r :: r in old(repository.records) ==> r.id != result.metric.id)
            && repository.records == old(repository.records) + [result.metric]
          else
            result == Failed && repository.records == old(repository.records)
        case None =>
          !result.Saved? && repository.records == old(repository.records)
      ensures result == NullPayload <==> response == NullBody
    {
      if response.TransportFailure? {
        return Failed;
      }
      if response.NullBody? {
        return NullPayload;
      }
      var entries := response.entries;
      var cpu := IntegerEntry(entries, "cpu");
      if cpu.None? {
        return Failed;
      }
      var memory := IntegerEntry(entries, "memory");
      if memory.None? {
        return Failed;
      }
      var requests := IntegerEntry(entries, "requests");
      if requests.None? {
        return Failed;
      }
      var metric := Metric(0, serviceName, cpu.value, memory.value, requests.value, now);
      var saved := repository.Save(metric);
      if saved.None? {
        return Failed;
      }
      result := Saved(saved.value);
    }
  }
}
