/**
 * The metric listing: every stored snapshot becomes three DTOs, one per
 * dimension, named after the service and the dimension.
 */
module MetricViews {
  import opened Outcomes
  import opened Domain

  /** A flattened reading; `value` is the Double the source fills from an int. */
  datatype MetricDto = MetricDto(id: int, name: string, value: int)

  /** The DTO for one dimension of a snapshot: serviceName + "_CPU", "_MEMORY" or "_REQUESTS". */
  function DtoFor(m: Metric, d: Dimension): MetricDto {
    MetricDto(m.id, m.serviceName + "_" + d.Name(), Reading(m, d))
  }

  /**
   * The flat map: per snapshot, in store order, its CPU, MEMORY and REQUESTS
   * DTOs. Since there are exactly three per snapshot, positions 3i, 3i+1 and
   * 3i+2 are all there is.
   */
  function ToDtos(metrics: seq<Metric>): (r: seq<MetricDto>)
    ensures |r| == 3 * |metrics|
    ensures forall i :: 0 <= i < |metrics| ==>
      r[3 * i] == DtoFor(metrics[i], Cpu) && r[3 * i + 1] == DtoFor(metrics[i], Memory) && r[3 * i + 2] == DtoFor(metrics[i], Requests)
  {
    if metrics == [] then []
    else
      var rest := ToDtos(metrics[1..]);
      var r := [DtoFor(metrics[0], Cpu), DtoFor(metrics[0], Memory), DtoFor(metrics[0], Requests)] + rest;
      assert forall i :: 1 <= i < |metrics| ==> metrics[i] == metrics[1..][i - 1];
      r
  }

  /** `findAll`: the DTOs of every stored snapshot, or the repository failure rethrown. */
  function FindAll(fetched: Result<seq<Metric>, DataAccessFailure>): (r: Result<seq<MetricDto>, DataAccessFailure>)
    ensures fetched.Failure? ==> r == Failure(fetched.error)
    ensures fetched.Success? ==> r.Success? && |r.value| == 3 * |fetched.value|
    ensures fetched.Success? ==> r.value == ToDtos(fetched.value)
    ensures fetched == Success([]) ==> r == Success([])
  {
    match fetched
    case Success(metrics) => Success(ToDtos(metrics))
    case Failure(e) => Failure(e)
  }
}
