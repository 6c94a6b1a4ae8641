/**
 * The two append-only stores, as the core uses them: `findAll` reads, `save`
 * appends. `available` says whether the database answers; when it does not,
 * every call on the store throws.
 */
module Repositories {
  import opened Outcomes
  import opened Domain

  class MetricRepository {
    var records: seq<Metric>
    var available: bool
    /** The identity generator: the last id handed out. */
    var lastId: int

    /** Stored ids are positive, pairwise distinct and never above the generator. */
    ghost predicate Valid()
      reads this
    {
      && 0 <= lastId
      && (forall i :: 0 <= i < |records| ==> 0 < records[i].id <= lastId)
      && (forall i, j :: 0 <= i < j < |records| ==> records[i].id != records[j].id)
    }

    constructor (available: bool)
      ensures Valid() && records == [] && this.available == available
    {
      records := [];
      this.available := available;
      lastId := 0;
    }

    /** Appends the snapshot under a fresh positive id; None when the database does not answer. */
    method Save(m: Metric) returns (saved: Option<Metric>)
      requires Valid()
      modifies this
      ensures Valid() && available == old(available)
      ensures old(available) ==>
        && saved.Some? && saved.value == m.(id := saved.value.id) && saved.value.id > 0
        && (forall r :: r in old(records) ==> r.id != saved.value.id)
        && records == old(records) + [saved.value]
      ensures !old(available) ==> saved.None? && records == old(records)
    {
      if !available {
        return None;
      }
      lastId := lastId + 1;
      var stored := m.(id := lastId);
      records := records + [stored];
      saved := Some(stored);
    }
  }

  class AlarmRepository {
    var records: seq<AlarmEntity>
    var available: bool

    constructor (available: bool)
      ensures records == [] && this.available == available
    {
      records := [];
      this.available := available;
    }

    /** Appends the row and reports true; reports false and stores nothing when the database does not answer. */
    method Save(e: AlarmEntity) returns (ok: bool)
      modifies this
      ensures ok == old(available) && available == old(available)
      ensures records == if ok then old(records) + [e] else old(records)
    {
      if !available {
        return false;
      }
      records := records + [e];
      ok := true;
    }
  }
}
