/**
 * The alarm history endpoint: which of the four store queries runs for the
 * optional severity, from and to parameters, and what each query returns.
 */
module AlarmFilter {
  import opened Outcomes
  import opened Domain

  /** The four repository queries; time bounds are inclusive (SQL BETWEEN). */
  datatype Query =
    | BySeverityAndTimestampBetween(severity: string, from: int, to: int)
    | BySeverity(severity: string)
    | ByTimestampBetween(from: int, to: int)
    | FindAll

  /** The dispatch of `getAlarms`: the first condition that holds picks the query. */
  function SelectQuery(severity: Option<string>, from: Option<int>, to: Option<int>): (q: Query)
    ensures q.BySeverityAndTimestampBetween? <==> severity.Some? && from.Some? && to.Some?
    ensures q.BySeverity? <==> severity.Some? && (from.None? || to.None?)
    ensures q.ByTimestampBetween? <==> severity.None? && from.Some? && to.Some?
    ensures q.FindAll? <==> severity.None? && (from.None? || to.None?)
    ensures (q.BySeverityAndTimestampBetween? || q.BySeverity?) ==> q.severity == severity.value
    ensures (q.BySeverityAndTimestampBetween? || q.ByTimestampBetween?) ==> q.from == from.value && q.to == to.value
  {
    if severity.Some? && from.Some? && to.Some? then BySeverityAndTimestampBetween(severity.value, from.value, to.value)
    else if severity.Some? then BySeverity(severity.value)
    else if from.Some? && to.Some? then ByTimestampBetween(from.value, to.value)
    else FindAll
  }

  /** Whether a stored alarm is selected by a query. */
  predicate Matches(q: Query, a: AlarmEntity) {
    match q
    case BySeverityAndTimestampBetween(s, from, to) => a.severity == s && from <= a.timestamp <= to
    case BySeverity(s) => a.severity == s
    case ByTimestampBetween(from, to) => from <= a.timestamp <= to
    case FindAll => true
  }

  /** A query's result: the matching stored alarms, in store order. */
  function RunQuery(q: Query, store: seq<AlarmEntity>): (r: seq<AlarmEntity>)
    ensures |r| <= |store|
    ensures forall a :: multiset(r)[a] == if Matches(q, a) then multiset(store)[a] else 0
  {
    if store == [] then []
    else
      var rest := RunQuery(q, store[1..]);
      var r := if Matches(q, store[0]) then [store[0]] + rest else rest;
      assert store == [store[0]] + store[1..];
      assert multiset(store) == multiset([store[0]]) + multiset(store[1..]);
      r
  }

  /** `getAlarms` without paging: exactly the stored alarms that the selected query matches. */
  function GetAlarms(severity: Option<string>, from: Option<int>, to: Option<int>, store: seq<AlarmEntity>): (r: seq<AlarmEntity>)
    ensures forall a :: a in r <==> a in store && Matches(SelectQuery(severity, from, to), a)
  {
    var r := RunQuery(SelectQuery(severity, from, to), store);
    assert forall a :: (a in r <==> multiset(r)[a] > 0) && (a in store <==> multiset(store)[a] > 0);
    r
  }

  /** A lone time bound is ignored: with a severity it filters by severity only, without one it returns everything. */
  lemma LoneBoundIgnored(severity: Option<string>, from: Option<int>, to: Option<int>, store: seq<AlarmEntity>)
    requires from.None? || to.None?
    ensures severity.Some? ==> GetAlarms(severity, from, to, store) == GetAlarms(severity, None, None, store)
    ensures severity.None? ==> GetAlarms(severity, from, to, store) == store
  {
    if severity.None? {
      RunAllIsStore(store);
    }
  }

  lemma {:induction false} RunAllIsStore(store: seq<AlarmEntity>)
    ensures RunQuery(FindAll, store) == store
  {
    if store != [] {
      RunAllIsStore(store[1..]);
    }
  }
}
