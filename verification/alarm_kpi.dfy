/**
 * The alarm KPI: the number of stored alarms and, per severity string, how
 * many alarms carry it (a group-by-and-count over the alarm store).
 */
module AlarmKpi {
  import opened Outcomes
  import opened Domain

  datatype Kpi = Kpi(totalAlarms: nat, severityCounts: map<string, nat>)

  /** The number of alarms whose severity is s. */
  function CountOf(alarms: seq<AlarmEntity>, s: string): nat {
    if alarms == [] then 0
    else CountOf(alarms[..|alarms| - 1], s) + (if alarms[|alarms| - 1].severity == s then 1 else 0)
  }

  /** The group-by, folded over the alarms in store order. */
  function GroupCounts(alarms: seq<AlarmEntity>): (counts: map<string, nat>)
    ensures forall s :: s in counts <==> (exists i :: 0 <= i < |alarms| && alarms[i].severity == s)
    ensures forall s :: s in counts ==> counts[s] == CountOf(alarms, s) && counts[s] > 0
    ensures forall s :: s !in counts ==> CountOf(alarms, s) == 0
  {
    if alarms == [] then map[]
    else
      var prefix := alarms[..|alarms| - 1];
      var m := GroupCounts(prefix);
      var s := alarms[|alarms| - 1].severity;
      var counts := m[s := if s in m then m[s] + 1 else 1];
      assert forall i :: 0 <= i < |prefix| ==> prefix[i] == alarms[i];
      counts
  }

  /** The sum of a map's counts. */
  ghost function Total(m: map<string, nat>): nat
    decreases |m|
  {
    if m == map[] then 0
    else
      var k :| k in m;
      m[k] + Total(m - {k})
  }

  /** Total can be split at any key, not just the one it picks. */
  lemma {:induction false} TotalSplit(m: map<string, nat>, k: string)
    requires k in m
    ensures Total(m) == m[k] + Total(m - {k})
    decreases |m|
  {
    var j :| j in m && Total(m) == m[j] + Total(m - {j});
    if j != k {
      assert |m - {j}| < |m| by { assert (m - {j}).Keys < m.Keys; }
      assert |m - {k}| < |m| by { assert (m - {k}).Keys < m.Keys; }
      TotalSplit(m - {j}, k);
      TotalSplit(m - {k}, j);
      assert m - {j} - {k} == m - {k} - {j};
    }
  }

  /** The counts add up to the number of alarms. */
  lemma {:induction false} CountsSumToTotal(alarms: seq<AlarmEntity>)
    ensures Total(GroupCounts(alarms)) == |alarms|
  {
    if alarms != [] {
      var prefix := alarms[..|alarms| - 1];
      var m := GroupCounts(prefix);
      var s := alarms[|alarms| - 1].severity;
      var counts := GroupCounts(alarms);
      CountsSumToTotal(prefix);
      assert counts == m[s := if s in m then m[s] + 1 else 1];
      TotalSplit(counts, s);
      assert counts - {s} == m - {s};
      if s in m {
        TotalSplit(m, s);
      } else {
        assert m - {s} == m;
      }
    }
  }

  /**
   * `calculateKpi` in both copies of the service: total and per-severity counts
   * of the fetched alarms, or the repository failure passed on unchanged.
   */
  function CalculateKpi(fetched: Result<seq<AlarmEntity>, DataAccessFailure>): (r: Result<Kpi, DataAccessFailure>)
    ensures fetched.Failure? ==> r == Failure(fetched.error)
    ensures fetched.Success? ==> r.Success? && r.value.totalAlarms == |fetched.value|
    ensures fetched == Success([]) ==> r == Success(Kpi(0, map[]))
  {
    match fetched
    case Success(alarms) => Success(Kpi(|alarms|, GroupCounts(alarms)))
    case Failure(e) => Failure(e)
  }

  /** For a successful fetch: each severity's count is right, only occurring severities are keys, and the counts sum to the total. */
  lemma KpiConsistent(alarms: seq<AlarmEntity>)
    ensures var k := CalculateKpi(Success(alarms)).value;
      && k.totalAlarms == |alarms|
      && (forall s :: s in k.severityCounts <==> CountOf(alarms, s) > 0)
      && (forall s :: s in k.severityCounts ==> k.severityCounts[s] == CountOf(alarms, s))
      && Total(k.severityCounts) == k.totalAlarms
  {
    CountsSumToTotal(alarms);
  }
}
