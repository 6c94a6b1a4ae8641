/**
 * The alarm service as an object: it reads the metric store, keeps the global
 * cooldown timestamp, calls every notifier and saves one alarm row per emission.
 */
module Alarms {
  import opened Outcomes
  import opened Domain
  import opened Repositories
  import opened AlarmRules

  /** An observable call on a collaborator: a notifier receiving an alarm, or the alarm store saving a row. */
  datatype Event = Notified(notifier: Notifier, alarm: Alarm) | Saved(entity: AlarmEntity)

  /** One notification per notifier, in list order. */
  function Deliveries(notifiers: seq<Notifier>, alarm: Alarm): (r: seq<Event>)
    ensures |r| == |notifiers|
    ensures forall i :: 0 <= i < |notifiers| ==> r[i] == Notified(notifiers[i], alarm)
  {
    if notifiers == [] then []
    else Deliveries(notifiers[..|notifiers| - 1], alarm) + [Notified(notifiers[|notifiers| - 1], alarm)]
  }

  /** The calls made for one emitted alarm: all notifiers first, then the save. */
  function Emission(notifiers: seq<Notifier>, alarm: Alarm): seq<Event> {
    Deliveries(notifiers, alarm) + [Saved(ToEntity(alarm))]
  }

  function Emissions(notifiers: seq<Notifier>, alarms: seq<Alarm>): seq<Event> {
    if alarms == [] then []
    else Emissions(notifiers, alarms[..|alarms| - 1]) + Emission(notifiers, alarms[|alarms| - 1])
  }

  function Entities(alarms: seq<Alarm>): (r: seq<AlarmEntity>)
    ensures |r| == |alarms|
    ensures forall i :: 0 <= i < |alarms| ==> r[i] == ToEntity(alarms[i])
  {
    if alarms == [] then []
    else Entities(alarms[..|alarms| - 1]) + [ToEntity(alarms[|alarms| - 1])]
  }

  lemma AppendOne(notifiers: seq<Notifier>, alarms: seq<Alarm>, a: Alarm)
    ensures Emissions(notifiers, alarms + [a]) == Emissions(notifiers, alarms) + Emission(notifiers, a)
    ensures Entities(alarms + [a]) == Entities(alarms) + [ToEntity(a)]
  {
    assert (alarms + [a])[..|alarms|] == alarms;
  }

  /**
   * The calls a pass makes: notify and save each stored alarm, then, when a
   * save threw, the notifications already sent for the alarm it failed to store.
   */
  function PassCalls(notifiers: seq<Notifier>, p: PassState): seq<Event> {
    Emissions(notifiers, p.emitted) + if p.outcome.SaveThrew? then Deliveries(notifiers, p.outcome.unsaved) else []
  }

  class AlarmService {
    const metricRepository: MetricRepository
    const config: AlarmConfig
    const notifiers: seq<Notifier>
    const alarmRepository: AlarmRepository

    /** Time of the last emitted alarm; None is LocalDateTime.MIN. */
    var lastAlarmTime: Option<int>
    /** Every notifier call and alarm save made by this service, in order. */
    var calls: seq<Event>

    constructor (metricRepository: MetricRepository, config: AlarmConfig,
                 notifiers: seq<Notifier>, alarmRepository: AlarmRepository)
      ensures this.metricRepository == metricRepository && this.config == config
      ensures this.notifiers == notifiers && this.alarmRepository == alarmRepository
      ensures lastAlarmTime == None && calls == []
    {
      this.metricRepository := metricRepository;
      this.config := config;
      this.notifiers := notifiers;
      this.alarmRepository := alarmRepository;
      lastAlarmTime := None;
      calls := [];
    }

    /**
     * One scheduled pass at clock reading now. `completed` is false when an
     * exception ended the pass: the metric store did not answer, the
     * cooldown computation threw, or the alarm store's save threw.
     */
    method CheckMetricsForAlarms(now: int) returns (completed: bool)
      modifies this, alarmRepository
      ensures alarmRepository.available == old(alarmRepository.available)
      ensures !metricRepository.available ==>
        && alarmRepository.records == old(alarmRepository.records) && calls == old(calls)
        && lastAlarmTime == old(lastAlarmTime) && !completed
      ensures metricRepository.available ==>
        var p := Pass(config, metricRepository.records, old(lastAlarmTime), now, old(alarmRepository.available));
        && alarmRepository.records == old(alarmRepository.records) + Entities(p.emitted)
        && calls == old(calls) + PassCalls(notifiers, p)
        && lastAlarmTime == p.last
        && completed == p.outcome.Completed?
    {
      if !metricRepository.available {
        return false;
      }
      var metrics := metricRepository.records;
      ghost var saves := alarmRepository.available;
      ghost var r0, c0 := alarmRepository.records, calls;
      ghost var s := PassState([], lastAlarmTime, Completed);
      if |metrics| == 0 {
        assert PassCalls(notifiers, s) == [];
        return true;
      }
      var latest := metrics[|metrics| - 1];

      ghost var r, c := alarmRepository.records, calls;
      completed := CheckThreshold(latest.serviceName, Cpu, latest.cpu,
                                  config.cpuThresholdWarning, config.cpuThresholdCritical, now);
      Advance(s, latest, Cpu, now, saves, r0, c0, r, c, alarmRepository.records, calls, lastAlarmTime);
      s := Step(config, latest, Cpu, now, saves, s);
      if !completed { return; }

      r, c := alarmRepository.records, calls;
      completed := CheckThreshold(latest.serviceName, Memory, latest.memory,
                                  config.memoryThresholdWarning, config.memoryThresholdCritical, now);
      Advance(s, latest, Memory, now, saves, r0, c0, r, c, alarmRepository.records, calls, lastAlarmTime);
      s := Step(config, latest, Memory, now, saves, s);
      if !completed { return; }

      r, c := alarmRepository.records, calls;
      completed := CheckThreshold(latest.serviceName, Requests, latest.requests,
                                  config.requestsThresholdWarning, config.requestsThresholdCritical, now);
      Advance(s, latest, Requests, now, saves, r0, c0, r, c, alarmRepository.records, calls, lastAlarmTime);
      s := Step(config, latest, Requests, now, saves, s);
    }

    /** The stores and the gate hold what the pass state s says, starting from r0 and c0. */
    ghost predicate Tracked(s: PassState, r0: seq<AlarmEntity>, c0: seq<Event>,
                            records: seq<AlarmEntity>, trace: seq<Event>, last: Option<int>)
    {
      && records == r0 + Entities(s.emitted)
      && trace == c0 + PassCalls(notifiers, s)
      && last == s.last
    }

    /** What CheckThreshold promises, as a relation between the values before and after. */
    ghost predicate CheckDone(e: Check, saves: bool, records: seq<AlarmEntity>, trace: seq<Event>,
                              records': seq<AlarmEntity>, trace': seq<Event>, last': Option<int>, last: Option<int>, now: int)
    {
      match e
      case Raised(a) =>
        if saves then trace' == trace + Emission(notifiers, a) && records' == records + [ToEntity(a)] && last' == Some(now)
        else trace' == trace + Deliveries(notifiers, a) && records' == records && last' == last
      case _ =>
        trace' == trace && records' == records && last' == last
    }

    /** After CheckThreshold for dimension d, the stores track the pass advanced by that step. */
    lemma Advance(s: PassState, m: Metric, d: Dimension, now: int, saves: bool, r0: seq<AlarmEntity>, c0: seq<Event>,
                  records: seq<AlarmEntity>, trace: seq<Event>,
                  records': seq<AlarmEntity>, trace': seq<Event>, last': Option<int>)
      requires s.outcome.Completed? && Tracked(s, r0, c0, records, trace, s.last)
      requires CheckDone(Evaluate(s.last, config.cooldownSeconds, m.serviceName, d, Reading(m, d),
                                  WarningThreshold(config, d), CriticalThreshold(config, d), now),
                         saves, records, trace, records', trace', last', s.last, now)
      ensures Tracked(Step(config, m, d, now, saves, s), r0, c0, records', trace', last')
    {
      var e := Evaluate(s.last, config.cooldownSeconds, m.serviceName, d, Reading(m, d),
                        WarningThreshold(config, d), CriticalThreshold(config, d), now);
      AdvanceBy(e, s, now, saves, r0, c0, records, trace, records', trace', last');
    }

    /** The same, for any outcome of the check. */
    lemma AdvanceBy(e: Check, s: PassState, now: int, saves: bool, r0: seq<AlarmEntity>, c0: seq<Event>,
                    records: seq<AlarmEntity>, trace: seq<Event>,
                    records': seq<AlarmEntity>, trace': seq<Event>, last': Option<int>)
      requires s.outcome.Completed? && Tracked(s, r0, c0, records, trace, s.last)
      requires CheckDone(e, saves, records, trace, records', trace', last', s.last, now)
      ensures Tracked(Apply(e, now, saves, s), r0, c0, records', trace', last')
    {
      var next := Apply(e, now, saves, s);
      assert PassCalls(notifiers, s) == Emissions(notifiers, s.emitted) + [];
      match e
      case Raised(a) =>
        if saves {
          AppendOne(notifiers, s.emitted, a);
          assert PassCalls(notifiers, next) == Emissions(notifiers, s.emitted + [a]) + [];
        }
      case _ =>
    }

    /**
     * Checks one dimension: classify, consult the cooldown gate, then notify
     * every notifier, save the alarm row and move the gate to now. A save
     * that throws ends the check after the notifications, gate unmoved.
     */
    method CheckThreshold(serviceName: string, dim: Dimension, value: int,
                          warning: int, critical: int, now: int) returns (completed: bool)
      modifies this, alarmRepository
      ensures alarmRepository.available == old(alarmRepository.available)
      ensures match Evaluate(old(lastAlarmTime), config.cooldownSeconds, serviceName, dim, value, warning, critical, now)
        case Raised(a) =>
          if old(alarmRepository.available) then
            && calls == old(calls) + Emission(notifiers, a)
            && alarmRepository.records == old(alarmRepository.records) + [ToEntity(a)]
            && lastAlarmTime == Some(now) && completed
          else
            && calls == old(calls) + Deliveries(notifiers, a)
            && alarmRepository.records == old(alarmRepository.records)
            && lastAlarmTime == old(lastAlarmTime) && !completed
        case GateFailed =>
          && calls == old(calls) && alarmRepository.records == old(alarmRepository.records)
          && lastAlarmTime == old(lastAlarmTime) && !completed
        case _ =>
          && calls == old(calls) && alarmRepository.records == old(alarmRepository.records)
          && lastAlarmTime == old(lastAlarmTime) && completed
    {
      ghost var e := Evaluate(lastAlarmTime, config.cooldownSeconds, serviceName, dim, value, warning, critical, now);
      var severity := Classify(value, warning, critical);
      if severity.None? {
        assert e == NoBreach;
        return true;
      }
      var gate := CooldownGate(lastAlarmTime, config.cooldownSeconds, now);
      if gate == OutOfRange {
        assert e == GateFailed;
        return false;
      }
      if gate == Suppressed {
        assert e == CoolingDown;
        return true;
      }

      var alarm := Alarm(serviceName, dim.Name(), value, severity.value.Name(), now,
                         AlarmMessage(severity.value, dim, value));
      assert e == Raised(alarm);

      for i := 0 to |notifiers|
        invariant calls == old(calls) + Deliveries(notifiers[..i], alarm)
        invariant alarmRepository.records == old(alarmRepository.records)
        invariant lastAlarmTime == old(lastAlarmTime)
        invariant alarmRepository.available == old(alarmRepository.available)
      {
        assert notifiers[..i + 1][..i] == notifiers[..i];
        calls := calls + [Notified(notifiers[i], alarm)];
      }
      assert notifiers[..|notifiers|] == notifiers;

      var entity := AlarmEntity(alarm.serviceName, alarm.metricName, alarm.value,
                                alarm.severity, alarm.timestamp, alarm.message);
      var stored := alarmRepository.Save(entity);
      if !stored {
        return false;
      }
      calls := calls + [Saved(entity)];

      lastAlarmTime := Some(now);
      completed := true;
    }
  }
}
