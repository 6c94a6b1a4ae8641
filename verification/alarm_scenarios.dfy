/**
 * Concrete runs of the alerting rules: the unit-test configuration
 * (CPU and MEMORY 70/90, REQUESTS 1000/2000, cooldown 10 s) and the
 * warning, critical and cooldown scenarios exercised against it.
 */
module AlarmScenarios {
  import opened Outcomes
  import opened Domain
  import opened AlarmRules
  import DecimalFormat

  const TestConfig := AlarmConfig(70, 90, 70, 90, 1000, 2000, 10)

  function Snapshot(cpu: Int32): Metric {
    Metric(1, "TestService", cpu, 50, 500, 0)
  }

  lemma Renders75()
    ensures DecimalFormat.FormatFixed2(75) == "75.00"
  {
    assert DecimalFormat.NatToDecimal(75) == "75";
  }

  lemma Renders95()
    ensures DecimalFormat.FormatFixed2(95) == "95.00"
  {
    assert DecimalFormat.NatToDecimal(95) == "95";
  }

  lemma WarningMessage()
    ensures AlarmMessage(Warning, Cpu, 75) == "WARNING level reached for CPU: 75.00"
  {
    Renders75();
  }

  lemma CriticalMessage()
    ensures AlarmMessage(Critical, Cpu, 95) == "CRITICAL level reached for CPU: 95.00"
  {
    Renders95();
  }

  /** CPU 75 raises one WARNING alarm with message "WARNING level reached for CPU: 75.00". */
  lemma WarningScenario(now: int)
    ensures Pass(TestConfig, [Snapshot(75)], None, now, true)
         == PassState([Alarm("TestService", "CPU", 75, "WARNING", now, "WARNING level reached for CPU: 75.00")], Some(now), Completed)
  {
    var m := Snapshot(75);
    WarningMessage();
    var a := AlarmFor(TestConfig, m, Cpu, now);
    assert a == Alarm("TestService", "CPU", 75, "WARNING", now, "WARNING level reached for CPU: 75.00");
    var s1 := Step(TestConfig, m, Cpu, now, true, PassState([], None, Completed));
    assert s1 == PassState([a], Some(now), Completed);
    assert !Breaches(TestConfig, m, Memory) && !Breaches(TestConfig, m, Requests);
  }

  /** CPU 95 raises one CRITICAL alarm. */
  lemma CriticalScenario(now: int)
    ensures Pass(TestConfig, [Snapshot(95)], None, now, true)
         == PassState([Alarm("TestService", "CPU", 95, "CRITICAL", now, "CRITICAL level reached for CPU: 95.00")], Some(now), Completed)
  {
    var m := Snapshot(95);
    CriticalMessage();
    var a := AlarmFor(TestConfig, m, Cpu, now);
    assert a == Alarm("TestService", "CPU", 95, "CRITICAL", now, "CRITICAL level reached for CPU: 95.00");
    var s1 := Step(TestConfig, m, Cpu, now, true, PassState([], None, Completed));
    assert s1 == PassState([a], Some(now), Completed);
    assert !Breaches(TestConfig, m, Memory) && !Breaches(TestConfig, m, Requests);
  }

  /**
   * The cooldown test: CPU 95 raises CRITICAL at t, and a second pass at the
   * same instant over the same snapshot notifies and stores nothing.
   */
  lemma CooldownActiveScenario(t: int)
    ensures Run(TestConfig, [Tick([Snapshot(95)], t, true), Tick([Snapshot(95)], t, true)], None)
         == ([Alarm("TestService", "CPU", 95, "CRITICAL", t, "CRITICAL level reached for CPU: 95.00")], Some(t))
  {
    var tick := Tick([Snapshot(95)], t, true);
    var critical := Alarm("TestService", "CPU", 95, "CRITICAL", t, "CRITICAL level reached for CPU: 95.00");
    CriticalScenario(t);
    SuppressedPassNoEffect(TestConfig, tick.metrics, t, t, true);
    var p0 := Pass(TestConfig, tick.metrics, None, t, true);
    var p1 := Pass(TestConfig, tick.metrics, Some(t), t, true);
    assert p0.emitted == [critical] && p0.last == Some(t);
    assert p1.emitted == [] && p1.last == Some(t);

    RunCons(TestConfig, tick, [], Some(t));
    assert [tick] + [] == [tick];
    assert Run(TestConfig, [], p1.last) == ([], Some(t));
    assert p1.emitted + [] == [];
    var r1 := Run(TestConfig, [tick], Some(t));
    assert r1 == ([], Some(t));

    RunCons(TestConfig, tick, [tick], None);
    assert [tick] + [tick] == [tick, tick];
    assert p0.emitted + r1.0 == [critical];
  }

  /** CPU 95 read 11 s after a WARNING at t: the 10 s window has passed and CRITICAL is raised. */
  lemma CriticalAfterWindow(t: int)
    ensures Pass(TestConfig, [Snapshot(75), Snapshot(95)], Some(t), t + 11, true)
         == PassState([Alarm("TestService", "CPU", 95, "CRITICAL", t + 11, "CRITICAL level reached for CPU: 95.00")], Some(t + 11), Completed)
  {
    CriticalScenario(t + 11);
    OnlyLatestMetricMatters(TestConfig, [Snapshot(75), Snapshot(95)], Some(t), t + 11, true);
    assert Pass(TestConfig, [Snapshot(95)], Some(t), t + 11, true) == Pass(TestConfig, [Snapshot(95)], None, t + 11, true);
  }

  /** After a WARNING at t: the pass at t is suppressed, the pass at t + 11 stores CRITICAL. */
  lemma SuppressedThenCritical(t: int)
    ensures Run(TestConfig, [Tick([Snapshot(75), Snapshot(95)], t, true), Tick([Snapshot(75), Snapshot(95)], t + 11, true)], Some(t))
         == ([Alarm("TestService", "CPU", 95, "CRITICAL", t + 11, "CRITICAL level reached for CPU: 95.00")], Some(t + 11))
  {
    var t1, t2 := Tick([Snapshot(75), Snapshot(95)], t, true), Tick([Snapshot(75), Snapshot(95)], t + 11, true);
    var critical := Alarm("TestService", "CPU", 95, "CRITICAL", t + 11, "CRITICAL level reached for CPU: 95.00");
    SuppressedPassNoEffect(TestConfig, t1.metrics, t, t, true);
    CriticalAfterWindow(t);
    var p1 := Pass(TestConfig, t1.metrics, Some(t), t, true);
    var p2 := Pass(TestConfig, t2.metrics, Some(t), t + 11, true);
    assert p1.emitted == [] && p1.last == Some(t);
    assert p2.emitted == [critical] && p2.last == Some(t + 11);

    RunCons(TestConfig, t2, [], Some(t));
    assert [t2] + [] == [t2];
    assert Run(TestConfig, [], p2.last) == ([], Some(t + 11));
    assert p2.emitted + [] == [critical];
    var r2 := Run(TestConfig, [t2], Some(t));
    assert r2 == ([critical], Some(t + 11));

    RunCons(TestConfig, t1, [t2], Some(t));
    assert [t1] + [t2] == [t1, t2];
    assert p1.emitted + r2.0 == [critical];
  }

  /**
   * A WARNING stored at t; a pass at the same instant over a CRITICAL
   * snapshot is suppressed by the 10 s cooldown; the same snapshot read
   * 11 s later, once the window has passed, stores a CRITICAL alarm.
   */
  lemma CooldownScenario(t: int)
    ensures Run(TestConfig,
                [Tick([Snapshot(75)], t, true), Tick([Snapshot(75), Snapshot(95)], t, true), Tick([Snapshot(75), Snapshot(95)], t + 11, true)],
                None)
         == ([Alarm("TestService", "CPU", 75, "WARNING", t, "WARNING level reached for CPU: 75.00"),
              Alarm("TestService", "CPU", 95, "CRITICAL", t + 11, "CRITICAL level reached for CPU: 95.00")],
             Some(t + 11))
  {
    var t0, t1, t2 := Tick([Snapshot(75)], t, true), Tick([Snapshot(75), Snapshot(95)], t, true), Tick([Snapshot(75), Snapshot(95)], t + 11, true);
    var warning := Alarm("TestService", "CPU", 75, "WARNING", t, "WARNING level reached for CPU: 75.00");
    var critical := Alarm("TestService", "CPU", 95, "CRITICAL", t + 11, "CRITICAL level reached for CPU: 95.00");
    WarningScenario(t);
    SuppressedThenCritical(t);
    var p0 := Pass(TestConfig, t0.metrics, None, t, true);
    assert p0.emitted == [warning] && p0.last == Some(t);
    var r1 := Run(TestConfig, [t1, t2], Some(t));
    RunCons(TestConfig, t0, [t1, t2], None);
    assert [t0] + [t1, t2] == [t0, t1, t2];
    assert p0.emitted + r1.0 == [warning, critical];
  }

  /** CPU 75 at start-up with a store whose save throws: the WARNING is notified, nothing is stored. */
  lemma UnsavedWarning(t: int)
    ensures Pass(TestConfig, [Snapshot(75)], None, t, false)
         == PassState([], None, SaveThrew(Alarm("TestService", "CPU", 75, "WARNING", t, "WARNING level reached for CPU: 75.00")))
  {
    WarningScenario(t);
    FailedSavePass(TestConfig, [Snapshot(75)], None, t);
  }

  /**
   * A save that throws at t leaves the gate at MIN, so the next pass one
   * second later notifies and stores the same WARNING despite the 10 s
   * cooldown.
   */
  lemma FailedSaveScenario(t: int)
    ensures Run(TestConfig, [Tick([Snapshot(75)], t, false), Tick([Snapshot(75)], t + 1, true)], None)
         == ([Alarm("TestService", "CPU", 75, "WARNING", t + 1, "WARNING level reached for CPU: 75.00")], Some(t + 1))
  {
    var t0, t1 := Tick([Snapshot(75)], t, false), Tick([Snapshot(75)], t + 1, true);
    var warning := Alarm("TestService", "CPU", 75, "WARNING", t + 1, "WARNING level reached for CPU: 75.00");
    UnsavedWarning(t);
    WarningScenario(t + 1);
    var p0 := Pass(TestConfig, t0.metrics, None, t, false);
    var p1 := Pass(TestConfig, t1.metrics, None, t1.now, t1.saves);
    assert p0.emitted == [] && p0.last == None;
    assert p1.emitted == [warning] && p1.last == Some(t + 1);

    RunCons(TestConfig, t1, [], None);
    assert [t1] + [] == [t1];
    assert Run(TestConfig, [], p1.last) == ([], Some(t + 1));
    assert p1.emitted + [] == [warning];
    var r1 := Run(TestConfig, [t1], None);
    assert r1 == ([warning], Some(t + 1));

    RunCons(TestConfig, t0, [t1], None);
    assert [t0] + [t1] == [t0, t1];
    assert p0.emitted + r1.0 == [warning];
  }
}
