/**
 * The alerting rules of the alarm service as values: severity classification,
 * the global cooldown gate, the alarm built for a breach, and what one
 * evaluation pass over the metric store emits.
 */
module AlarmRules {
  import opened Outcomes
  import opened Domain
  import DecimalFormat

  /** CRITICAL at or above the critical threshold, else WARNING at or above the warning threshold. */
  function Classify(value: int, warning: int, critical: int): (r: Option<Severity>)
    ensures r == Some(Critical) <==> value >= critical
    ensures r == Some(Warning) <==> warning <= value < critical
    ensures r == None <==> value < warning && value < critical
  {
    if value >= critical then Some(Critical)
    else if value >= warning then Some(Warning)
    else None
  }

  /**
   * The cooldown test `lastAlarmTime.plusSeconds(cooldown).isAfter(now)`.
   * None stands for LocalDateTime.MIN: adding a non-negative cooldown to it
   * stays far before any clock reading, adding a negative one leaves the
   * supported range and throws.
   */
  datatype Gate = Open | Suppressed | OutOfRange

  function CooldownGate(last: Option<int>, cooldown: int, now: int): (g: Gate)
    ensures g == Suppressed <==> last.Some? && last.value + cooldown > now
    ensures g == OutOfRange <==> last.None? && cooldown < 0
  {
    match last
    case None => if cooldown < 0 then OutOfRange else Open
    case Some(t) => if t + cooldown > now then Suppressed else Open
  }

  /** A gate open at one clock reading stays open at every later one. */
  lemma GateStaysOpen(last: Option<int>, cooldown: int, now: int, later: int)
    requires CooldownGate(last, cooldown, now) == Open && now <= later
    ensures CooldownGate(last, cooldown, later) == Open
  {
  }

  /** The text of an alarm message before its number. */
  function MessageLead(severity: Severity, dim: Dimension): string {
    severity.Name() + " level reached for " + dim.Name() + ": "
  }

  /** "<severity> level reached for <metric>: <value with two decimals>". */
  function AlarmMessage(severity: Severity, dim: Dimension, value: int): (s: string)
    ensures |s| >= |severity.Name()| + 4 && s[..|severity.Name()|] == severity.Name()
    ensures s[|s| - 3..] == ".00"
  {
    var f := DecimalFormat.FormatFixed2(value);
    var head := MessageLead(severity, dim);
    assert (head + f)[|head + f| - 3..] == f[|f| - 3..];
    assert (head + f)[..|severity.Name()|] == severity.Name();
    head + f
  }

  /** Every message is its lead text, naming severity and metric, followed by the `%.2f` number. */
  lemma AlarmMessageLayout(severity: Severity, dim: Dimension, value: int)
    ensures var s := AlarmMessage(severity, dim, value);
      && |s| == |MessageLead(severity, dim)| + |DecimalFormat.FormatFixed2(value)|
      && s[..|MessageLead(severity, dim)|] == MessageLead(severity, dim)
      && s[|MessageLead(severity, dim)|..] == DecimalFormat.FormatFixed2(value)
  {
    var head, f := MessageLead(severity, dim), DecimalFormat.FormatFixed2(value);
    assert AlarmMessage(severity, dim, value) == head + f;
    assert (head + f)[..|head|] == head;
    assert (head + f)[|head|..] == f;
  }

  /** The number at the end of the message reads back as the alarm's value. */
  lemma AlarmMessageReadsBack(severity: Severity, dim: Dimension, value: int)
    ensures var s := AlarmMessage(severity, dim, value);
      && |s| >= |DecimalFormat.FormatFixed2(value)|
      && DecimalFormat.ParseFixed2(s[|s| - |DecimalFormat.FormatFixed2(value)|..]) == Some(value)
  {
    var f := DecimalFormat.FormatFixed2(value);
    var head := MessageLead(severity, dim);
    assert AlarmMessage(severity, dim, value) == head + f;
    assert (head + f)[|head + f| - |f|..] == f;
    DecimalFormat.FormatFixed2RoundTrip(value);
  }

  /** What one threshold check does. */
  datatype Check = NoBreach | CoolingDown | Raised(alarm: Alarm) | GateFailed

  /** One threshold check for a dimension, given the gate state and one clock reading. */
  function Evaluate(last: Option<int>, cooldown: int, serviceName: string, dim: Dimension,
                    value: int, warning: int, critical: int, now: int): (r: Check)
    ensures r == NoBreach <==> Classify(value, warning, critical).None?
    ensures r == CoolingDown <==> Classify(value, warning, critical).Some? && CooldownGate(last, cooldown, now) == Suppressed
    ensures r == GateFailed <==> Classify(value, warning, critical).Some? && CooldownGate(last, cooldown, now) == OutOfRange
    ensures r.Raised? <==> Classify(value, warning, critical).Some? && CooldownGate(last, cooldown, now) == Open
  {
    match Classify(value, warning, critical)
    case None => NoBreach
    case Some(severity) =>
      match CooldownGate(last, cooldown, now)
      case Suppressed => CoolingDown
      case OutOfRange => GateFailed
      case Open => Raised(Alarm(serviceName, dim.Name(), value, severity.Name(), now, AlarmMessage(severity, dim, value)))
  }

  /**
   * How a pass ended: normally, on the exception thrown by the cooldown
   * computation, or on the exception thrown by the alarm store's save after
   * `unsaved` had already been sent to every notifier.
   */
  datatype PassEnd = Completed | CooldownThrew | SaveThrew(unsaved: Alarm)

  /** Alarms notified and stored so far in a pass, the gate timestamp, and how the pass ended. */
  datatype PassState = PassState(emitted: seq<Alarm>, last: Option<int>, outcome: PassEnd)

  /** The effect of one check's outcome on a pass still running; `saves` says whether the alarm store's save succeeds. */
  function Apply(e: Check, now: int, saves: bool, s: PassState): PassState {
    match e
    case Raised(a) => if saves then PassState(s.emitted + [a], Some(now), Completed) else s.(outcome := SaveThrew(a))
    case GateFailed => s.(outcome := CooldownThrew)
    case _ => s
  }

  /** Every alarm in the list carries clock reading now. */
  predicate StampedAt(alarms: seq<Alarm>, now: int) {
    forall i :: 0 <= i < |alarms| ==> alarms[i].timestamp == now
  }

  /** One threshold check inside a pass; nothing happens once the pass has ended. */
  function Step(cfg: AlarmConfig, m: Metric, dim: Dimension, now: int, saves: bool, s: PassState): (r: PassState)
    ensures |s.emitted| <= |r.emitted| <= |s.emitted| + 1
    ensures !saves ==> r.emitted == s.emitted
    ensures r.last == if r.emitted == s.emitted then s.last else Some(now)
    ensures StampedAt(s.emitted, now) ==> StampedAt(r.emitted, now)
    ensures r.outcome.SaveThrew? && r.outcome != s.outcome ==> !saves && r.outcome.unsaved.timestamp == now
    ensures r.outcome == CooldownThrew && r.outcome != s.outcome ==> s.last.None? && cfg.cooldownSeconds < 0
  {
    if !s.outcome.Completed? then s
    else Apply(Evaluate(s.last, cfg.cooldownSeconds, m.serviceName, dim, Reading(m, dim),
                        WarningThreshold(cfg, dim), CriticalThreshold(cfg, dim), now), now, saves, s)
  }

  /** One evaluation pass: the latest metric only, dimensions in the order CPU, MEMORY, REQUESTS. */
  function Pass(cfg: AlarmConfig, metrics: seq<Metric>, last: Option<int>, now: int, saves: bool): (r: PassState)
    ensures |metrics| == 0 ==> r == PassState([], last, Completed)
    ensures |r.emitted| <= 3 && (!saves ==> r.emitted == [])
    ensures r.last == if r.emitted == [] then last else Some(now)
    ensures StampedAt(r.emitted, now)
    ensures r.outcome.SaveThrew? ==> !saves && r.outcome.unsaved.timestamp == now
    ensures r.outcome == CooldownThrew ==> last.None? && cfg.cooldownSeconds < 0
  {
    var start := PassState([], last, Completed);
    if |metrics| == 0 then start
    else
      var latest := metrics[|metrics| - 1];
      var s1 := Step(cfg, latest, Cpu, now, saves, start);
      var s2 := Step(cfg, latest, Memory, now, saves, s1);
      Step(cfg, latest, Requests, now, saves, s2)
  }

  /** Every alarm a pass sent to the notifiers: the stored ones, then the one whose save threw. */
  function Notified(p: PassState): seq<Alarm> {
    p.emitted + if p.outcome.SaveThrew? then [p.outcome.unsaved] else []
  }

  // ---------------------------------------------------------------------
  // Reference definitions the pass is compared with

  predicate Breaches(cfg: AlarmConfig, m: Metric, d: Dimension) {
    Classify(Reading(m, d), WarningThreshold(cfg, d), CriticalThreshold(cfg, d)).Some?
  }

  /** The alarm raised for a breaching dimension at time now. */
  function AlarmFor(cfg: AlarmConfig, m: Metric, d: Dimension, now: int): Alarm
    requires Breaches(cfg, m, d)
  {
    var v := Reading(m, d);
    var severity := Classify(v, WarningThreshold(cfg, d), CriticalThreshold(cfg, d)).value;
    Alarm(m.serviceName, d.Name(), v, severity.Name(), now, AlarmMessage(severity, d, v))
  }

  /** The first breaching dimension in CPU, MEMORY, REQUESTS order. */
  function FirstBreach(cfg: AlarmConfig, m: Metric): (r: Option<Dimension>)
    ensures r.Some? ==> Breaches(cfg, m, r.value)
    ensures r.None? <==> !Breaches(cfg, m, Cpu) && !Breaches(cfg, m, Memory) && !Breaches(cfg, m, Requests)
    ensures r == Some(Memory) ==> !Breaches(cfg, m, Cpu)
    ensures r == Some(Requests) ==> !Breaches(cfg, m, Cpu) && !Breaches(cfg, m, Memory)
  {
    if Breaches(cfg, m, Cpu) then Some(Cpu)
    else if Breaches(cfg, m, Memory) then Some(Memory)
    else if Breaches(cfg, m, Requests) then Some(Requests)
    else None
  }

  /** The alarms for every breaching dimension, in CPU, MEMORY, REQUESTS order. */
  function AllBreaches(cfg: AlarmConfig, m: Metric, now: int): seq<Alarm> {
    (if Breaches(cfg, m, Cpu) then [AlarmFor(cfg, m, Cpu, now)] else [])
    + (if Breaches(cfg, m, Memory) then [AlarmFor(cfg, m, Memory, now)] else [])
    + (if Breaches(cfg, m, Requests) then [AlarmFor(cfg, m, Requests, now)] else [])
  }

  // ---------------------------------------------------------------------
  // Properties of one pass

  /** The alarm carries the metric's service, the dimension, its value, its severity and the message for them. */
  lemma RaisedAlarmFields(last: Option<int>, cooldown: int, serviceName: string, dim: Dimension,
                          value: int, warning: int, critical: int, now: int)
    requires Evaluate(last, cooldown, serviceName, dim, value, warning, critical, now).Raised?
    ensures var a := Evaluate(last, cooldown, serviceName, dim, value, warning, critical, now).alarm;
      && a.serviceName == serviceName && a.metricName == dim.Name() && a.value == value && a.timestamp == now
      && (a.severity == "CRITICAL" <==> value >= critical)
      && (a.severity == "WARNING" <==> warning <= value < critical)
      && |a.message| >= |DecimalFormat.FormatFixed2(value)|
      && DecimalFormat.ParseFixed2(a.message[|a.message| - |DecimalFormat.FormatFixed2(value)|..]) == Some(value)
  {
    AlarmMessageReadsBack(Classify(value, warning, critical).value, dim, value);
  }

  /** A check below both thresholds changes nothing. */
  lemma NoBreachNoEffect(cfg: AlarmConfig, metrics: seq<Metric>, last: Option<int>, now: int, saves: bool)
    requires |metrics| > 0
    requires FirstBreach(cfg, metrics[|metrics| - 1]).None?
    ensures Pass(cfg, metrics, last, now, saves) == PassState([], last, Completed)
  {
  }

  /** An empty store: no alarm, gate unchanged. */
  lemma EmptyStoreNoEffect(cfg: AlarmConfig, last: Option<int>, now: int, saves: bool)
    ensures Pass(cfg, [], last, now, saves) == PassState([], last, Completed)
  {
  }

  /** Only the last stored snapshot is read. */
  lemma OnlyLatestMetricMatters(cfg: AlarmConfig, metrics: seq<Metric>, last: Option<int>, now: int, saves: bool)
    requires |metrics| > 0
    ensures Pass(cfg, metrics, last, now, saves) == Pass(cfg, [metrics[|metrics| - 1]], last, now, saves)
  {
  }

  /** While the window is open (last + cooldown strictly after now) the pass is fully suppressed. */
  lemma SuppressedPassNoEffect(cfg: AlarmConfig, metrics: seq<Metric>, t: int, now: int, saves: bool)
    requires t + cfg.cooldownSeconds > now
    ensures Pass(cfg, metrics, Some(t), now, saves) == PassState([], Some(t), Completed)
  {
  }

  /**
   * With a positive cooldown a pass raises at most one alarm: the one for the
   * first breaching dimension, when the gate is open. When it is saved the
   * gate moves to now; when the save throws the gate stays where it was.
   */
  lemma {:induction false} PassWithCooldown(cfg: AlarmConfig, metrics: seq<Metric>, last: Option<int>, now: int, saves: bool)
    requires cfg.cooldownSeconds > 0 && |metrics| > 0
    ensures var m := metrics[|metrics| - 1];
      var p := Pass(cfg, metrics, last, now, saves);
      if FirstBreach(cfg, m).Some? && CooldownGate(last, cfg.cooldownSeconds, now) == Open then
        var a := AlarmFor(cfg, m, FirstBreach(cfg, m).value, now);
        p == if saves then PassState([a], Some(now), Completed) else PassState([], last, SaveThrew(a))
      else p == PassState([], last, Completed)
  {
    var m := metrics[|metrics| - 1];
    var start := PassState([], last, Completed);
    var s1 := Step(cfg, m, Cpu, now, saves, start);
    var s2 := Step(cfg, m, Memory, now, saves, s1);
    var s3 := Step(cfg, m, Requests, now, saves, s2);
    if FirstBreach(cfg, m).Some? && CooldownGate(last, cfg.cooldownSeconds, now) == Open {
      var d := FirstBreach(cfg, m).value;
      var a := AlarmFor(cfg, m, d, now);
      var raised := if saves then PassState([a], Some(now), Completed) else PassState([], last, SaveThrew(a));
      if d == Cpu {
        assert s1 == raised;
        QuietStep(cfg, m, Memory, now, saves, s1);
        QuietStep(cfg, m, Requests, now, saves, s2);
      } else if d == Memory {
        assert s1 == start;
        assert s2 == raised;
        QuietStep(cfg, m, Requests, now, saves, s2);
      } else {
        assert s2 == start;
      }
    }
  }

  /** After a stored alarm with a positive cooldown, or once the pass has ended, a check does nothing. */
  lemma QuietStep(cfg: AlarmConfig, m: Metric, d: Dimension, now: int, saves: bool, s: PassState)
    requires !s.outcome.Completed? || (s.last == Some(now) && cfg.cooldownSeconds > 0)
    ensures Step(cfg, m, d, now, saves, s) == s
  {
    if s.outcome.Completed? {
      assert CooldownGate(s.last, cfg.cooldownSeconds, now) == Suppressed;
    }
  }

  /**
   * With no cooldown (zero or negative) and an open gate, every breaching
   * dimension raises, in CPU, MEMORY, REQUESTS order; a save that throws
   * ends the pass at the first of them.
   */
  lemma {:induction false} PassWithoutCooldown(cfg: AlarmConfig, metrics: seq<Metric>, last: Option<int>, now: int, saves: bool)
    requires cfg.cooldownSeconds <= 0 && |metrics| > 0
    requires CooldownGate(last, cfg.cooldownSeconds, now) == Open
    ensures var m := metrics[|metrics| - 1];
      var all := AllBreaches(cfg, m, now);
      var p := Pass(cfg, metrics, last, now, saves);
      && p.emitted == (if saves then all else [])
      && p.outcome == (if saves || all == [] then Completed else SaveThrew(all[0]))
      && p.last == (if p.emitted == [] then last else Some(now))
  {
    if saves {
      AllBreachesSaved(cfg, metrics[|metrics| - 1], last, now);
    } else {
      FirstBreachUnsaved(cfg, metrics[|metrics| - 1], last, now);
    }
  }

  /** The open-gate, no-cooldown pass over one snapshot with a store that saves. */
  lemma AllBreachesSaved(cfg: AlarmConfig, m: Metric, last: Option<int>, now: int)
    requires cfg.cooldownSeconds <= 0
    requires CooldownGate(last, cfg.cooldownSeconds, now) == Open
    ensures var s3 := Pass(cfg, [m], last, now, true);
      s3.emitted == AllBreaches(cfg, m, now) && s3.outcome == Completed
  {
    var s1 := SavedStep(cfg, m, Cpu, now, PassState([], last, Completed));
    var s2 := SavedStep(cfg, m, Memory, now, s1);
    var s3 := SavedStep(cfg, m, Requests, now, s2);
  }

  /** One check with no cooldown, an open gate and a store that saves: a breach is appended. */
  lemma SavedStep(cfg: AlarmConfig, m: Metric, d: Dimension, now: int, s: PassState) returns (r: PassState)
    requires cfg.cooldownSeconds <= 0 && s.outcome == Completed
    requires CooldownGate(s.last, cfg.cooldownSeconds, now) == Open
    ensures r == Step(cfg, m, d, now, true, s)
    ensures r.outcome == Completed && CooldownGate(r.last, cfg.cooldownSeconds, now) == Open
    ensures r.emitted == s.emitted + if Breaches(cfg, m, d) then [AlarmFor(cfg, m, d, now)] else []
  {
    r := Step(cfg, m, d, now, true, s);
    assert CooldownGate(Some(now), cfg.cooldownSeconds, now) == Open;
  }

  /** The open-gate, no-cooldown pass over one snapshot with a store whose save throws. */
  lemma FirstBreachUnsaved(cfg: AlarmConfig, m: Metric, last: Option<int>, now: int)
    requires cfg.cooldownSeconds <= 0
    requires CooldownGate(last, cfg.cooldownSeconds, now) == Open
    ensures var all := AllBreaches(cfg, m, now);
      Pass(cfg, [m], last, now, false) == PassState([], last, if all == [] then Completed else SaveThrew(all[0]))
  {
    var start := PassState([], last, Completed);
    var s1 := Step(cfg, m, Cpu, now, false, start);
    var s2 := Step(cfg, m, Memory, now, false, s1);
    if Breaches(cfg, m, Cpu) {
      assert s1 == PassState([], last, SaveThrew(AlarmFor(cfg, m, Cpu, now)));
    } else if Breaches(cfg, m, Memory) {
      assert s1 == start;
      assert s2 == PassState([], last, SaveThrew(AlarmFor(cfg, m, Memory, now)));
    } else {
      assert s2 == start;
    }
  }

  /** A breach exactly at the end of the window (last + cooldown == now) is notified. */
  lemma {:induction false} BoundaryEmits(cfg: AlarmConfig, metrics: seq<Metric>, t: int, now: int, saves: bool)
    requires |metrics| > 0 && FirstBreach(cfg, metrics[|metrics| - 1]).Some?
    requires t + cfg.cooldownSeconds == now
    ensures |Notified(Pass(cfg, metrics, Some(t), now, saves))| >= 1
  {
    assert CooldownGate(Some(t), cfg.cooldownSeconds, now) == Open;
    if cfg.cooldownSeconds > 0 {
      PassWithCooldown(cfg, metrics, Some(t), now, saves);
    } else {
      PassWithoutCooldown(cfg, metrics, Some(t), now, saves);
    }
  }

  /**
   * From start-up (gate at MIN) the first breach is notified when the
   * cooldown is non-negative; with a negative cooldown the gate computation
   * throws at the first breach and nothing is notified.
   */
  lemma {:induction false} FirstBreachAfterStartEmits(cfg: AlarmConfig, metrics: seq<Metric>, now: int, saves: bool)
    requires |metrics| > 0 && FirstBreach(cfg, metrics[|metrics| - 1]).Some?
    ensures cfg.cooldownSeconds >= 0 ==>
      var notified := Notified(Pass(cfg, metrics, None, now, saves));
      |notified| >= 1 && notified[0] == AlarmFor(cfg, metrics[|metrics| - 1], FirstBreach(cfg, metrics[|metrics| - 1]).value, now)
    ensures cfg.cooldownSeconds < 0 ==> Pass(cfg, metrics, None, now, saves) == PassState([], None, CooldownThrew)
  {
    var m := metrics[|metrics| - 1];
    if cfg.cooldownSeconds > 0 {
      PassWithCooldown(cfg, metrics, None, now, saves);
    } else if cfg.cooldownSeconds == 0 {
      PassWithoutCooldown(cfg, metrics, None, now, saves);
    } else {
      var start := PassState([], None, Completed);
      var s1 := Step(cfg, m, Cpu, now, saves, start);
      var s2 := Step(cfg, m, Memory, now, saves, s1);
      assert Breaches(cfg, m, Cpu) ==> s1.outcome == CooldownThrew;
      assert !Breaches(cfg, m, Cpu) ==> s1 == start;
    }
  }

  /**
   * With a store that answers, a pass emits something exactly when the
   * latest snapshot breaches and the gate is open, and the first alarm is
   * the one for the first breaching dimension.
   */
  lemma {:induction false} FirstRaise(cfg: AlarmConfig, metrics: seq<Metric>, last: Option<int>, now: int)
    requires |metrics| > 0
    ensures var m := metrics[|metrics| - 1];
      var p := Pass(cfg, metrics, last, now, true);
      && (p.emitted != [] <==> FirstBreach(cfg, m).Some? && CooldownGate(last, cfg.cooldownSeconds, now) == Open)
      && (p.emitted != [] ==> p.emitted[0] == AlarmFor(cfg, m, FirstBreach(cfg, m).value, now))
  {
    var m := metrics[|metrics| - 1];
    var gate := CooldownGate(last, cfg.cooldownSeconds, now);
    if FirstBreach(cfg, m).None? {
      NoBreachNoEffect(cfg, metrics, last, now, true);
    } else if cfg.cooldownSeconds > 0 {
      PassWithCooldown(cfg, metrics, last, now, true);
    } else if gate == Open {
      PassWithoutCooldown(cfg, metrics, last, now, true);
    } else if gate == Suppressed {
      SuppressedPassNoEffect(cfg, metrics, last.value, now, true);
    } else {
      FirstBreachAfterStartEmits(cfg, metrics, now, true);
    }
  }

  /**
   * A save that throws cuts the pass at its first alarm: that alarm has been
   * notified, nothing is stored and the gate keeps its old timestamp.
   */
  lemma {:induction false} FailedSavePass(cfg: AlarmConfig, metrics: seq<Metric>, last: Option<int>, now: int)
    ensures var ok := Pass(cfg, metrics, last, now, true);
      var failed := Pass(cfg, metrics, last, now, false);
      failed == if ok.emitted == [] then ok else PassState([], last, SaveThrew(ok.emitted[0]))
  {
    if |metrics| > 0 {
      var m := metrics[|metrics| - 1];
      var gate := CooldownGate(last, cfg.cooldownSeconds, now);
      if FirstBreach(cfg, m).None? {
        NoBreachNoEffect(cfg, metrics, last, now, true);
        NoBreachNoEffect(cfg, metrics, last, now, false);
      } else if cfg.cooldownSeconds > 0 {
        PassWithCooldown(cfg, metrics, last, now, true);
        PassWithCooldown(cfg, metrics, last, now, false);
      } else if gate == Open {
        PassWithoutCooldown(cfg, metrics, last, now, true);
        PassWithoutCooldown(cfg, metrics, last, now, false);
      } else if gate == Suppressed {
        SuppressedPassNoEffect(cfg, metrics, last.value, now, true);
        SuppressedPassNoEffect(cfg, metrics, last.value, now, false);
      } else {
        FirstBreachAfterStartEmits(cfg, metrics, now, true);
        FirstBreachAfterStartEmits(cfg, metrics, now, false);
      }
    }
  }

  /**
   * After a pass whose save threw, any later pass over the same store
   * notifies the same alarm again (stamped with its own clock reading):
   * the cooldown does not hold it back.
   */
  lemma {:induction false} FailedSaveRenotifies(cfg: AlarmConfig, metrics: seq<Metric>, last: Option<int>,
                                                now: int, later: int, saves: bool)
    requires Pass(cfg, metrics, last, now, false).outcome.SaveThrew?
    requires now <= later
    ensures Pass(cfg, metrics, last, now, false).last == last
    ensures var unsaved := Pass(cfg, metrics, last, now, false).outcome.unsaved;
      var notified := Notified(Pass(cfg, metrics, last, later, saves));
      |notified| >= 1 && notified[0] == unsaved.(timestamp := later)
  {
    FailedSavePass(cfg, metrics, last, now);
    FailedSavePass(cfg, metrics, last, later);
    FirstRaise(cfg, metrics, last, now);
    FirstRaise(cfg, metrics, last, later);
    GateStaysOpen(last, cfg.cooldownSeconds, now, later);
  }

  // ---------------------------------------------------------------------
  // Many passes: the cooldown spaces stored alarms

  /** One scheduled evaluation: the metric store as read, the clock reading, and whether the alarm store saves. */
  datatype Tick = Tick(metrics: seq<Metric>, now: int, saves: bool)

  /** The alarms stored over successive passes, and the final gate timestamp. */
  function Run(cfg: AlarmConfig, ticks: seq<Tick>, last: Option<int>): (r: (seq<Alarm>, Option<int>))
    ensures r.1 == if r.0 == [] then last else Some(r.0[|r.0| - 1].timestamp)
    decreases |ticks|
  {
    if ticks == [] then ([], last)
    else
      var p := Pass(cfg, ticks[0].metrics, last, ticks[0].now, ticks[0].saves);
      var rest := Run(cfg, ticks[1..], p.last);
      (p.emitted + rest.0, rest.1)
  }

  /** Run over a tick in front of further ticks: that pass, then the rest from its gate. */
  lemma RunCons(cfg: AlarmConfig, tick: Tick, ticks: seq<Tick>, last: Option<int>)
    ensures var p := Pass(cfg, tick.metrics, last, tick.now, tick.saves);
      var rest := Run(cfg, ticks, p.last);
      Run(cfg, [tick] + ticks, last) == (p.emitted + rest.0, rest.1)
  {
    assert ([tick] + ticks)[1..] == ticks;
  }

  /** Each alarm at least `cooldown` after the previous one and after the gate timestamp `last`. */
  predicate Spaced(last: Option<int>, alarms: seq<Alarm>, cooldown: int) {
    && (forall i, j :: 0 <= i < j < |alarms| ==> alarms[i].timestamp + cooldown <= alarms[j].timestamp)
    && (last.Some? ==> forall j :: 0 <= j < |alarms| ==> last.value + cooldown <= alarms[j].timestamp)
  }

  /** Putting an alarm that respects the gate in front of a spaced run keeps it spaced. */
  lemma SpacedPrepend(last: Option<int>, a: Alarm, rest: seq<Alarm>, cooldown: int)
    requires cooldown > 0
    requires last.Some? ==> last.value + cooldown <= a.timestamp
    requires Spaced(Some(a.timestamp), rest, cooldown)
    ensures Spaced(last, [a] + rest, cooldown)
  {
    var all := [a] + rest;
    forall i, j | 0 <= i < j < |all|
      ensures all[i].timestamp + cooldown <= all[j].timestamp
    {
      assert all[j] == rest[j - 1];
      if i > 0 { assert all[i] == rest[i - 1]; }
    }
    forall j | last.Some? && 0 <= j < |all|
      ensures last.value + cooldown <= all[j].timestamp
    {
      if j > 0 { assert all[j] == rest[j - 1]; }
    }
  }

  /** What the run argument needs from one pass with a positive cooldown. */
  lemma PassSummary(cfg: AlarmConfig, metrics: seq<Metric>, last: Option<int>, now: int, saves: bool)
    requires cfg.cooldownSeconds > 0
    ensures var p := Pass(cfg, metrics, last, now, saves);
      && |p.emitted| <= 1
      && (p.emitted != [] ==> last.Some? ==> last.value + cfg.cooldownSeconds <= now)
  {
    if |metrics| > 0 {
      PassWithCooldown(cfg, metrics, last, now, saves);
    }
  }

  /**
   * With a positive cooldown, no two stored alarms of a run are less than
   * cooldown seconds apart, whatever the snapshots, clock readings and
   * save failures.
   */
  lemma {:induction false} CooldownSpacesAlarms(cfg: AlarmConfig, ticks: seq<Tick>, last: Option<int>)
    requires cfg.cooldownSeconds > 0
    ensures Spaced(last, Run(cfg, ticks, last).0, cfg.cooldownSeconds)
  {
    if ticks != [] {
      var p := Pass(cfg, ticks[0].metrics, last, ticks[0].now, ticks[0].saves);
      var rest := Run(cfg, ticks[1..], p.last);
      CooldownSpacesAlarms(cfg, ticks[1..], p.last);
      PassSummary(cfg, ticks[0].metrics, last, ticks[0].now, ticks[0].saves);
      if p.emitted != [] {
        assert p.emitted == [p.emitted[0]];
        SpacedPrepend(last, p.emitted[0], rest.0, cfg.cooldownSeconds);
      }
    }
  }

  /**
   * With a negative cooldown and the gate at MIN, every breach makes the
   * gate computation throw, so the gate never leaves MIN and no alarm is
   * ever stored.
   */
  lemma {:induction false} NegativeCooldownNeverEmits(cfg: AlarmConfig, ticks: seq<Tick>)
    requires cfg.cooldownSeconds < 0
    ensures Run(cfg, ticks, None) == ([], None)
  {
    if ticks != [] {
      var t := ticks[0];
      var p := Pass(cfg, t.metrics, None, t.now, t.saves);
      if |t.metrics| > 0 {
        FirstRaise(cfg, t.metrics, None, t.now);
        FailedSavePass(cfg, t.metrics, None, t.now);
      }
      assert p.emitted == [] && p.last == None;
      NegativeCooldownNeverEmits(cfg, ticks[1..]);
      var rest := Run(cfg, ticks[1..], None);
      assert Run(cfg, ticks, None) == (p.emitted + rest.0, rest.1);
      assert p.emitted + rest.0 == [];
    }
  }
}
