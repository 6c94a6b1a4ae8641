/**
 * The records the monitoring service stores and passes around: metric
 * snapshots, alarms, persisted alarm rows and the alarm configuration.
 * Timestamps are whole seconds; Java `int` fields are Int32.
 */
module Domain {

  /** A Java `int`. */
  type Int32 = x: int | -0x8000_0000 <= x < 0x8000_0000

  /** Alarm urgency; the service stores it as the strings "WARNING" and "CRITICAL". */
  datatype Severity = Warning | Critical {
    function Name(): string {
      match this
      case Warning => "WARNING"
      case Critical => "CRITICAL"
    }
  }

  /** The three tracked metric axes, evaluated in this order. */
  datatype Dimension = Cpu | Memory | Requests {
    function Name(): string {
      match this
      case Cpu => "CPU"
      case Memory => "MEMORY"
      case Requests => "REQUESTS"
    }
  }

  /** A stored metric snapshot; `id` is 0 until the metric store assigns one. */
  datatype Metric = Metric(id: int, serviceName: string, cpu: Int32, memory: Int32, requests: Int32, timestamp: int)

  /** The value a snapshot holds for one dimension. */
  function Reading(m: Metric, d: Dimension): Int32 {
    match d
    case Cpu => m.cpu
    case Memory => m.memory
    case Requests => m.requests
  }

  /** The runtime alarm handed to every notifier; `value` is a double fed from an int. */
  datatype Alarm = Alarm(serviceName: string, metricName: string, value: int, severity: string, timestamp: int, message: string)

  /** The persisted form of an alarm (the generated id is not modelled). */
  datatype AlarmEntity = AlarmEntity(serviceName: string, metricName: string, metricValue: int, severity: string, timestamp: int, message: string)

  /** The row saved for an alarm: every field copied across. */
  function ToEntity(a: Alarm): AlarmEntity {
    AlarmEntity(a.serviceName, a.metricName, a.value, a.severity, a.timestamp, a.message)
  }

  /** Thresholds per dimension and the global cooldown, bound once at start-up. */
  datatype AlarmConfig = AlarmConfig(
    cpuThresholdWarning: Int32, cpuThresholdCritical: Int32,
    memoryThresholdWarning: Int32, memoryThresholdCritical: Int32,
    requestsThresholdWarning: Int32, requestsThresholdCritical: Int32,
    cooldownSeconds: Int32)

  function WarningThreshold(cfg: AlarmConfig, d: Dimension): Int32 {
    match d
    case Cpu => cfg.cpuThresholdWarning
    case Memory => cfg.memoryThresholdWarning
    case Requests => cfg.requestsThresholdWarning
  }

  function CriticalThreshold(cfg: AlarmConfig, d: Dimension): Int32 {
    match d
    case Cpu => cfg.cpuThresholdCritical
    case Memory => cfg.memoryThresholdCritical
    case Requests => cfg.requestsThresholdCritical
  }

  /** A notification channel, known only by its name. */
  datatype Notifier = Notifier(name: string)

  /** A failure of the persistence layer while reading a store. */
  datatype DataAccessFailure = DataAccessFailure(message: string)
}
