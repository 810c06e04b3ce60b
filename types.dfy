/**
 * The records and closed enumerations of the dashboard's data model.
 * Dates are milliseconds since the epoch; scores and measurements are reals.
 */
module Types {
  import opened Optional

  /** Milliseconds since the epoch, as `Date.getTime()` reports them. */
  type Millis = int

  datatype EquipmentType = Pump | Motor | Compressor | Conveyor | Mixer | Reactor | Separator

  datatype EquipmentStatus = Operational | Maintenance | Failed | Idle | Degraded

  datatype FailureMode =
    | BearingFailure | MotorFailure | SealFailure | ElectricalFailure
    | SensorFailure | HydraulicFailure | Unknown

  datatype PredictionStatus = Active | Resolved | Expired | FalseAlarm

  datatype MaintenanceType = Preventive | Corrective | Predictive | Emergency

  datatype WorkOrderStatus = Scheduled | InProgress | Completed | Cancelled

  datatype AlertChannel = Slack | Email | Sms | InApp

  /** The `type` tag of a real-time update. */
  datatype UpdateKind = SensorReadingUpdate | HealthUpdate | PredictionUpdate | AlertUpdate

  datatype Location = Location(x: real, y: real, zone: string)

  datatype Equipment = Equipment(
    id: string,
    equipmentId: string,
    name: string,
    equipmentType: EquipmentType,
    manufacturer: string,
    model: string,
    factoryId: string,
    productionLine: string,
    location: Location,
    installationDate: Millis,
    criticalityScore: real,
    status: EquipmentStatus,
    currentHealthScore: real,
    lastMaintenanceDate: Millis,
    nextScheduledMaintenance: Millis,
    degradationRate: real,
    typicalFailureModes: seq<string>,
    salesforceAssetId: Option<string>)

  datatype SensorReading = SensorReading(
    id: string,
    equipmentId: string,
    timestamp: Millis,
    temperature: real,
    vibration: real,
    pressure: real,
    humidity: real,
    powerConsumption: real,
    throughput: real,
    isAnomaly: bool,
    anomalyScore: real)

  datatype FactorContribution = FactorContribution(
    factor: string, importance: real, currentValue: real, contribution: real)

  datatype FailurePrediction = FailurePrediction(
    id: string,
    equipmentId: string,
    predictionTime: Millis,
    failureProbability: real,
    confidenceScore: real,
    predictionHorizonDays: int,
    expectedFailureDate: Millis,
    expectedFailureMode: FailureMode,
    estimatedCost: real,
    topContributingFactors: seq<FactorContribution>,
    predictionStatus: PredictionStatus,
    isAcknowledged: bool,
    alertSent: bool)

  datatype MaintenanceRecord = MaintenanceRecord(
    id: string,
    equipmentId: string,
    startTime: Millis,
    endTime: Option<Millis>,
    maintenanceType: MaintenanceType,
    description: string,
    technicianName: string,
    totalCost: real,
    workOrderStatus: WorkOrderStatus,
    issuesFound: seq<string>)

  /** The payload the simulated feed attaches to an update. */
  datatype UpdateData = UpdateData(message: string, severity: string)

  datatype RealTimeUpdate = RealTimeUpdate(
    kind: UpdateKind, equipmentId: string, data: UpdateData, timestamp: Millis)

  /**
   * The summary `calculateDashboardStats` returns for a list of equipment. That
   * function is not part of this model: pages receive its result as an input.
   */
  datatype DashboardStats = DashboardStats(
    total: nat, avgHealth: real, healthy: nat, warning: nat, critical: nat)

  /** The string value of each `EquipmentType` member. */
  function EquipmentTypeName(t: EquipmentType): string
  {
    match t
    case Pump => "pump"
    case Motor => "motor"
    case Compressor => "compressor"
    case Conveyor => "conveyor"
    case Mixer => "mixer"
    case Reactor => "reactor"
    case Separator => "separator"
  }

  /** The string value of each `EquipmentStatus` member. */
  function StatusName(s: EquipmentStatus): string
  {
    match s
    case Operational => "operational"
    case Maintenance => "maintenance"
    case Failed => "failed"
    case Idle => "idle"
    case Degraded => "degraded"
  }

  /** The status whose string value is `name`, if any: the enumeration is closed. */
  function ParseStatus(name: string): (r: Option<EquipmentStatus>)
    ensures forall s :: r == Some(s) <==> StatusName(s) == name
  {
    if name == "operational" then Some(Operational)
    else if name == "maintenance" then Some(Maintenance)
    else if name == "failed" then Some(Failed)
    else if name == "idle" then Some(Idle)
    else if name == "degraded" then Some(Degraded)
    else None
  }

  /** The equipment type whose string value is `name`, if any. */
  function ParseEquipmentType(name: string): (r: Option<EquipmentType>)
    ensures forall t :: r == Some(t) <==> EquipmentTypeName(t) == name
  {
    if name == "pump" then Some(Pump)
    else if name == "motor" then Some(Motor)
    else if name == "compressor" then Some(Compressor)
    else if name == "conveyor" then Some(Conveyor)
    else if name == "mixer" then Some(Mixer)
    else if name == "reactor" then Some(Reactor)
    else if name == "separator" then Some(Separator)
    else None
  }

  /** The five equipment statuses. */
  function AllStatuses(): (r: set<EquipmentStatus>)
    ensures |r| == 5
  {
    {Operational, Maintenance, Failed, Idle, Degraded}
  }

  /** The seven failure modes; `Unknown` is one of them. */
  function AllFailureModes(): (r: set<FailureMode>)
    ensures |r| == 7
  {
    {BearingFailure, MotorFailure, SealFailure, ElectricalFailure, SensorFailure, HydraulicFailure, Unknown}
  }

  function AllPredictionStatuses(): (r: set<PredictionStatus>)
    ensures |r| == 4
  {
    {Active, Resolved, Expired, FalseAlarm}
  }

  function AllMaintenanceTypes(): (r: set<MaintenanceType>)
    ensures |r| == 4
  {
    {Preventive, Corrective, Predictive, Emergency}
  }

  function AllWorkOrderStatuses(): (r: set<WorkOrderStatus>)
    ensures |r| == 4
  {
    {Scheduled, InProgress, Completed, Cancelled}
  }

  function AllUpdateKinds(): (r: set<UpdateKind>)
    ensures |r| == 4
  {
    {SensorReadingUpdate, HealthUpdate, PredictionUpdate, AlertUpdate}
  }

  /** Every `EquipmentStatus` value is one of those listed by `AllStatuses`. */
  lemma EquipmentStatusClosed(v: EquipmentStatus)
    ensures v in AllStatuses()
  {
    match v
    case Operational =>
    case Maintenance =>
    case Failed =>
    case Idle =>
    case Degraded =>
  }

  /** Every `FailureMode` value is one of those listed by `AllFailureModes`. */
  lemma FailureModeClosed(v: FailureMode)
    ensures v in AllFailureModes()
  {
    match v
    case BearingFailure =>
    case MotorFailure =>
    case SealFailure =>
    case ElectricalFailure =>
    case SensorFailure =>
    case HydraulicFailure =>
    case Unknown =>
  }

  /** Every `PredictionStatus` value is one of those listed by `AllPredictionStatuses`. */
  lemma PredictionStatusClosed(v: PredictionStatus)
    ensures v in AllPredictionStatuses()
  {
    match v
    case Active =>
    case Resolved =>
    case Expired =>
    case FalseAlarm =>
  }

  /** Every `MaintenanceType` value is one of those listed by `AllMaintenanceTypes`. */
  lemma MaintenanceTypeClosed(v: MaintenanceType)
    ensures v in AllMaintenanceTypes()
  {
    match v
    case Preventive =>
    case Corrective =>
    case Predictive =>
    case Emergency =>
  }

  /** Every `WorkOrderStatus` value is one of those listed by `AllWorkOrderStatuses`. */
  lemma WorkOrderStatusClosed(v: WorkOrderStatus)
    ensures v in AllWorkOrderStatuses()
  {
    match v
    case Scheduled =>
    case InProgress =>
    case Completed =>
    case Cancelled =>
  }

  /** Every `UpdateKind` value is one of those listed by `AllUpdateKinds`. */
  lemma UpdateKindClosed(v: UpdateKind)
    ensures v in AllUpdateKinds()
  {
    match v
    case SensorReadingUpdate =>
    case HealthUpdate =>
    case PredictionUpdate =>
    case AlertUpdate =>
  }
}
