/** The executable plan: one flat list of device actions, and the counts and sets read off it. */
module Plan {
  import opened Outcomes

  datatype Device = Keithley | Rigol | Anritsu | Moke | LakeShore

  datatype Smu = SmuA | SmuB

  datatype RigolChannel = Ch1 | Ch2

  /** A physical output whose state the engine tracks. */
  datatype Endpoint =
    | KeithleyOut(smu: Smu)
    | RigolOut(rigol: RigolChannel)
    | AnritsuSg
    | MokeField
    | MokeVout(vout: int)
  {
    function Owner(): Device {
      match this
      case KeithleyOut(_) => Keithley
      case RigolOut(_) => Rigol
      case AnritsuSg => Anritsu
      case MokeField => Moke
      case MokeVout(_) => Moke
    }
  }

  /** The outputs that switch ON and OFF; the MOKE DAC has no such switch. */
  const SWITCHED: set<Endpoint> := {KeithleyOut(SmuA), KeithleyOut(SmuB), RigolOut(Ch1), RigolOut(Ch2), AnritsuSg}

  datatype Status = Unknown | On | Off

  /** Field names of the device configuration records. */
  datatype Field =
    | Mode | LevelSi | ComplianceSi | Nplc | SettleTimeS | SenseMode | SourceAutorange | SourceRangeSi
    | MeasureVoltageAutorange | MeasureVoltageRangeSi | MeasureCurrentAutorange | MeasureCurrentRangeSi
    | Waveform | FrequencyHz | HighLevelV | LowLevelV | OutputLoad | PhaseDeg | SquareDutyPercent
    | RampSymmetryPercent | PulseWidthS | PulseLeadingS | PulseTrailingS
    | Polarity | OutputMode | GatePolarity | SyncEnabled | SyncPolarity | SyncDelayS
    | StartHz | StopHz | ReferenceLevelDbm | Points | Trace | RbwAuto | RbwHz | VbwAuto | VbwMode | VbwHz
    | PrepareCurrentBuffer | Detector | AttenuationAuto | AttenuationDb | PreamplifierEnabled
    | SweepTimeAuto | SweepTimeS | VbwFilterMode | PowerDbm

  /** A field value; Missing is the explicit empty value. */
  datatype Value = Missing | Number(n: real) | Text(s: string) | Flag(b: bool)

  /** A configuration record. No mask: a complete record. A mask: a patch of the named fields only. */
  datatype Config = Config(values: map<Field, Value>, mask: Option<seq<Field>>)

  function ValueOf(c: Config, f: Field): Value {
    if f in c.values then c.values[f] else Missing
  }

  /** The values of a record with the fields that a patch names laid over them. */
  function Overlay(base: map<Field, Value>, patch: Config): map<Field, Value>
    requires patch.mask.Some?
  {
    base + map f | f in patch.mask.value :: ValueOf(patch, f)
  }

  const MEASURE_ONLY := Text("measure_only")

  predicate Sources(mode: Value) {
    mode == Text("current") || mode == Text("voltage")
  }

  /** The fields that make an analyzer record a complete basic configuration even when it carries a mask. */
  const SPECTRUM_BASIS: set<Field> := {StartHz, StopHz, ReferenceLevelDbm, Points}

  function FieldSet(fields: seq<Field>): set<Field> {
    set f | f in fields
  }

  predicate IsCompleteConfiguration(c: Config) {
    c.mask.None? || SPECTRUM_BASIS <= FieldSet(c.mask.value)
  }

  /** The `checkpoint` entry of a measurement payload: absent, a boolean, or some other value by its truth. */
  datatype CheckpointFlag = Absent | Exactly(flag: bool) | Other(truthy: bool)

  /** The part of a spectrum or reference payload that governs its duration and its raw sweeps. */
  datatype Acquisition = Acquisition(
    averageCount: nat, minimumDurationS: real, interSweepDelayS: real, fromFile: bool, needsReference: bool)

  /** One immutable MOKE trajectory: the permission an arm action carries. */
  datatype MokePlan = MokePlan(fingerprint: string, vout: int, minimumV: real, maximumV: real, targetsV: seq<real>)

  datatype MokeProfile = MokeProfile(fingerprint: string, vout: int, minimumV: real, maximumV: real, rampTimeoutS: real)

  datatype Kind =
    | ConfigureRigol(rigol: RigolChannel, config: Config)
    | ConfigureRigolOutput(rigol: RigolChannel, config: Config)
    | ConfigureKeithley(smu: Smu, config: Config)
    | ConfigureAnritsu(config: Config)
    | ConfigureAnritsuAdvanced(config: Config)
    | ConfigureAnritsuSg(config: Config)
    | UpdateKeithleyLevel(smu: Smu, mode: Value, level: Value)
    | UpdateKeithleyCompliance(smu: Smu, compliance: Value)
    | UpdateRigolFrequency(rigol: RigolChannel, frequency: Value)
    | UpdateRigolLevels(rigol: RigolChannel, high: Value, low: Value)
    | UpdateAnritsuSg(config: Config)
    | SetKeithleyOutput(smu: Smu, enabled: bool)
    | SetRigolOutput(rigol: RigolChannel, enabled: bool)
    | SetAnritsuSgOutput(enabled: bool)
    | AssertOutputOn(endpoint: Endpoint)
    | RampKeithleyToZero(smu: Smu, deadlineS: real)
    | MeasureKeithley(smu: Smu)
    | ConfigureMokeBox(profile: MokeProfile, minimumV: real, maximumV: real, plan: Option<MokePlan>)
    | ArmMokeVoltage(plan: Option<MokePlan>)
    | UpdateMokeVoltage(vout: int, voltageV: real, appliedV: Option<real>, rampTimeoutS: real)
    | StopMokeVoltage(target: Option<int>, rampTimeoutS: real)
    | MeasureMokeHall(checkpoint: CheckpointFlag)
    | MeasureLakeshoreField(checkpoint: CheckpointFlag)
    | AcquireReference(block: Acquisition)
    | AcquireSpectrum(block: Acquisition)
    | Checkpoint
    | Wait(durationS: real, settles: Option<Smu>)  // a point of a settling-time sweep names its source
    | VerifyConnection(device: Device)
    | UploadToElab

  datatype PlanAction = PlanAction(
    nodeId: string, kind: Kind,
    isFinally: bool, completionOnly: bool, retainedOutput: Option<Endpoint>, faultOnly: bool)

  /** A step of the compiled shutdown list; a name outside the known devices is kept as such. */
  datatype ShutdownStep = DeviceStep(device: Device) | FlushCheckpoint | UnknownStep(name: string)

  datatype ExecutionPlan = ExecutionPlan(
    actions: seq<PlanAction>, totalPoints: nat, hash: string,
    requiredDevices: set<Device>, safeShutdownActions: seq<ShutdownStep>)

  // ---- Classification of actions ----

  /** The actions whose points everything counts: compilation, estimates, the runner and recovery. */
  predicate ProducesCheckpoint(a: PlanAction) {
    match a.kind
    case AcquireSpectrum(_) => true
    case Checkpoint => true
    case MeasureMokeHall(c) => c == Absent || c == Exactly(true)
    case MeasureLakeshoreField(c) => c == Absent || c == Exactly(true)
    case _ => false
  }

  /** The switched output that an output-switch action drives. */
  function SwitchedEndpoint(k: Kind): Option<Endpoint> {
    match k
    case SetKeithleyOutput(s, _) => Some(KeithleyOut(s))
    case SetRigolOutput(r, _) => Some(RigolOut(r))
    case SetAnritsuSgOutput(_) => Some(AnritsuSg)
    case _ => None
  }

  /** The outputs that an action may turn on. */
  function TurnsOn(k: Kind): set<Endpoint> {
    if SwitchedEndpoint(k).Some? && (k.SetKeithleyOutput? || k.SetRigolOutput? || k.SetAnritsuSgOutput?) && k.enabled
    then {SwitchedEndpoint(k).value} else {}
  }

  function EndpointsOf(k: Kind): set<Endpoint> {
    match k
    case ConfigureKeithley(s, _) => {KeithleyOut(s)}
    case UpdateKeithleyLevel(s, _, _) => {KeithleyOut(s)}
    case UpdateKeithleyCompliance(s, _) => {KeithleyOut(s)}
    case SetKeithleyOutput(s, _) => {KeithleyOut(s)}
    case RampKeithleyToZero(s, _) => {KeithleyOut(s)}
    case MeasureKeithley(s) => {KeithleyOut(s)}
    case ConfigureRigol(r, _) => {RigolOut(r)}
    case ConfigureRigolOutput(r, _) => {RigolOut(r)}
    case UpdateRigolFrequency(r, _) => {RigolOut(r)}
    case UpdateRigolLevels(r, _, _) => {RigolOut(r)}
    case SetRigolOutput(r, _) => {RigolOut(r)}
    case ConfigureAnritsuSg(_) => {AnritsuSg}
    case UpdateAnritsuSg(_) => {AnritsuSg}
    case SetAnritsuSgOutput(_) => {AnritsuSg}
    case AssertOutputOn(e) => if e == AnritsuSg then {AnritsuSg} else {}
    case ConfigureMokeBox(_, _, _, _) => {MokeField}
    case ArmMokeVoltage(_) => {MokeField}
    case UpdateMokeVoltage(_, _, _, _) => {MokeField}
    case StopMokeVoltage(_, _) => {MokeField}
    case _ => {}
  }

  /** The outputs that have to be proven off before a plan can be resumed. */
  function ControlledOutputEndpoints(actions: seq<PlanAction>): set<Endpoint> {
    set a, e | a in actions && e in EndpointsOf(a.kind) :: e
  }

  function DevicesOf(k: Kind): set<Device> {
    match k
    case VerifyConnection(d) => {d}
    case AssertOutputOn(e) => {e.Owner()}
    case MeasureMokeHall(_) => {Moke}
    case MeasureLakeshoreField(_) => {LakeShore}
    case AcquireReference(_) => {Anritsu}
    case AcquireSpectrum(_) => {Anritsu}
    case ConfigureAnritsu(_) => {Anritsu}
    case ConfigureAnritsuAdvanced(_) => {Anritsu}
    case _ => set e | e in EndpointsOf(k) :: e.Owner()
  }

  function RequiredDevicesFor(actions: seq<PlanAction>): set<Device> {
    set a, d | a in actions && d in DevicesOf(a.kind) :: d
  }

  /** The action works on this source, on this carrier, on the generator, or on the MOKE field. */
  predicate WorksOnSource(k: Kind, s: Smu) {
    (k.ConfigureKeithley? || k.UpdateKeithleyLevel? || k.UpdateKeithleyCompliance? || k.SetKeithleyOutput?
     || k.RampKeithleyToZero? || k.MeasureKeithley?) && k.smu == s
  }

  predicate WorksOnCarrier(k: Kind, r: RigolChannel) {
    (k.ConfigureRigol? || k.ConfigureRigolOutput? || k.UpdateRigolFrequency? || k.UpdateRigolLevels? || k.SetRigolOutput?)
    && k.rigol == r
  }

  predicate WorksOnGenerator(k: Kind) {
    k.ConfigureAnritsuSg? || k.UpdateAnritsuSg? || k.SetAnritsuSgOutput? || k == AssertOutputOn(AnritsuSg)
  }

  predicate DrivesMoke(k: Kind) {
    k.ConfigureMokeBox? || k.ArmMokeVoltage? || k.UpdateMokeVoltage? || k.StopMokeVoltage?
  }

  predicate ReadsAnalyzer(k: Kind) {
    k.ConfigureAnritsu? || k.ConfigureAnritsuAdvanced? || k.AcquireReference? || k.AcquireSpectrum?
  }

  predicate WorksOn(k: Kind, e: Endpoint) {
    match e
    case KeithleyOut(s) => WorksOnSource(k, s)
    case RigolOut(r) => WorksOnCarrier(k, r)
    case AnritsuSg => WorksOnGenerator(k)
    case MokeField => DrivesMoke(k)
    case MokeVout(_) => false
  }

  /** The action verifies, asserts, works on or reads the instrument. */
  predicate Needs(k: Kind, d: Device) {
    || k == VerifyConnection(d) || (k.AssertOutputOn? && k.endpoint.Owner() == d)
    || match d
       case Keithley => WorksOnSource(k, SmuA) || WorksOnSource(k, SmuB)
       case Rigol => WorksOnCarrier(k, Ch1) || WorksOnCarrier(k, Ch2)
       case Anritsu => WorksOnGenerator(k) || ReadsAnalyzer(k)
       case Moke => DrivesMoke(k) || k.MeasureMokeHall?
       case LakeShore => k.MeasureLakeshoreField?
  }

  lemma EndpointsAre(k: Kind, e: Endpoint)
    ensures e in EndpointsOf(k) <==> WorksOn(k, e)
  {
  }

  predicate HasDevice(k: Kind) {
    k.VerifyConnection? || k.AssertOutputOn? || k.MeasureMokeHall? || k.MeasureLakeshoreField? || ReadsAnalyzer(k)
  }

  lemma DevicesOfEndpoints(k: Kind, d: Device)
    requires !HasDevice(k)
    ensures d in DevicesOf(k) <==> exists e :: e in EndpointsOf(k) && e.Owner() == d
  {
    hide EndpointsOf;
  }

  lemma NeedsEndpoint(k: Kind, d: Device)
    requires !HasDevice(k)
    ensures Needs(k, d) <==> exists e :: WorksOn(k, e) && e.Owner() == d
  {
    hide WorksOnSource, WorksOnCarrier, WorksOnGenerator, DrivesMoke;
    if Needs(k, d) {
      var e := match d
        case Keithley => KeithleyOut(if WorksOnSource(k, SmuA) then SmuA else SmuB)
        case Rigol => RigolOut(if WorksOnCarrier(k, Ch1) then Ch1 else Ch2)
        case Anritsu => AnritsuSg
        case _ => MokeField;
      assert WorksOn(k, e) && e.Owner() == d;
    }
    forall e | WorksOn(k, e) && e.Owner() == d ensures Needs(k, d) {
      match e {
        case KeithleyOut(s) => assert s == SmuA || s == SmuB;
        case RigolOut(r) => assert r == Ch1 || r == Ch2;
        case _ =>
      }
    }
  }

  lemma DevicesAre(k: Kind, d: Device)
    ensures d in DevicesOf(k) <==> Needs(k, d)
  {
    if !HasDevice(k) {
      hide DevicesOf, Needs, EndpointsOf, WorksOn;
      forall e ensures e in EndpointsOf(k) <==> WorksOn(k, e) {
        EndpointsAre(k, e);
      }
      DevicesOfEndpoints(k, d);
      NeedsEndpoint(k, d);
    }
  }

  /** An output has to be proven off if and only if some action works on it; the MOKE channels stand as one field. */
  lemma ControlledIff(actions: seq<PlanAction>, e: Endpoint)
    ensures e in ControlledOutputEndpoints(actions) <==> exists a | a in actions :: WorksOn(a.kind, e)
  {
    hide EndpointsOf, WorksOn;
    forall a | a in actions ensures e in EndpointsOf(a.kind) <==> WorksOn(a.kind, e) {
      EndpointsAre(a.kind, e);
    }
  }

  /** An instrument is needed if and only if some action verifies, asserts, works on or reads it. */
  lemma RequiredIff(actions: seq<PlanAction>, d: Device)
    ensures d in RequiredDevicesFor(actions) <==> exists a | a in actions :: Needs(a.kind, d)
  {
    hide DevicesOf, Needs;
    forall a | a in actions ensures d in DevicesOf(a.kind) <==> Needs(a.kind, d) {
      DevicesAre(a.kind, d);
    }
  }

  function RetainedOutputs(actions: seq<PlanAction>): set<Endpoint> {
    set a | a in actions && a.completionOnly && a.retainedOutput.Some? :: a.retainedOutput.value
  }

  // ---- What compilation guarantees ----

  predicate IsCleanupKind(k: Kind) {
    match k
    case StopMokeVoltage(_, _) => true
    case RampKeithleyToZero(_, _) => true
    case SetRigolOutput(_, enabled) => !enabled
    case SetKeithleyOutput(_, enabled) => !enabled
    case SetAnritsuSgOutput(enabled) => !enabled
    case _ => false
  }

  /** Only a Keithley, a Rigol or one MOKE channel can be held on. */
  predicate Retainable(e: Endpoint) {
    e.KeithleyOut? || e.RigolOut? || e.MokeVout?
  }

  predicate DurationsValid(k: Kind) {
    match k
    case Wait(duration, _) => 0.0 <= duration
    case RampKeithleyToZero(_, deadline) => 0.0 <= deadline
    case UpdateMokeVoltage(_, _, _, timeout) => 0.0 <= timeout
    case StopMokeVoltage(_, timeout) => 0.0 <= timeout
    case AcquireReference(block) => 0.0 <= block.minimumDurationS && 0.0 <= block.interSweepDelayS
    case AcquireSpectrum(block) => 0.0 <= block.minimumDurationS && 0.0 <= block.interSweepDelayS
    case _ => true
  }

  /** What a preflighted action satisfies. */
  predicate CompiledAction(a: PlanAction) {
    && DurationsValid(a.kind)
    && (a.completionOnly ==> a.isFinally)
    && (a.isFinally && !a.completionOnly ==> IsCleanupKind(a.kind))
    && (a.faultOnly ==> a.isFinally && !a.completionOnly)
    && (a.retainedOutput.Some? ==> a.completionOnly && Retainable(a.retainedOutput.value))
    && (a.completionOnly ==> !ProducesCheckpoint(a))
    && (a.kind.MeasureMokeHall? || a.kind.MeasureLakeshoreField? ==> !a.kind.checkpoint.Other?)
    && (a.kind.AcquireSpectrum? ==> !a.kind.block.fromFile && a.kind.block.minimumDurationS == 0.0)
  }

  predicate Compiled(plan: ExecutionPlan) {
    && (forall a | a in plan.actions :: CompiledAction(a))
    && plan.totalPoints == Checkpoints(plan.actions)
  }

  // ---- Checkpoint count ----

  function Checkpoints(actions: seq<PlanAction>): nat {
    if actions == [] then 0
    else Checkpoints(actions[..|actions| - 1]) + if ProducesCheckpoint(actions[|actions| - 1]) then 1 else 0
  }

  lemma CheckpointsStep(actions: seq<PlanAction>, i: nat)
    requires i < |actions|
    ensures Checkpoints(actions[..i + 1]) == Checkpoints(actions[..i]) + if ProducesCheckpoint(actions[i]) then 1 else 0
  {
    assert actions[..i + 1][..i] == actions[..i];
  }

  lemma CheckpointsMonotone(actions: seq<PlanAction>, i: nat, j: nat)
    requires i <= j <= |actions|
    ensures Checkpoints(actions[..i]) <= Checkpoints(actions[..j])
    decreases j - i
  {
    if i < j {
      CheckpointsMonotone(actions, i, j - 1);
      CheckpointsStep(actions, j - 1);
    }
  }
}
