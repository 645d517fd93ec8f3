/**
 Success-only final states, and what they override: which clean-up actions are kept for failures only, which outputs
 a successful run holds, and the shutdown list that closes every run.
 */
module FinalStates {
  import opened Outcomes
  import opened Plan
  import opened RunLedger
  import opened MokeTrajectories

  // ---- Final-state blocks ----

  /** An authored final state of one output. Absent settings stay as the measurement leaves them. */
  datatype FinalState =
    | FinalMoke(vout: int, voltage: Option<real>, hold: bool)
    | FinalKeithley(smu: Smu, level: Option<Value>, hold: bool)
    | FinalRigol(rigol: RigolChannel, frequency: Option<Value>, high: Option<Value>, low: Option<Value>, hold: bool)
  {
    function Endpoint(): Endpoint {
      match this
      case FinalMoke(v, _, _) => MokeVout(v)
      case FinalKeithley(s, _, _) => KeithleyOut(s)
      case FinalRigol(r, _, _, _, _) => RigolOut(r)
    }
  }

  /** What the main plan has set up before: MOKE channels with their profiles, sources with their energizing mode, carriers. */
  datatype MainPlan = MainPlan(mokeProfiles: map<int, MokeProfile>, sources: map<Smu, Value>, carriers: set<RigolChannel>)

  function HoldPlan(profile: MokeProfile, vout: int, voltage: real): MokePlan {
    MokePlan(profile.fingerprint, vout, profile.minimumV, profile.maximumV, [voltage])
  }

  /** The final state refers to an output that the main plan has set up, and its settings are complete. */
  predicate Admissible(f: FinalState, main: MainPlan) {
    match f
    case FinalMoke(v, voltage, hold) =>
      && v in main.mokeProfiles
      && (!hold && voltage.Some? ==> voltage.value == 0.0)
      && (hold ==> voltage.Some? && ValidPlan(HoldPlan(main.mokeProfiles[v], v, voltage.value), main.mokeProfiles[v]))
    case FinalKeithley(s, _, _) => s in main.sources
    case FinalRigol(r, _, high, low, _) => r in main.carriers && (high.Some? <==> low.Some?)
  }

  /** The operations of a final state, in order. A held Keithley or Rigol output is asserted ON last. */
  function Operations(f: FinalState, main: MainPlan): seq<Kind>
    requires Admissible(f, main)
  {
    match f
    case FinalMoke(v, voltage, hold) =>
      var profile := main.mokeProfiles[v];
      if hold then
        [ConfigureMokeBox(profile, profile.minimumV, profile.maximumV, None), ArmMokeVoltage(None),
         UpdateMokeVoltage(v, voltage.value, None, profile.rampTimeoutS)]
      else [StopMokeVoltage(Some(v), profile.rampTimeoutS)]
    case FinalKeithley(s, level, hold) =>
      (if level.Some? then [UpdateKeithleyLevel(s, main.sources[s], level.value)] else [])
      + [if hold then AssertOutputOn(KeithleyOut(s)) else SetKeithleyOutput(s, false)]
    case FinalRigol(r, frequency, high, low, hold) =>
      (if frequency.Some? then [UpdateRigolFrequency(r, frequency.value)] else [])
      + (if high.Some? then [UpdateRigolLevels(r, high.value, low.value)] else [])
      + [if hold then AssertOutputOn(RigolOut(r)) else SetRigolOutput(r, false)]
  }

  /** The endpoint whose final state an operation belongs to, where its kind tells. */
  function DrivenEndpoint(k: Kind): Option<Endpoint> {
    match k
    case UpdateKeithleyLevel(s, _, _) => Some(KeithleyOut(s))
    case SetKeithleyOutput(s, _) => Some(KeithleyOut(s))
    case UpdateRigolFrequency(r, _) => Some(RigolOut(r))
    case UpdateRigolLevels(r, _, _) => Some(RigolOut(r))
    case SetRigolOutput(r, _) => Some(RigolOut(r))
    case AssertOutputOn(e) => Some(e)
    case UpdateMokeVoltage(v, _, _, _) => Some(MokeVout(v))
    case StopMokeVoltage(target, _) => if target.Some? then Some(MokeVout(target.value)) else None
    case _ => None
  }

  predicate AddressedBy(a: PlanAction, e: Endpoint) {
    a.completionOnly && DrivenEndpoint(a.kind) == Some(e)
  }

  /** The endpoints with an authored final state. */
  function FinalEndpoints(actions: seq<PlanAction>): set<Endpoint> {
    set a | a in actions && a.completionOnly && DrivenEndpoint(a.kind).Some? :: DrivenEndpoint(a.kind).value
  }

  function OperationId(nodeId: string, index: nat): string {
    nodeId + "." + if index == 0 then "0" else if index == 1 then "1" else "2"
  }

  /**
   The final state of a source sets the authored level, of a carrier the authored frequency and levels, and only these;
   then comes the ON assertion or the OFF switch.
   */
  lemma SourceIsSet(f: FinalState, main: MainPlan)
    requires Admissible(f, main) && f.FinalKeithley?
    ensures var ops := Operations(f, main);
            && ops[..|ops| - 1] == (if f.level.Some? then [UpdateKeithleyLevel(f.smu, main.sources[f.smu], f.level.value)] else [])
            && ops[|ops| - 1] == (if f.hold then AssertOutputOn(KeithleyOut(f.smu)) else SetKeithleyOutput(f.smu, false))
  {
  }

  lemma CarrierIsSet(f: FinalState, main: MainPlan)
    requires Admissible(f, main) && f.FinalRigol?
    ensures var ops := Operations(f, main);
            && (f.frequency.Some? ==> UpdateRigolFrequency(f.rigol, f.frequency.value) in ops[..|ops| - 1])
            && (f.high.Some? ==> UpdateRigolLevels(f.rigol, f.high.value, f.low.value) in ops[..|ops| - 1])
            && |ops| == 1 + (if f.frequency.Some? then 1 else 0) + (if f.high.Some? then 1 else 0)
            && ops[|ops| - 1] == (if f.hold then AssertOutputOn(RigolOut(f.rigol)) else SetRigolOutput(f.rigol, false))
  {
    var ops := Operations(f, main);
    var front := ops[..|ops| - 1];
    if f.frequency.Some? {
      assert front[0] == UpdateRigolFrequency(f.rigol, f.frequency.value);
    }
    if f.high.Some? {
      assert front[|front| - 1] == UpdateRigolLevels(f.rigol, f.high.value, f.low.value);
    }
  }

  /** The final state of a MOKE channel applies its voltage over the whole range of its box, or stops the channel. */
  lemma MokeIsSet(f: FinalState, main: MainPlan)
    requires Admissible(f, main) && f.FinalMoke?
    ensures var ops, profile := Operations(f, main), main.mokeProfiles[f.vout];
            if f.hold then
              && |ops| == 3 && ops[0] == ConfigureMokeBox(profile, profile.minimumV, profile.maximumV, None)
              && ops[1].ArmMokeVoltage? && ops[2].UpdateMokeVoltage? && ops[2].vout == f.vout && Some(ops[2].voltageV) == f.voltage
            else ops == [StopMokeVoltage(Some(f.vout), profile.rampTimeoutS)]
  {
  }

  /**
   A final state is admissible if and only if the main plan uses its output, the levels of a carrier come as a pair, and a
   MOKE voltage is held only where its own box can apply it, and otherwise zero.
   */
  lemma AdmissibleIff(f: FinalState, main: MainPlan)
    requires forall v | v in main.mokeProfiles :: -10.0 <= main.mokeProfiles[v].minimumV && main.mokeProfiles[v].maximumV <= 10.0
    ensures Admissible(f, main) <==>
              || (f.FinalKeithley? && f.smu in main.sources)
              || (f.FinalRigol? && f.rigol in main.carriers && (f.high.Some? <==> f.low.Some?))
              || (f.FinalMoke? && f.vout in main.mokeProfiles && !f.hold && (f.voltage.Some? ==> f.voltage.value == 0.0))
              || (f.FinalMoke? && f.vout in main.mokeProfiles && f.hold && f.voltage.Some?
                  && CanHold(main.mokeProfiles[f.vout], f.vout, f.voltage.value))
  {
    if f.FinalMoke? && f.vout in main.mokeProfiles && f.hold && f.voltage.Some? {
      var profile, v := main.mokeProfiles[f.vout], f.voltage.value;
      assert HoldPlan(profile, f.vout, v).targetsV[0] == v;
      if profile.minimumV <= v <= profile.maximumV {
        AppliedVoltageExists(profile.minimumV, profile.maximumV, v);
      }
    }
  }

  predicate CanHold(profile: MokeProfile, vout: int, v: real) {
    && profile.vout == vout && profile.minimumV < profile.maximumV && profile.minimumV <= v <= profile.maximumV
    && exists code :: 0 <= code <= LAST_CODE && profile.minimumV <= DecodeVoltage(code) <= profile.maximumV
  }

  /** Compiles one final-state block behind the actions compiled so far. */
  method VisitFinalState(nodeId: string, f: FinalState, main: MainPlan, actions: seq<PlanAction>) returns (r: Result<seq<PlanAction>>)
    requires forall v | v in main.mokeProfiles :: 0.0 <= main.mokeProfiles[v].rampTimeoutS
    ensures r.Ok? <==> Admissible(f, main) && f.Endpoint() !in FinalEndpoints(actions)
    ensures r.Ok? ==> |actions| < |r.value| && r.value[..|actions|] == actions
    ensures r.Ok? ==> forall i | |actions| <= i < |r.value| :: CompletionOf(r.value[i], f)
    ensures r.Ok? ==>
              && |r.value| == |actions| + |Operations(f, main)|
              && forall i | |actions| <= i < |r.value| :: r.value[i].kind == Operations(f, main)[i - |actions|]
    ensures r.Ok? ==> forall i | |actions| <= i < |r.value| ::
              r.value[i].retainedOutput == if f.hold && i == |r.value| - 1 then Some(f.Endpoint()) else None
    ensures r.Ok? ==> DrivenEndpoint(r.value[|r.value| - 1].kind) == Some(f.Endpoint())
    ensures r.Ok? && f.hold && !f.FinalMoke? ==> r.value[|r.value| - 1].kind == AssertOutputOn(f.Endpoint())
    ensures r.Ok? && !f.hold ==> TurnsOff(r.value[|r.value| - 1].kind, f.Endpoint())
  {
    if !Admissible(f, main) || f.Endpoint() in FinalEndpoints(actions) {
      return Err(ConfigurationError);
    }
    var operations := Operations(f, main);
    OperationsFit(f, main);
    var result := actions;
    for i := 0 to |operations|
      invariant |result| == |actions| + i && result[..|actions|] == actions
      invariant forall j | |actions| <= j < |result| ::
                  CompletionOf(result[j], f) && result[j].kind == operations[j - |actions|]
                  && result[j].retainedOutput == if f.hold && j == |actions| + |operations| - 1 then Some(f.Endpoint()) else None
    {
      var retained := if f.hold && i == |operations| - 1 then Some(f.Endpoint()) else None;
      OperationCompletes(operations[i], f, OperationId(nodeId, i), retained);
      result := result + [PlanAction(OperationId(nodeId, i), operations[i], true, true, retained, false)];
    }
    return Ok(result);
  }

  predicate TurnsOff(k: Kind, e: Endpoint) {
    || (k.SetKeithleyOutput? && !k.enabled && e == KeithleyOut(k.smu))
    || (k.SetRigolOutput? && !k.enabled && e == RigolOut(k.rigol))
    || (k.StopMokeVoltage? && k.target.Some? && e == MokeVout(k.target.value))
  }

  /** A compiled final-state action: for success only, and touching no output but its own. */
  predicate CompletionOf(a: PlanAction, f: FinalState) {
    && CompiledAction(a) && a.isFinally && a.completionOnly && !a.faultOnly
    && (DrivenEndpoint(a.kind).Some? ==> DrivenEndpoint(a.kind).value == f.Endpoint())
    && TurnsOn(a.kind) == {} && (a.kind.UpdateMokeVoltage? ==> f.FinalMoke? && f.hold)
  }

  predicate OperationFits(k: Kind, f: FinalState) {
    && DurationsValid(k)
    && !k.AcquireSpectrum? && !k.Checkpoint? && !k.MeasureMokeHall? && !k.MeasureLakeshoreField?
    && (DrivenEndpoint(k).Some? ==> DrivenEndpoint(k).value == f.Endpoint())
    && (k.SetKeithleyOutput? || k.SetRigolOutput? || k.SetAnritsuSgOutput? ==> !k.enabled)
    && (k.UpdateMokeVoltage? ==> f.FinalMoke? && f.hold)
  }

  lemma OperationsFit(f: FinalState, main: MainPlan)
    requires Admissible(f, main) && forall v | v in main.mokeProfiles :: 0.0 <= main.mokeProfiles[v].rampTimeoutS
    ensures var operations := Operations(f, main);
            && 1 <= |operations| <= 3 && forall k | k in operations :: OperationFits(k, f)
    ensures DrivenEndpoint(Operations(f, main)[|Operations(f, main)| - 1]) == Some(f.Endpoint())
  {
  }

  lemma OperationCompletes(k: Kind, f: FinalState, id: string, retained: Option<Endpoint>)
    requires OperationFits(k, f) && (retained.Some? ==> retained.value == f.Endpoint())
    ensures CompletionOf(PlanAction(id, k, true, true, retained, false), f)
  {
  }

  // ---- Clean-up that final states override ----

  /** A clean-up action works on this output; a MOKE stop without a channel works on every channel. */
  predicate Touches(k: Kind, e: Endpoint) {
    match k
    case SetKeithleyOutput(s, _) => e == KeithleyOut(s)
    case RampKeithleyToZero(s, _) => e == KeithleyOut(s)
    case SetRigolOutput(r, _) => e == RigolOut(r)
    case StopMokeVoltage(target, _) => if target.Some? then e == MokeVout(target.value) else e.MokeVout?
    case _ => false
  }

  /** Clean-up that would undo a final state is kept for failures. */
  function Tagged(a: PlanAction, finals: set<Endpoint>): PlanAction {
    if a.isFinally && !a.completionOnly && exists e | e in finals :: Touches(a.kind, e) then a.(faultOnly := true) else a
  }

  function CleanupEndpoint(k: Kind): Option<Endpoint> {
    match k
    case SetKeithleyOutput(s, _) => Some(KeithleyOut(s))
    case RampKeithleyToZero(s, _) => Some(KeithleyOut(s))
    case SetRigolOutput(r, _) => Some(RigolOut(r))
    case StopMokeVoltage(target, _) => if target.Some? then Some(MokeVout(target.value)) else None
    case _ => None
  }

  /** Tags the list in place. */
  method TagFaultOnly(actions: array<PlanAction>)
    modifies actions
    ensures forall i | 0 <= i < actions.Length :: actions[i] == Tagged(old(actions[i]), FinalEndpoints(old(actions[..])))
  {
    var finals := FinalEndpoints(actions[..]);
    for i := 0 to actions.Length
      invariant forall j | 0 <= j < actions.Length ::
                  actions[j] == if j < i then Tagged(old(actions[j]), finals) else old(actions[j])
    {
      var a := actions[i];
      if a.isFinally && !a.completionOnly {
        var endpoint := CleanupEndpoint(a.kind);
        var overridden :=
          || (endpoint.Some? && endpoint.value in finals)
          || (a.kind.StopMokeVoltage? && a.kind.target.None? && exists e | e in finals :: e.MokeVout?);
        TouchesAny(a.kind, finals);
        if overridden {
          actions[i] := a.(faultOnly := true);
        }
      }
    }
  }

  lemma TouchesAny(k: Kind, finals: set<Endpoint>)
    ensures (exists e | e in finals :: Touches(k, e)) <==>
            || (CleanupEndpoint(k).Some? && CleanupEndpoint(k).value in finals)
            || (k.StopMokeVoltage? && k.target.None? && exists e | e in finals :: e.MokeVout?)
  {
    if CleanupEndpoint(k).Some? && CleanupEndpoint(k).value in finals {
      assert Touches(k, CleanupEndpoint(k).value);
    }
    if e :| e in finals && Touches(k, e) {
      assert CleanupEndpoint(k).Some? ==> CleanupEndpoint(k).value == e;
    }
    if k.StopMokeVoltage? && k.target.None? && exists e | e in finals :: e.MokeVout? {
      var e :| e in finals && e.MokeVout?;
      assert Touches(k, e);
    }
  }

  /** A list that was compiled action by action stays so when it is tagged, and counts the same points. */
  lemma TaggingKeepsCompiled(s: seq<PlanAction>, t: seq<PlanAction>, finals: set<Endpoint>)
    requires |t| == |s| && forall i | 0 <= i < |s| :: t[i] == Tagged(s[i], finals)
    requires forall a | a in s :: CompiledAction(a)
    ensures (forall a | a in t :: CompiledAction(a)) && Checkpoints(t) == Checkpoints(s)
    ensures RetainedOutputs(t) == RetainedOutputs(s)
  {
    forall i | 0 <= i < |t| ensures CompiledAction(t[i]) {
      assert s[i] in s;
    }
    TaggedCheckpoints(s, t, finals);
    forall e ensures e in RetainedOutputs(t) <==> e in RetainedOutputs(s) {
      if e in RetainedOutputs(s) {
        var i :| 0 <= i < |s| && s[i].completionOnly && s[i].retainedOutput == Some(e);
        assert t[i] in t;
      }
      if e in RetainedOutputs(t) {
        var i :| 0 <= i < |t| && t[i].completionOnly && t[i].retainedOutput == Some(e);
        assert s[i] in s;
      }
    }
  }

  lemma {:induction false} TaggedCheckpoints(s: seq<PlanAction>, t: seq<PlanAction>, finals: set<Endpoint>)
    requires |t| == |s| && forall i | 0 <= i < |s| :: t[i] == Tagged(s[i], finals)
    ensures Checkpoints(t) == Checkpoints(s)
  {
    if s != [] {
      TaggedCheckpoints(s[..|s| - 1], t[..|t| - 1], finals);
    }
  }

  /**
   Of a tagged plan, a successful run skips exactly the clean-up of outputs with an authored final state, and a failed
   run may use all of it.
   */
  lemma FinalStatesStand(s: seq<PlanAction>, t: seq<PlanAction>, i: int)
    requires |t| == |s| && forall j | 0 <= j < |s| :: t[j] == Tagged(s[j], FinalEndpoints(s))
    requires 0 <= i < |s| && s[i].isFinally && !s[i].completionOnly && !s[i].faultOnly
    ensures t[i].faultOnly <==> exists e | e in FinalEndpoints(t) :: Touches(t[i].kind, e)
  {
    SameFinalEndpoints(s, t);
  }

  lemma SameFinalEndpoints(s: seq<PlanAction>, t: seq<PlanAction>)
    requires |t| == |s| && forall j | 0 <= j < |s| :: t[j] == Tagged(s[j], FinalEndpoints(s))
    ensures FinalEndpoints(t) == FinalEndpoints(s)
  {
    forall e ensures e in FinalEndpoints(t) <==> e in FinalEndpoints(s) {
      if e in FinalEndpoints(s) {
        var i :| 0 <= i < |s| && AddressedBy(s[i], e);
        assert t[i] in t;
      }
      if e in FinalEndpoints(t) {
        var i :| 0 <= i < |t| && AddressedBy(t[i], e);
        assert s[i] in s;
      }
    }
  }

  // ---- The shutdown list ----

  /** An entry of the configured emergency order. */
  datatype StopEntry = KeithleyOff | RigolOff | AnritsuAbort | AnritsuRfOff | Flush | Unsupported(name: string)

  function DeviceOf(entry: StopEntry): Option<Device> {
    match entry
    case KeithleyOff => Some(Keithley)
    case RigolOff => Some(Rigol)
    case AnritsuAbort => Some(Anritsu)
    case AnritsuRfOff => Some(Anritsu)
    case _ => None
  }

  /** The devices a shutdown list is built for. An analyzer used as a mere receiver is left alone. */
  function ListedDevices(required: set<Device>, mokeOutput: bool, anritsuOutput: bool): set<Device> {
    (set d | d in required && (d.Keithley? || d.Rigol? || (d.Anritsu? && anritsuOutput)))
    + (if mokeOutput then {Moke} else {})
  }

  predicate StepsOnly(steps: seq<ShutdownStep>, devices: set<Device>) {
    && DistinctDevices(steps)
    && forall step | step in steps :: step.DeviceStep? && step.device in devices
  }

  lemma AddStep(steps: seq<ShutdownStep>, devices: set<Device>, d: Device)
    requires StepsOnly(steps, devices) && d in devices && DeviceStep(d) !in steps
    ensures StepsOnly(steps + [DeviceStep(d)], devices)
  {
  }

  method ConfiguredSteps(configured: seq<StopEntry>, required: set<Device>, anritsuOutput: bool) returns (r: Result<seq<ShutdownStep>>)
    ensures r.Ok? <==> forall entry | entry in configured :: !entry.Unsupported?
    ensures r.Ok? ==> StepsOnly(r.value, ListedDevices(required, false, anritsuOutput))
    ensures r.Ok? ==> forall i | 0 <= i < |configured| && DeviceOf(configured[i]).Some?
                                 && DeviceOf(configured[i]).value in ListedDevices(required, false, anritsuOutput) ::
                        DeviceStep(DeviceOf(configured[i]).value) in r.value
  {
    var steps: seq<ShutdownStep> := [];
    var devices := ListedDevices(required, false, anritsuOutput);
    for i := 0 to |configured|
      invariant forall j | 0 <= j < i :: !configured[j].Unsupported?
      invariant StepsOnly(steps, devices)
      invariant forall j | 0 <= j < i && DeviceOf(configured[j]).Some? && DeviceOf(configured[j]).value in devices ::
                  DeviceStep(DeviceOf(configured[j]).value) in steps
    {
      var entry := configured[i];
      if entry.Unsupported? {
        return Err(ConfigurationError);
      }
      if !((entry.AnritsuAbort? || entry.AnritsuRfOff?) && !anritsuOutput) && !entry.Flush? {
        var d := DeviceOf(entry).value;
        if d in required && DeviceStep(d) !in steps {
          AddStep(steps, devices, d);
          steps := steps + [DeviceStep(d)];
        }
      }
    }
    return Ok(steps);
  }

  /**
   The shutdown list of a plan: in the configured order, then whatever the order leaves out, each device once, and the
   storage flush last.
   */
  method SafeShutdownActions(configured: seq<StopEntry>, required: set<Device>, mokeOutput: bool, anritsuOutput: bool)
    returns (r: Result<seq<ShutdownStep>>)
    ensures r.Ok? <==> forall entry | entry in configured :: !entry.Unsupported?
    ensures r.Ok? ==> r.value != [] && r.value[|r.value| - 1] == FlushCheckpoint
    ensures r.Ok? ==> DistinctDevices(r.value)
    ensures r.Ok? ==> forall d :: DeviceStep(d) in r.value <==> d in ListedDevices(required, mokeOutput, anritsuOutput)
  {
    r := ConfiguredSteps(configured, required, anritsuOutput);
    if r.Err? {
      return;
    }
    var devices := ListedDevices(required, mokeOutput, anritsuOutput);
    var steps := r.value;
    if mokeOutput {
      AddStep(steps, devices, Moke);
      steps := steps + [DeviceStep(Moke)];
    }
    var order := [Keithley, Rigol, Anritsu];
    for i := 0 to |order|
      invariant StepsOnly(steps, devices)
      invariant forall j | 0 <= j < i && order[j] in devices :: DeviceStep(order[j]) in steps
      invariant mokeOutput ==> DeviceStep(Moke) in steps
    {
      var d := order[i];
      if d in required && (d != Anritsu || anritsuOutput) && DeviceStep(d) !in steps {
        AddStep(steps, devices, d);
        steps := steps + [DeviceStep(d)];
      }
    }
    forall d | d in devices ensures DeviceStep(d) in steps {
      assert d == order[0] || d == order[1] || d == order[2] || d == Moke;
    }
    r := Ok(steps + [FlushCheckpoint]);
  }
}
