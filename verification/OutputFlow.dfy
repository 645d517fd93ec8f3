/**
 The static output-flow check of a plan, and what it predicts about a run: with instruments that do what they are told,
 every ON and every live update meets an output that was set up, and every continuity assertion finds its output on,
 exactly when nothing in between turned it off in a way the check does not see.
 */
module OutputFlow {
  import opened Outcomes
  import opened Plan
  import L = RunLedger

  /** What an action is to the flow of outputs. */
  datatype FlowStep =
    | Setup(e: Endpoint, source: bool)   // a device configuration; a measure-only one is no source
    | SelectSpectrum                     // a complete analyzer configuration leaves the generator mode
    | Acquire
    | AssertsOn(e: Endpoint)
    | Live(e: Endpoint)
    | Switch(e: Endpoint, enabled: bool)
    | SilentOff(e: Endpoint)             // turns an output off, unseen by the check
    | Neutral

  predicate MeasureOnly(c: Config) {
    ValueOf(c, Mode) == MEASURE_ONLY
  }

  function FlowOf(a: PlanAction): FlowStep {
    if a.faultOnly then Neutral
    else
      match a.kind
      case ConfigureKeithley(s, c) => Setup(KeithleyOut(s), !MeasureOnly(c))
      case ConfigureRigol(r, _) => Setup(RigolOut(r), true)
      case ConfigureAnritsuSg(_) => Setup(AnritsuSg, true)
      case ConfigureAnritsu(c) => if IsCompleteConfiguration(c) then SelectSpectrum else Neutral
      case AcquireReference(block) => if block.fromFile then Neutral else Acquire
      case AcquireSpectrum(block) => if block.fromFile then Neutral else Acquire
      case AssertOutputOn(e) => AssertsOn(e)
      case UpdateKeithleyLevel(s, _, _) => Live(KeithleyOut(s))
      case UpdateKeithleyCompliance(s, _) => Live(KeithleyOut(s))
      case UpdateRigolFrequency(r, _) => Live(RigolOut(r))
      case UpdateRigolLevels(r, _, _) => Live(RigolOut(r))
      case UpdateAnritsuSg(_) => Live(AnritsuSg)
      case SetKeithleyOutput(s, enabled) => Switch(KeithleyOut(s), enabled)
      case SetRigolOutput(r, enabled) => Switch(RigolOut(r), enabled)
      case SetAnritsuSgOutput(enabled) => Switch(AnritsuSg, enabled)
      case ConfigureRigolOutput(r, _) => SilentOff(RigolOut(r))
      case RampKeithleyToZero(s, _) => SilentOff(KeithleyOut(s))
      case _ => Neutral
  }

  function Flow(actions: seq<PlanAction>): (steps: seq<FlowStep>)
    ensures |steps| == |actions|
  {
    seq(|actions|, i requires 0 <= i < |actions| => FlowOf(actions[i]))
  }

  // ---- What the order of the steps says ----

  /** The step takes away the configuration of an output: a measure-only setup, or leaving the generator mode. */
  predicate Unconfigures(step: FlowStep, e: Endpoint) {
    (step.Setup? && step.e == e && !step.source) || (step.SelectSpectrum? && e == AnritsuSg)
  }

  /** Before position n the output was set up as a source, and still is. */
  ghost predicate ConfiguredAt(steps: seq<FlowStep>, n: nat, e: Endpoint)
    requires n <= |steps|
  {
    exists i :: 0 <= i < n && steps[i] == Setup(e, true) && forall j | i < j < n :: !Unconfigures(steps[j], e)
  }

  /** The check sees that the step leaves the output off. */
  predicate SeenOff(step: FlowStep, e: Endpoint) {
    step == Switch(e, false) || (step.Setup? && step.e == e)
  }

  /** Before position n the output was switched on, and nothing that the check sees turned it off since. */
  ghost predicate OnAt(steps: seq<FlowStep>, n: nat, e: Endpoint)
    requires n <= |steps|
  {
    exists i :: LastOn(steps, n, e, i)
  }

  ghost predicate LastOn(steps: seq<FlowStep>, n: nat, e: Endpoint, i: int)
    requires n <= |steps|
  {
    0 <= i < n && steps[i] == Switch(e, true) && forall j | i < j < n :: !SeenOff(steps[j], e)
  }

  /** The analyzer was last set up as a generator. */
  ghost predicate GeneratorModeAt(steps: seq<FlowStep>, n: nat)
    requires n <= |steps|
  {
    exists i :: 0 <= i < n && IsGeneratorSetup(steps[i]) && forall j | i < j < n :: !steps[j].SelectSpectrum?
  }

  predicate IsGeneratorSetup(step: FlowStep) {
    step.Setup? && step.e == AnritsuSg
  }

  /** The rule for the step at position n. */
  ghost predicate AllowedAt(steps: seq<FlowStep>, n: nat)
    requires n < |steps|
  {
    match steps[n]
    case SelectSpectrum => !OnAt(steps, n, AnritsuSg)
    case Acquire => !GeneratorModeAt(steps, n)
    case AssertsOn(e) => ConfiguredAt(steps, n, e) && OnAt(steps, n, e)
    case Live(e) => ConfiguredAt(steps, n, e)
    case Switch(e, enabled) => enabled ==> ConfiguredAt(steps, n, e)
    case _ => true
  }

  ghost predicate Allowed(steps: seq<FlowStep>) {
    forall n | 0 <= n < |steps| :: AllowedAt(steps, n)
  }

  // ---- The check ----

  datatype FlowState = FlowState(configured: set<Endpoint>, on: set<Endpoint>, generatorMode: bool)

  ghost predicate Tracks(steps: seq<FlowStep>, n: nat, s: FlowState)
    requires n <= |steps|
  {
    && (forall e :: e in s.configured <==> ConfiguredAt(steps, n, e))
    && (forall e :: e in s.on <==> OnAt(steps, n, e))
    && (s.generatorMode <==> GeneratorModeAt(steps, n))
  }

  lemma ConfiguredStep(steps: seq<FlowStep>, n: nat, e: Endpoint)
    requires n < |steps|
    ensures ConfiguredAt(steps, n + 1, e) <==>
            steps[n] == Setup(e, true) || (ConfiguredAt(steps, n, e) && !Unconfigures(steps[n], e))
  {
    var m := n + 1;
    if ConfiguredAt(steps, m, e) {
      var i :| 0 <= i < m && steps[i] == Setup(e, true) && forall j | i < j < m :: !Unconfigures(steps[j], e);
    }
    if ConfiguredAt(steps, n, e) && !Unconfigures(steps[n], e) {
      var i :| 0 <= i < n && steps[i] == Setup(e, true) && forall j | i < j < n :: !Unconfigures(steps[j], e);
      assert forall j | i < j < m :: !Unconfigures(steps[j], e);
    }
  }

  lemma OnStep(steps: seq<FlowStep>, n: nat, e: Endpoint)
    requires n < |steps|
    ensures OnAt(steps, n + 1, e) <==> steps[n] == Switch(e, true) || (OnAt(steps, n, e) && !SeenOff(steps[n], e))
  {
    var m := n + 1;
    if OnAt(steps, m, e) {
      var i :| LastOn(steps, m, e, i);
      assert i < n ==> LastOn(steps, n, e, i);
    }
    if OnAt(steps, n, e) && !SeenOff(steps[n], e) {
      var i :| LastOn(steps, n, e, i);
      assert LastOn(steps, m, e, i);
    }
    assert steps[n] == Switch(e, true) ==> LastOn(steps, m, e, n);
  }

  lemma GeneratorStep(steps: seq<FlowStep>, n: nat)
    requires n < |steps|
    ensures GeneratorModeAt(steps, n + 1) <==>
            IsGeneratorSetup(steps[n]) || (GeneratorModeAt(steps, n) && !steps[n].SelectSpectrum?)
  {
    var m := n + 1;
    if GeneratorModeAt(steps, m) {
      var i :| 0 <= i < m && IsGeneratorSetup(steps[i]) && forall j | i < j < m :: !steps[j].SelectSpectrum?;
    }
    if GeneratorModeAt(steps, n) && !steps[n].SelectSpectrum? {
      var i :| 0 <= i < n && IsGeneratorSetup(steps[i]) && forall j | i < j < n :: !steps[j].SelectSpectrum?;
      assert forall j | i < j < m :: !steps[j].SelectSpectrum?;
    }
  }

  lemma AfterStep(steps: seq<FlowStep>, n: nat, m: nat)
    requires n < |steps| && m == n + 1
    ensures forall e :: ConfiguredAt(steps, m, e) <==>
                          steps[n] == Setup(e, true) || (ConfiguredAt(steps, n, e) && !Unconfigures(steps[n], e))
    ensures forall e :: OnAt(steps, m, e) <==> steps[n] == Switch(e, true) || (OnAt(steps, n, e) && !SeenOff(steps[n], e))
  {
    forall e
      ensures ConfiguredAt(steps, m, e) <==>
              steps[n] == Setup(e, true) || (ConfiguredAt(steps, n, e) && !Unconfigures(steps[n], e))
    {
      ConfiguredStep(steps, n, e);
    }
    forall e ensures OnAt(steps, m, e) <==> steps[n] == Switch(e, true) || (OnAt(steps, n, e) && !SeenOff(steps[n], e)) {
      OnStep(steps, n, e);
    }
  }

  /** One action of the check. */
  method CheckStep(steps: seq<FlowStep>, n: nat, s: FlowState) returns (o: Outcome, s1: FlowState)
    requires n < |steps| && Tracks(steps, n, s)
    ensures o.Done? <==> AllowedAt(steps, n)
    ensures o.Done? ==> Tracks(steps, n + 1, s1)
  {
    AfterStep(steps, n, n + 1);
    GeneratorStep(steps, n);
    s1, o := s, Done;
    match steps[n] {
      case SelectSpectrum =>
        if AnritsuSg in s.on {
          return Raised(ConfigurationError), s;
        }
        s1 := s.(generatorMode := false, configured := s.configured - {AnritsuSg});
      case Acquire =>
        if s.generatorMode {
          return Raised(ConfigurationError), s;
        }
      case Setup(e, source) =>
        s1 := FlowState(if source then s.configured + {e} else s.configured - {e}, s.on - {e}, s.generatorMode || e == AnritsuSg);
      case AssertsOn(e) =>
        if e !in s.configured || e !in s.on {
          return Raised(ConfigurationError), s;
        }
      case Live(e) =>
        if e !in s.configured {
          return Raised(ConfigurationError), s;
        }
      case Switch(e, enabled) =>
        if enabled && e !in s.configured {
          return Raised(ConfigurationError), s;
        }
        s1 := s.(on := if enabled then s.on + {e} else s.on - {e});
      case SilentOff(_) =>
      case Neutral =>
    }
  }

  method ValidateDeviceStateFlow(actions: seq<PlanAction>) returns (o: Outcome)
    ensures o.Done? <==> Allowed(Flow(actions))
  {
    var steps := Flow(actions);
    var s := FlowState({}, {}, false);
    for n := 0 to |steps|
      invariant Tracks(steps, n, s)
      invariant forall j | 0 <= j < n :: AllowedAt(steps, j)
    {
      o, s := CheckStep(steps, n, s);
      if o.Raised? {
        return;
      }
    }
    return Done;
  }

  // ---- The run ----

  /** Instruments that do what they are told: a configuration and a ramp end with the output off, also those the check overlooks. */
  predicate PhysicallyOn(steps: seq<FlowStep>, n: nat, e: Endpoint)
    requires n <= |steps|
  {
    if n == 0 then false
    else
      match steps[n - 1]
      case Switch(x, enabled) => if x == e then enabled else PhysicallyOn(steps, n - 1, e)
      case Setup(x, _) => x != e && PhysicallyOn(steps, n - 1, e)
      case SilentOff(x) => x != e && PhysicallyOn(steps, n - 1, e)
      case SelectSpectrum => e != AnritsuSg && PhysicallyOn(steps, n - 1, e)
      case _ => PhysicallyOn(steps, n - 1, e)
  }

  predicate SilentlyOffBetween(steps: seq<FlowStep>, i: int, n: nat, e: Endpoint)
    requires -1 <= i && n <= |steps|
  {
    exists j | i < j < n :: steps[j] == SilentOff(e)
  }

  /** In a plan the check accepts, an output it takes to be on is on, unless it was turned off unseen after its last ON. */
  lemma {:induction false} OnUnlessSilentlyOff(steps: seq<FlowStep>, n: nat, e: Endpoint, i: int)
    requires n <= |steps| && Allowed(steps) && LastOn(steps, n, e, i)
    requires forall j | i < j < n :: steps[j] != Switch(e, true)
    ensures PhysicallyOn(steps, n, e) <==> !SilentlyOffBetween(steps, i, n, e)
  {
    if n - 1 == i {
      assert steps[n - 1] == Switch(e, true);
    } else {
      var m := n - 1;
      assert LastOn(steps, m, e, i) && AllowedAt(steps, m) && !SeenOff(steps[m], e);
      OnUnlessSilentlyOff(steps, m, e, i);
      assert OnAt(steps, m, e);
      assert SilentlyOffBetween(steps, i, n, e) <==> SilentlyOffBetween(steps, i, m, e) || steps[m] == SilentOff(e);
    }
  }

  /** The last ON before a position. */
  lemma {:induction false} LatestOn(steps: seq<FlowStep>, n: nat, e: Endpoint)
    requires n <= |steps| && OnAt(steps, n, e)
    ensures exists i :: LastOn(steps, n, e, i) && forall j | i < j < n :: steps[j] != Switch(e, true)
  {
    if n > 0 && steps[n - 1] == Switch(e, true) {
      assert LastOn(steps, n, e, n - 1);
    } else {
      OnStep(steps, n - 1, e);
      LatestOn(steps, n - 1, e);
      var i :| LastOn(steps, n - 1, e, i) && forall j | i < j < n - 1 :: steps[j] != Switch(e, true);
      assert LastOn(steps, n, e, i);
    }
  }

  /**
   What acceptance is worth: every ON and every live update meets an output that is set up, no acquisition meets the
   generator mode, and a continuity assertion finds its output on exactly when no output-path configuration and no
   ramp to zero came after the last ON.
   */
  lemma AcceptedPlanRuns(steps: seq<FlowStep>, n: nat)
    requires n < |steps| && Allowed(steps)
    ensures steps[n].Live? || (steps[n].Switch? && steps[n].enabled) ==> ConfiguredAt(steps, n, steps[n].e)
    ensures steps[n].Acquire? ==> !GeneratorModeAt(steps, n)
    ensures steps[n].AssertsOn? ==>
      exists i :: LastOn(steps, n, steps[n].e, i) && (PhysicallyOn(steps, n, steps[n].e) <==> !SilentlyOffBetween(steps, i, n, steps[n].e))
  {
    assert AllowedAt(steps, n);
    if steps[n].AssertsOn? {
      var e := steps[n].e;
      LatestOn(steps, n, e);
      var i :| LastOn(steps, n, e, i) && forall j | i < j < n :: steps[j] != Switch(e, true);
      OnUnlessSilentlyOff(steps, n, e, i);
    }
  }

  // ---- The outputs of a run ----

  /** The step sets this output up, switches it, or turns it off. */
  predicate Decides(step: FlowStep, e: Endpoint) {
    (step.Setup? || step.Switch? || step.SilentOff?) && step.e == e
  }

  /** Before position n the plan has said something about this output; until then it may be in any state. */
  predicate Known(steps: seq<FlowStep>, n: nat, e: Endpoint)
    requires n <= |steps|
  {
    n > 0 && (Decides(steps[n - 1], e) || Known(steps, n - 1, e))
  }

  /** What the fold above says about the outputs as a run has them; the generator is recorded as it is. */
  predicate Agrees(steps: seq<FlowStep>, n: nat, o: L.Outputs)
    requires n <= |steps|
  {
    && (forall e | e in SWITCHED && Known(steps, n, e) :: e in o.energized <==> PhysicallyOn(steps, n, e))
    && (Known(steps, n, AnritsuSg) ==> (AnritsuSg in o.active <==> AnritsuSg in o.energized))
  }

  /** The instrument obeyed: a switch left its output as it was told, and a generator setup left it off. */
  predicate Obeyed(k: Kind, after: L.Outputs) {
    && (SwitchedEndpoint(k).Some? ==> (SwitchedEndpoint(k).value in after.energized <==> k.enabled))
    && (k.ConfigureAnritsuSg? ==> AnritsuSg !in after.energized)
  }

  /** The actions that succeed one after another in a run that is no dry run, and the outputs before and after each. */
  ghost predicate Ran(actions: seq<PlanAction>, owned: bool, outputs: seq<L.Outputs>) {
    && |outputs| == |actions| + 1
    && forall i | 0 <= i < |actions| :: RanStep(actions[i], owned, outputs[i], outputs[i + 1])
  }

  /** An action kept for failures is not executed. */
  ghost predicate RanStep(a: PlanAction, owned: bool, before: L.Outputs, after: L.Outputs) {
    if a.faultOnly then after == before else L.OutputEffect(a.kind, false, owned, before, after) && Obeyed(a.kind, after)
  }

  /** What one step does to one output. */
  function OnAfter(step: FlowStep, e: Endpoint, on: bool): bool {
    match step
    case Switch(x, enabled) => if x == e then enabled else on
    case Setup(x, _) => x != e && on
    case SilentOff(x) => x != e && on
    case SelectSpectrum => e != AnritsuSg && on
    case _ => on
  }

  lemma EffectFollowsFlow(a: PlanAction, owned: bool, before: L.Outputs, after: L.Outputs, e: Endpoint)
    requires RanStep(a, owned, before, after) && e in SWITCHED
    requires Decides(FlowOf(a), e) || (e == AnritsuSg ==> (AnritsuSg in before.active <==> AnritsuSg in before.energized))
    requires FlowOf(a).SelectSpectrum? && e == AnritsuSg ==> AnritsuSg !in before.energized
    ensures e in after.energized <==> OnAfter(FlowOf(a), e, e in before.energized)
    ensures e == AnritsuSg ==> (AnritsuSg in after.active <==> AnritsuSg in after.energized)
  {
  }

  /** An output that is on was seen to be switched on, and not seen off since. */
  lemma {:induction false} OnIsSeen(steps: seq<FlowStep>, n: nat, e: Endpoint)
    requires n <= |steps| && PhysicallyOn(steps, n, e)
    ensures OnAt(steps, n, e)
  {
    OnStep(steps, n - 1, e);
    if steps[n - 1] != Switch(e, true) {
      OnIsSeen(steps, n - 1, e);
    }
  }

  /** The outputs of a run of an accepted plan are those of the fold, action by action, from whatever state they were in. */
  lemma {:induction false} RunFollowsFlow(actions: seq<PlanAction>, owned: bool, outputs: seq<L.Outputs>, n: nat)
    requires Allowed(Flow(actions)) && Ran(actions, owned, outputs) && n <= |actions|
    ensures Agrees(Flow(actions), n, outputs[n])
  {
    hide FlowOf, L.OutputEffect, Obeyed, RanStep, Decides, AllowedAt;
    if n > 0 {
      var m := n - 1;
      var steps := Flow(actions);
      RunFollowsFlow(actions, owned, outputs, m);
      assert RanStep(actions[m], owned, outputs[m], outputs[m + 1]);
      forall e | e in SWITCHED && Known(steps, n, e)
        ensures e in outputs[n].energized <==> PhysicallyOn(steps, n, e)
        ensures e == AnritsuSg ==> (AnritsuSg in outputs[n].active <==> AnritsuSg in outputs[n].energized)
      {
        if steps[m].SelectSpectrum? && e == AnritsuSg {
          SelectedWhileOff(steps, m);
          NotDecided(steps[m], e);
        }
        EffectFollowsFlow(actions[m], owned, outputs[m], outputs[n], e);
        DecidedAnyway(steps[m], e, e in outputs[m].energized, PhysicallyOn(steps, m, e));
      }
      assert AnritsuSg in SWITCHED;
    }
  }

  lemma SelectedWhileOff(steps: seq<FlowStep>, m: nat)
    requires Allowed(steps) && m < |steps| && steps[m].SelectSpectrum?
    ensures !PhysicallyOn(steps, m, AnritsuSg)
  {
    assert AllowedAt(steps, m);
    if PhysicallyOn(steps, m, AnritsuSg) {
      OnIsSeen(steps, m, AnritsuSg);
    }
  }

  lemma DecidedAnyway(step: FlowStep, e: Endpoint, x: bool, y: bool)
    requires Decides(step, e) || x == y
    ensures OnAfter(step, e, x) == OnAfter(step, e, y)
  {
  }

  lemma NotDecided(step: FlowStep, e: Endpoint)
    requires step.SelectSpectrum?
    ensures !Decides(step, e)
  {
  }

  lemma {:induction false} SwitchedIsKnown(steps: seq<FlowStep>, n: nat, e: Endpoint, i: int)
    requires n <= |steps| && 0 <= i < n && steps[i] == Switch(e, true)
    ensures Known(steps, n, e)
  {
    if i < n - 1 {
      SwitchedIsKnown(steps, n - 1, e, i);
    }
  }

  /**
   A run of an accepted plan in which every action succeeds has no continuity assertion after an output-path
   configuration or a ramp to zero that followed the last ON of its output.
   */
  lemma SucceedingAssertions(actions: seq<PlanAction>, owned: bool, outputs: seq<L.Outputs>, n: nat)
    requires Allowed(Flow(actions)) && Ran(actions, owned, outputs)
    requires n < |actions| && Flow(actions)[n].AssertsOn? && Flow(actions)[n].e in SWITCHED
    ensures var e := Flow(actions)[n].e;
            exists i :: LastOn(Flow(actions), n, e, i) && !SilentlyOffBetween(Flow(actions), i, n, e)
  {
    var steps, e := Flow(actions), Flow(actions)[n].e;
    RunFollowsFlow(actions, owned, outputs, n);
    AcceptedPlanRuns(steps, n);
    var i :| LastOn(steps, n, e, i) && (PhysicallyOn(steps, n, e) <==> !SilentlyOffBetween(steps, i, n, e));
    SwitchedIsKnown(steps, n, e, i);
    assert RanStep(actions[n], owned, outputs[n], outputs[n + 1]);
    AssertionSeesOn(actions[n], owned, outputs[n], outputs[n + 1]);
  }

  lemma AssertionSeesOn(a: PlanAction, owned: bool, before: L.Outputs, after: L.Outputs)
    requires RanStep(a, owned, before, after) && FlowOf(a).AssertsOn?
    ensures FlowOf(a).e in before.energized
  {
  }

  /** The check does not see the output path of a carrier: an accepted plan whose assertion finds the output off. */
  lemma AcceptedAssertionCanFail(r: RigolChannel, c: Config, path: Config)
    ensures var steps := Flow([Act(ConfigureRigol(r, c)), Act(SetRigolOutput(r, true)),
                               Act(ConfigureRigolOutput(r, path)), Act(AssertOutputOn(RigolOut(r)))]);
            && Allowed(steps) && steps[3] == AssertsOn(RigolOut(r)) && !PhysicallyOn(steps, 3, RigolOut(r))
  {
    var e := RigolOut(r);
    var steps := [Setup(e, true), Switch(e, true), SilentOff(e), AssertsOn(e)];
    assert Flow([Act(ConfigureRigol(r, c)), Act(SetRigolOutput(r, true)), Act(ConfigureRigolOutput(r, path)), Act(AssertOutputOn(e))]) == steps;
    assert steps[0] == Setup(e, true) && ConfiguredAt(steps, 1, e) && ConfiguredAt(steps, 3, e);
    assert LastOn(steps, 3, e, 1);
    forall n | 0 <= n < |steps| ensures AllowedAt(steps, n) {
    }
  }

  function Act(k: Kind): PlanAction {
    PlanAction("node", k, false, false, None, false)
  }
}
