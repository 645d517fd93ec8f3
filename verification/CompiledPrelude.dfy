/**
 What compilation guarantees recovery: in a plan whose records were made from the planned state and whose output flow
 was accepted, the compaction refuses no prefix and loses nothing of any.
 */
module CompiledPrelude {
  import opened Outcomes
  import opened Plan
  import opened Configurations
  import opened Compaction
  import P = PlannedState
  import F = OutputFlow

  function Kinds(actions: seq<PlanAction>): (kinds: seq<Kind>)
    ensures |kinds| == |actions|
  {
    seq(|actions|, i requires 0 <= i < |actions| => actions[i].kind)
  }

  /** What compilation leaves: built records, an accepted output flow, and only clean-up kept for failures. */
  ghost predicate CompiledFlow(actions: seq<PlanAction>) {
    && P.Built(Kinds(actions)) && F.Allowed(F.Flow(actions))
    && forall a | a in actions && a.faultOnly :: IsCleanupKind(a.kind)
  }

  lemma RecordIsTyped(p: P.Planned, k: Kind)
    requires P.BuiltFrom(p, k)
    ensures StepTyped(StepOf(k))
    ensures k.UpdateAnritsuSg? ==> RecordOf(k.config, SgKey)
  {
  }

  lemma CompiledIsTyped(actions: seq<PlanAction>)
    requires P.Built(Kinds(actions))
    ensures WellTyped(Steps(actions)) && UpdatesAreLive(Steps(actions))
  {
    hide P.BuiltFrom, StepOf, StepTyped;
    var kinds := Kinds(actions);
    forall i | 0 <= i < |actions| ensures StepTyped(StepOf(actions[i].kind)) {
      RecordIsTyped(P.Replayed(kinds[..i]), kinds[i]);
    }
    forall a | a in actions && a.kind.UpdateAnritsuSg? ensures RecordOf(a.kind.config, SgKey) {
      var i :| 0 <= i < |actions| && actions[i] == a;
      RecordIsTyped(P.Replayed(kinds[..i]), kinds[i]);
    }
    PlansUpdateLiveSettings(actions);
  }

  // ---- A source that is driven has selected its level and compliance ----

  predicate SetsUpSource(k: Kind, s: Smu) {
    k.ConfigureKeithley? && k.smu == s
  }

  /** The mode planned for a source is stated by one of its requests. */
  lemma {:induction false} PlannedModeIsStated(kinds: seq<Kind>, s: Smu) returns (j: nat)
    requires P.Built(kinds) && s in P.Replayed(kinds).keithley
    ensures j < |kinds| && SetsUpSource(kinds[j], s)
    ensures ValueOf(kinds[j].config, Mode) == ValueOf(P.Replayed(kinds).keithley[s], Mode)
  {
    hide P.Built, P.BuiltFrom, P.Merge, P.KeithleyAfter, P.Remember, P.RigolAfter, P.ModeAfter;
    var n := |kinds| - 1;
    var before := P.Replayed(kinds[..n]);
    P.BuiltFront(kinds);
    if SetsUpSource(kinds[n], s) {
      StatedMode(before, kinds[n]);
      j := n;
    } else {
      ModeStays(before.keithley, kinds[n], s);
      j := PlannedModeIsStated(kinds[..n], s);
      assert kinds[..n][j] == kinds[j];
    }
  }

  lemma StatedMode(p: P.Planned, k: Kind)
    requires P.BuiltFrom(p, k) && k.ConfigureKeithley?
    ensures k.smu in P.KeithleyAfter(p.keithley, k)
    ensures ValueOf(k.config, Mode) == ValueOf(P.KeithleyAfter(p.keithley, k)[k.smu], Mode)
  {
    P.BuiltRecordsStateWhatIsHeld(p, k);
  }

  lemma ModeStays(keithley: map<Smu, Config>, k: Kind, s: Smu)
    requires !SetsUpSource(k, s) && s in P.KeithleyAfter(keithley, k)
    ensures s in keithley && ValueOf(P.KeithleyAfter(keithley, k)[s], Mode) == ValueOf(keithley[s], Mode)
  {
  }

  /** Behind every request of a source mode stands a setup that selected level and compliance. */
  lemma {:induction false} SourceSelectsLevel(kinds: seq<Kind>, j: nat, s: Smu) returns (i: nat)
    requires P.Built(kinds) && j < |kinds| && SetsUpSource(kinds[j], s) && Sources(ValueOf(kinds[j].config, Mode))
    ensures i <= j && SetsUpSource(kinds[i], s) && kinds[i].config.mask.Some?
    ensures LevelSi in kinds[i].config.mask.value && ComplianceSi in kinds[i].config.mask.value
    decreases j
  {
    assert P.BuiltFrom(P.Replayed(kinds[..j]), kinds[j]);
    if Mode in kinds[j].config.mask.value {
      i := j;
    } else {
      BuiltPrefix(kinds, j);
      var k := PlannedModeIsStated(kinds[..j], s);
      assert kinds[..j][k] == kinds[k];
      i := SourceSelectsLevel(kinds, k, s);
    }
  }

  lemma BuiltPrefix(kinds: seq<Kind>, n: nat)
    requires P.Built(kinds) && n <= |kinds|
    ensures P.Built(kinds[..n])
  {
    hide P.BuiltFrom;
    forall i | 0 <= i < n ensures P.BuiltFrom(P.Replayed(kinds[..n][..i]), kinds[..n][i]) {
      assert kinds[..n][..i] == kinds[..i];
    }
  }

  // ---- Every live setting was configured before ----

  /** The output that the live updates of a record class drive. */
  function Driven(key: Key): Option<Endpoint> {
    match key
    case KeithleyKey(s) => Some(KeithleyOut(s))
    case RigolKey(r) => Some(RigolOut(r))
    case SgKey => Some(AnritsuSg)
    case _ => None
  }

  lemma UpdateIsLiveFlow(a: PlanAction)
    requires StepOf(a.kind).Update? && !a.faultOnly
    ensures Driven(StepOf(a.kind).key).Some? && F.FlowOf(a) == F.Live(Driven(StepOf(a.kind).key).value)
  {
  }

  lemma SetupIsConfiguration(a: PlanAction, key: Key)
    requires Driven(key).Some? && F.FlowOf(a) == F.Setup(Driven(key).value, true)
    ensures Configures(StepOf(a.kind), key) && StepOf(a.kind) == Configure(key, a.kind.config)
    ensures key.KeithleyKey? ==> SetsUpSource(a.kind, key.smu) && ValueOf(a.kind.config, Mode) != MEASURE_ONLY
    ensures key.RigolKey? ==> a.kind.ConfigureRigol?
    ensures key.SgKey? ==> a.kind.ConfigureAnritsuSg?
  {
  }

  lemma CleanupIsNoStep(k: Kind)
    requires IsCleanupKind(k)
    ensures StepOf(k).NoEffect?
  {
  }

  /** Before a live update stands a setup of the same output as a source. */
  lemma UpdateFollowsSetup(actions: seq<PlanAction>, n: nat) returns (i: nat)
    requires CompiledFlow(actions) && n < |actions| && StepOf(actions[n].kind).Update?
    ensures i < n && Driven(StepOf(actions[n].kind).key).Some?
    ensures F.FlowOf(actions[i]) == F.Setup(Driven(StepOf(actions[n].kind).key).value, true)
  {
    hide P.Built, F.FlowOf, StepOf;
    var flow := F.Flow(actions);
    if actions[n].faultOnly {
      CleanupIsNoStep(actions[n].kind);
    } else {
      UpdateIsLiveFlow(actions[n]);
      var e := Driven(StepOf(actions[n].kind).key).value;
      assert F.AllowedAt(flow, n);
      var j :| 0 <= j < n && flow[j] == F.Setup(e, true) && forall m | j < m < n :: !F.Unconfigures(flow[m], e);
      i := j;
    }
  }

  lemma {:induction false} SelectedIsConfigured(steps: seq<Step>, i: nat, key: Key, f: Field)
    requires i < |steps| && Configures(steps[i], key) && f in Writes(key, steps[i].config)
    ensures f in Configured(steps, key)
  {
    hide Writes;
    if i < |steps| - 1 {
      SelectedIsConfigured(steps[..|steps| - 1], i, key, f);
    }
  }

  lemma {:induction false} UpdatedByStep(steps: seq<Step>, key: Key, f: Field) returns (j: nat)
    requires f in Updated(steps, key)
    ensures j < |steps| && steps[j].Update? && steps[j].key == key && f in steps[j].fields
  {
    var n := |steps| - 1;
    if f in Updated(steps[..n], key) {
      j := UpdatedByStep(steps[..n], key, f);
    } else {
      j := n;
    }
  }

  /** A setup of a source selects every setting that live updates of it can move, itself or one before it. */
  lemma SetupSelectsLive(actions: seq<PlanAction>, i: nat, key: Key, f: Field) returns (j: nat)
    requires P.Built(Kinds(actions)) && i < |actions| && LiveSetting(key, f)
    requires Driven(key).Some? && F.FlowOf(actions[i]) == F.Setup(Driven(key).value, true)
    ensures j <= i && Configures(Steps(actions)[j], key) && f in Writes(key, Steps(actions)[j].config)
  {
    hide P.BuiltFrom, F.FlowOf, StepOf;
    var kinds := Kinds(actions);
    SetupIsConfiguration(actions[i], key);
    assert P.BuiltFrom(P.Replayed(kinds[..i]), kinds[i]);
    if key.KeithleyKey? {
      BuiltSourceMode(P.Replayed(kinds[..i]), kinds[i]);
      j := SourceSelectsLevel(kinds, i, key.smu);
      assert P.BuiltFrom(P.Replayed(kinds[..j]), kinds[j]);
      SourceSetupWrites(P.Replayed(kinds[..j]), kinds[j], key, f);
    } else {
      j := i;
      CarrierSetupWrites(P.Replayed(kinds[..i]), kinds[i], key, f);
    }
  }

  lemma BuiltSourceMode(p: P.Planned, k: Kind)
    requires P.BuiltFrom(p, k) && k.ConfigureKeithley?
    ensures Sources(ValueOf(k.config, Mode)) || ValueOf(k.config, Mode) == MEASURE_ONLY
  {
  }

  lemma SourceSetupWrites(p: P.Planned, k: Kind, key: Key, f: Field)
    requires P.BuiltFrom(p, k) && key.KeithleyKey? && SetsUpSource(k, key.smu) && LiveSetting(key, f)
    requires k.config.mask.Some? && LevelSi in k.config.mask.value && ComplianceSi in k.config.mask.value
    ensures StepOf(k) == Configure(key, k.config) && f in Writes(key, k.config)
  {
    assert HasField(key, f);
  }

  lemma CarrierSetupWrites(p: P.Planned, k: Kind, key: Key, f: Field)
    requires P.BuiltFrom(p, k) && !key.KeithleyKey? && Configures(StepOf(k), key) && LiveSetting(key, f)
    ensures StepOf(k) == Configure(key, k.config) && f in Writes(key, k.config)
  {
    assert HasField(key, f);
  }

  /** Every setting that a live update of a compiled prefix assigns was also selected by a configuration. */
  lemma UpdatedIsConfigured(actions: seq<PlanAction>, n: nat, key: Key)
    requires CompiledFlow(actions) && n <= |actions|
    ensures Updated(Steps(actions)[..n], key) <= Configured(Steps(actions)[..n], key)
  {
    hide P.Built, StepOf, Updated, Configured, F.FlowOf, F.Allowed, Writes;
    CompiledIsTyped(actions);
    var steps := Steps(actions);
    forall f | f in Updated(steps[..n], key) ensures f in Configured(steps[..n], key) {
      var j := UpdatedByStep(steps[..n], key, f);
      assert steps[j] == StepOf(actions[j].kind);
      assert LiveSetting(steps[j].key, f);
      var i := UpdateFollowsSetup(actions, j);
      var m := SetupSelectsLive(actions, i, key, f);
      assert steps[..n][m] == steps[m];
      SelectedIsConfigured(steps[..n], m, key, f);
    }
  }

  // ---- Every prefix is accepted ----

  /** The analyzer settings are planned only after an analyzer configuration. */
  lemma {:induction false} PlannedAnalyzerIsConfigured(kinds: seq<Kind>, f: Field) returns (j: nat)
    requires P.Spectrum(f) in P.Replayed(kinds).context
    ensures j < |kinds| && kinds[j].ConfigureAnritsu?
  {
    var n := |kinds| - 1;
    if kinds[n].ConfigureAnritsu? {
      j := n;
    } else {
      SpectrumContext(P.Replayed(kinds[..n]).context, kinds[n], f);
      j := PlannedAnalyzerIsConfigured(kinds[..n], f);
    }
  }

  lemma SpectrumContext(context: map<P.Setpoint, Value>, k: Kind, f: Field)
    requires !k.ConfigureAnritsu? && P.Spectrum(f) in P.Remember(context, k)
    ensures P.Spectrum(f) in context
  {
  }

  lemma CompiledConfigurationAccepted(actions: seq<PlanAction>, j: nat)
    requires P.Built(Kinds(actions)) && j < |actions| && StepOf(actions[j].kind).Configure?
    ensures AcceptedAt(Steps(actions), j)
  {
    var kinds, k := Kinds(actions), actions[j].kind;
    var p := P.Replayed(kinds[..j]);
    assert P.BuiltFrom(p, kinds[j]);
    if k.ConfigureKeithley? && Mode !in k.config.mask.value {
      BuiltPrefix(kinds, j);
      var i := PlannedModeIsStated(kinds[..j], k.smu);
      assert kinds[..j][i] == kinds[i];
      assert Configures(Steps(actions)[i], KeithleyKey(k.smu));
    } else if k.ConfigureAnritsu? && !P.NamesAll(k.config.mask.value, P.ANALYZER_BASIS) {
      assert P.Spectrum(StartHz) in p.context;
      var i := PlannedAnalyzerIsConfigured(kinds[..j], StartHz);
      assert kinds[..j][i] == kinds[i];
      assert Configures(Steps(actions)[i], SpectrumKey);
    }
  }

  lemma CompiledUpdateAccepted(actions: seq<PlanAction>, j: nat)
    requires CompiledFlow(actions) && j < |actions| && StepOf(actions[j].kind).Update?
    ensures AcceptedAt(Steps(actions), j)
  {
    hide P.Built, StepOf, F.FlowOf, F.Allowed;
    var i := UpdateFollowsSetup(actions, j);
    SetupIsConfiguration(actions[i], StepOf(actions[j].kind).key);
    assert Configures(Steps(actions)[i], StepOf(actions[j].kind).key);
  }

  lemma CompiledIsAccepted(actions: seq<PlanAction>)
    requires CompiledFlow(actions)
    ensures Accepted(Steps(actions))
  {
    hide CompiledFlow, StepOf, AcceptedAt;
    forall j | 0 <= j < |actions| ensures AcceptedAt(Steps(actions), j) {
      match StepOf(actions[j].kind) {
        case Configure(_, _) => CompiledFlowIsBuilt(actions); CompiledConfigurationAccepted(actions, j);
        case Update(_, _) => CompiledUpdateAccepted(actions, j);
        case NoEffect => NoEffectAccepted(actions, j);
      }
    }
  }

  lemma CompiledFlowIsBuilt(actions: seq<PlanAction>)
    requires CompiledFlow(actions)
    ensures P.Built(Kinds(actions))
  {
    hide P.Built, F.Allowed;
  }

  lemma NoEffectAccepted(actions: seq<PlanAction>, j: nat)
    requires j < |actions| && StepOf(actions[j].kind).NoEffect?
    ensures AcceptedAt(Steps(actions), j)
  {
  }

  /**
   The compaction of a compiled plan, cut off anywhere, does not fail, and the final value of every setting that any
   configuration or live update assigned is kept: the compacted list leads every state of a record class to the same
   state as the whole prefix.
   */
  lemma CompactionLosesNothing(actions: seq<PlanAction>, n: nat, key: Key)
    requires CompiledFlow(actions) && n <= |actions|
    ensures Accepted(Steps(actions)[..n])
    ensures Surviving(Steps(actions)[..n], key) == Replay(Steps(actions)[..n], key)
    ensures forall s: map<Field, Value> ::
              s + Surviving(Steps(actions)[..n], key) == s + Replay(Steps(actions)[..n], key)
  {
    hide CompiledFlow, Accepted, Surviving, Replay, Updated, Configured;
    CompiledIsAccepted(actions);
    AcceptedPrefix(Steps(actions), n);
    UpdatedIsConfigured(actions, n, key);
    NothingLost(Steps(actions)[..n], key);
  }

  lemma NothingLost(steps: seq<Step>, key: Key)
    requires Updated(steps, key) <= Configured(steps, key)
    ensures Surviving(steps, key) == Replay(steps, key)
  {
    ReplayedFields(steps, key);
  }
}
