/**
 Compilation plans what the devices will hold, and recovery reads off the actions what they were told. The two follow the
 same list by rules of their own; here they are related, setting by setting, and with them what a recovery sends.
 */
module Agreement {
  import opened Outcomes
  import opened Plan
  import opened Configurations
  import opened Compaction
  import opened CompiledPrelude
  import F = OutputFlow
  import P = PlannedState
  import Registers

  /** The settings that a list of actions leaves in a record class. */
  function Told(actions: seq<PlanAction>, key: Key): map<Field, Value> {
    Replay(Steps(actions), key)
  }

  function PlannedBy(actions: seq<PlanAction>): P.Planned {
    P.Replayed(Kinds(actions))
  }

  lemma OneMore(actions: seq<PlanAction>, key: Key)
    requires actions != [] && P.Built(Kinds(actions))
    ensures var n := |actions| - 1;
            && P.Built(Kinds(actions[..n])) && P.BuiltFrom(PlannedBy(actions[..n]), actions[n].kind)
            && PlannedBy(actions) == P.Advance(PlannedBy(actions[..n]), actions[n].kind)
            && Told(actions, key) == Told(actions[..n], key) + Effect(StepOf(actions[n].kind), key)
  {
    hide P.BuiltFrom, P.Advance, StepOf, Effect;
    var n := |actions| - 1;
    assert Kinds(actions)[..n] == Kinds(actions[..n]) && Steps(actions)[..n] == Steps(actions[..n]);
    P.BuiltFront(Kinds(actions));
  }

  // ---- The last action that gives a setting decides it ----

  predicate Names(c: Config, f: Field) {
    c.mask.None? || f in c.mask.value
  }

  /** A live generator update without named settings gives both. */
  predicate UpdatesGenerator(k: Kind, f: Field) {
    k.UpdateAnritsuSg? && (k.config.mask.None? || k.config.mask.value == [] || f in k.config.mask.value)
  }

  /** The value that an action gives a setting of a record class. */
  function Given(k: Kind, key: Key, f: Field): Option<Value> {
    match key
    case KeithleyKey(s) =>
      if k.ConfigureKeithley? && k.smu == s && Names(k.config, f) then Some(ValueOf(k.config, f))
      else if k.UpdateKeithleyLevel? && k.smu == s && f.LevelSi? then Some(k.level)
      else if k.UpdateKeithleyCompliance? && k.smu == s && f.ComplianceSi? then Some(k.compliance)
      else None
    case RigolKey(r) =>
      if k.ConfigureRigol? && k.rigol == r && Names(k.config, f) then Some(ValueOf(k.config, f))
      else if k.UpdateRigolFrequency? && k.rigol == r && f.FrequencyHz? then Some(k.frequency)
      else if k.UpdateRigolLevels? && k.rigol == r && f.HighLevelV? then Some(k.high)
      else if k.UpdateRigolLevels? && k.rigol == r && f.LowLevelV? then Some(k.low)
      else None
    case RigolOutputKey(r) =>
      if k.ConfigureRigolOutput? && k.rigol == r && Names(k.config, f) then Some(ValueOf(k.config, f)) else None
    case SpectrumKey => if k.ConfigureAnritsu? && Names(k.config, f) then Some(ValueOf(k.config, f)) else None
    case AdvancedKey =>
      if k.ConfigureAnritsuAdvanced? && ValueOf(k.config, f) != Missing then Some(ValueOf(k.config, f)) else None
    case SgKey =>
      if k.ConfigureAnritsuSg? || UpdatesGenerator(k, f) then Some(ValueOf(k.config, f)) else None
  }

  lemma EffectIsGiven(p: P.Planned, k: Kind, key: Key, f: Field)
    requires P.BuiltFrom(p, k) && HasField(key, f)
    ensures Given(k, key, f) == P.Lookup(Effect(StepOf(k), key), f)
  {
    hide Given, Effect, StepOf, P.BuiltFrom, HasField;
    if P.IsConfiguration(k) {
      RecordIsGiven(p, k, key, f);
    } else {
      UpdateIsGiven(p, k, key, f);
    }
  }

  lemma WritesNamed(key: Key, c: Config, f: Field)
    requires RecordOf(c, key) && HasField(key, f)
    ensures P.Lookup(Writes(key, c), f) ==
            if (if key.AdvancedKey? then ValueOf(c, f) != Missing else Names(c, f)) then Some(ValueOf(c, f)) else None
  {
    hide HasField;
  }

  lemma RecordStep(p: P.Planned, k: Kind)
    requires P.BuiltFrom(p, k) && P.IsConfiguration(k)
    ensures Configures(StepOf(k), StepOf(k).key) && StepOf(k).config == k.config && RecordOf(k.config, StepOf(k).key)
    ensures StepOf(k).key.SgKey? ==> k.config.mask.None?
  {
    hide HasField, RecordOf, P.BuiltSource, P.NamesAll, P.AnalyzerPlanned, P.States;
  }

  lemma GivenByRecord(k: Kind, key: Key, f: Field)
    requires P.IsConfiguration(k) && (StepOf(k).key.SgKey? ==> k.config.mask.None?)
    ensures Given(k, key, f) ==
            if StepOf(k).key == key && (if key.AdvancedKey? then ValueOf(k.config, f) != Missing else Names(k.config, f))
            then Some(ValueOf(k.config, f)) else None
  {
    hide ValueOf;
  }

  lemma RecordIsGiven(p: P.Planned, k: Kind, key: Key, f: Field)
    requires P.BuiltFrom(p, k) && HasField(key, f) && P.IsConfiguration(k)
    ensures Given(k, key, f) == P.Lookup(Effect(StepOf(k), key), f)
  {
    hide Given, StepOf, HasField, Writes, RecordOf, P.BuiltFrom, ValueOf, Names;
    RecordStep(p, k);
    GivenByRecord(k, key, f);
    if Configures(StepOf(k), key) {
      WritesNamed(key, k.config, f);
    }
  }

  lemma GeneratorUpdateIsGiven(k: Kind, key: Key, f: Field)
    requires k.UpdateAnritsuSg? && RecordOf(k.config, SgKey) && HasField(key, f)
    ensures Given(k, key, f) == P.Lookup(Effect(StepOf(k), key), f)
  {
    hide HasField;
  }

  lemma UpdateIsGiven(p: P.Planned, k: Kind, key: Key, f: Field)
    requires P.BuiltFrom(p, k) && HasField(key, f) && !P.IsConfiguration(k)
    ensures Given(k, key, f) == P.Lookup(Effect(StepOf(k), key), f)
  {
    hide HasField, RecordOf, SgUpdate, P.States;
    if k.UpdateAnritsuSg? {
      hide Given, Effect, StepOf;
      GeneratorUpdateIsGiven(k, key, f);
    }
  }

  lemma LookupOver(told: map<Field, Value>, written: map<Field, Value>, f: Field)
    ensures P.Lookup(told + written, f) == if P.Lookup(written, f).Some? then P.Lookup(written, f) else P.Lookup(told, f)
  {
  }

  /** Each setting has the value given last, and one that no action gives is not told at all. */
  lemma {:induction false} LastGivenIsTold(actions: seq<PlanAction>, key: Key, f: Field, i: nat)
    requires P.Built(Kinds(actions)) && HasField(key, f) && i <= |actions|
    requires forall j | i <= j < |actions| :: Given(actions[j].kind, key, f).None?
    ensures i == 0 ==> f !in Told(actions, key)
    ensures i > 0 && Given(actions[i - 1].kind, key, f).Some? ==>
              P.Lookup(Told(actions, key), f) == Given(actions[i - 1].kind, key, f)
    decreases |actions|
  {
    hide P.Built, P.BuiltFrom, P.Advance, PlannedBy, Told, HasField, StepOf, Effect, Given;
    if actions == [] {
      NothingTold(key);
    } else {
      var n := |actions| - 1;
      OneMore(actions, key);
      EffectIsGiven(PlannedBy(actions[..n]), actions[n].kind, key, f);
      LookupOver(Told(actions[..n], key), Effect(StepOf(actions[n].kind), key), f);
      if i <= n {
        LastGivenIsTold(actions[..n], key, f, i);
      }
    }
  }

  lemma NothingTold(key: Key)
    ensures Told([], key) == map[] && PlannedBy([]) == P.NOTHING_PLANNED
  {
  }

  // ---- Sources ----

  /**
   A planned source: what was told is planned, apart from the settings of a source that measuring alone clears; and
   while the source drives, its level and its compliance were told and are the planned ones.
   */
  predicate SourceAgrees(p: P.Planned, s: Smu, told: map<Field, Value>) {
    if s in p.keithley then
      && Mode in told
      && (forall f | f in told && !Registers.SourceOnly(f) :: told[f] == ValueOf(p.keithley[s], f))
      && (Sources(ValueOf(p.keithley[s], Mode)) ==>
            && LevelSi in told && told[LevelSi] == ValueOf(p.keithley[s], LevelSi)
            && ComplianceSi in told && told[ComplianceSi] == ValueOf(p.keithley[s], ComplianceSi))
    else forall f | f in told :: f.LevelSi? || f.ComplianceSi?
  }

  lemma SourceConfigured(p: P.Planned, k: Kind, told: map<Field, Value>)
    requires P.BuiltFrom(p, k) && k.ConfigureKeithley? && SourceAgrees(p, k.smu, told)
    ensures SourceAgrees(P.Advance(p, k), k.smu, told + Effect(StepOf(k), KeithleyKey(k.smu)))
  {
    hide P.Remember, P.RigolAfter, P.ModeAfter, P.Merge, HasField;
    var held := P.Merge(P.Lookup(p.keithley, k.smu), k.config);
    P.BuiltRecordsStateWhatIsHeld(p, k);
    forall f ensures f in k.config.mask.value && f in k.config.values && !P.DecidedElsewhere(k, f) ==>
              ValueOf(held, f) == k.config.values[f]
    {
      if f in k.config.mask.value && !P.DecidedElsewhere(k, f) {
        P.MergeHolds(P.Lookup(p.keithley, k.smu), k, f);
      }
    }
    forall f ensures k.smu in p.keithley && f !in k.config.mask.value && !P.DecidedElsewhere(k, f) ==>
              ValueOf(held, f) == ValueOf(p.keithley[k.smu], f)
    {
      UnnamedIsKept(P.Lookup(p.keithley, k.smu), k, f);
    }
  }

  lemma UnnamedIsKept(previous: Option<Config>, k: Kind, f: Field)
    requires k.ConfigureKeithley? && k.config.mask.Some?
    requires ValueOf(k.config, Mode) == ValueOf(P.Merge(previous, k.config), Mode)
    ensures previous.Some? && f !in k.config.mask.value && !P.DecidedElsewhere(k, f) ==>
              ValueOf(P.Merge(previous, k.config), f) == ValueOf(previous.value, f)
  {
    if previous.Some? && f !in k.config.mask.value {
      hide Overlay, P.Cleared;
      var laid := Overlay(previous.value.values, k.config);
      OverlayKeeps(previous.value.values, k.config, f);
      ClearedKeeps(laid, Mode);
      if !P.DecidedElsewhere(k, f) && P.Lookup(laid, Mode) == Some(MEASURE_ONLY) {
        ClearedKeeps(laid, f);
      }
    }
  }

  lemma ClearedKeeps(m: map<Field, Value>, f: Field)
    requires !f.LevelSi? && !f.ComplianceSi? && !f.SourceRangeSi? && !f.SourceAutorange?
    ensures P.Lookup(m + P.Cleared(), f) == P.Lookup(m, f)
  {
  }

  lemma OverlayKeeps(base: map<Field, Value>, patch: Config, f: Field)
    requires patch.mask.Some? && f !in patch.mask.value
    ensures P.Lookup(Overlay(base, patch), f) == P.Lookup(base, f)
  {
  }

  /** A live update of a source, told and planned. */
  lemma SourceChanged(p: P.Planned, q: P.Planned, s: Smu, told: map<Field, Value>, f: Field, v: Value)
    requires SourceAgrees(p, s, told) && (f.LevelSi? || f.ComplianceSi?)
    requires P.Lookup(q.keithley, s) == P.Lookup(P.Changed(p.keithley, s, map[f := v]), s)
    ensures SourceAgrees(q, s, told + map[f := v])
  {
  }

  lemma SourceUpdated(p: P.Planned, s: Smu, told: map<Field, Value>, k: Kind)
    requires SourceAgrees(p, s, told) && !SetsUpSource(k, s)
    ensures SourceAgrees(P.Advance(p, k), s, told + Effect(StepOf(k), KeithleyKey(s)))
  {
    hide P.Remember, P.RigolAfter, P.ModeAfter, P.Merge, SourceAgrees;
    if k.UpdateKeithleyLevel? && k.smu == s {
      SourceChanged(p, P.Advance(p, k), s, told, LevelSi, k.level);
    } else if k.UpdateKeithleyCompliance? && k.smu == s {
      SourceChanged(p, P.Advance(p, k), s, told, ComplianceSi, k.compliance);
    } else {
      UpdatesNoSource(p, s, k);
      assert told + map[] == told;
      SameSource(p, P.Advance(p, k), s, told);
    }
  }

  lemma UpdatesNoSource(p: P.Planned, s: Smu, k: Kind)
    requires !SetsUpSource(k, s) && !((k.UpdateKeithleyLevel? || k.UpdateKeithleyCompliance?) && k.smu == s)
    ensures Effect(StepOf(k), KeithleyKey(s)) == map[]
    ensures P.Lookup(P.Advance(p, k).keithley, s) == P.Lookup(p.keithley, s)
  {
    hide P.Remember, P.RigolAfter, P.ModeAfter, P.Merge;
  }

  lemma SameSource(p: P.Planned, q: P.Planned, s: Smu, told: map<Field, Value>)
    requires SourceAgrees(p, s, told) && P.Lookup(p.keithley, s) == P.Lookup(q.keithley, s)
    ensures SourceAgrees(q, s, told)
  {
  }

  lemma SourceStep(p: P.Planned, s: Smu, told: map<Field, Value>, k: Kind)
    requires P.BuiltFrom(p, k) && SourceAgrees(p, s, told)
    ensures SourceAgrees(P.Advance(p, k), s, told + Effect(StepOf(k), KeithleyKey(s)))
  {
    hide P.BuiltFrom, SourceAgrees, P.Advance, StepOf, Effect;
    if SetsUpSource(k, s) {
      SourceConfigured(p, k, told);
    } else {
      SourceUpdated(p, s, told, k);
    }
  }

  lemma {:induction false} SourceAsPlanned(actions: seq<PlanAction>, s: Smu)
    requires P.Built(Kinds(actions))
    ensures SourceAgrees(PlannedBy(actions), s, Told(actions, KeithleyKey(s)))
  {
    hide P.Built, P.BuiltFrom, P.Advance, StepOf, Effect, SourceAgrees;
    if actions == [] {
      NothingTold(KeithleyKey(s));
      NoSourceTold(s);
    } else {
      OneMore(actions, KeithleyKey(s));
      var n := |actions| - 1;
      SourceAsPlanned(actions[..n], s);
      SourceStep(PlannedBy(actions[..n]), s, Told(actions[..n], KeithleyKey(s)), actions[n].kind);
    }
  }

  lemma NoSourceTold(s: Smu)
    ensures SourceAgrees(P.NOTHING_PLANNED, s, map[])
  {
  }

  // ---- Carriers ----

  predicate CarrierAgrees(p: P.Planned, r: RigolChannel, told: map<Field, Value>) {
    r in p.rigol ==> forall f | f in P.CARRIER_BASIS :: f in told && told[f] == ValueOf(p.rigol[r], f)
  }

  lemma CarrierStep(p: P.Planned, r: RigolChannel, told: map<Field, Value>, k: Kind)
    requires P.BuiltFrom(p, k) && CarrierAgrees(p, r, told)
    ensures CarrierAgrees(P.Advance(p, k), r, told + Effect(StepOf(k), RigolKey(r)))
  {
    hide StepOf, Effect, RecordOf, P.Remember, P.KeithleyAfter, P.ModeAfter, P.BuiltSource, P.States, P.AnalyzerPlanned;
    forall f | f in P.CARRIER_BASIS
      ensures P.Lookup(told + Effect(StepOf(k), RigolKey(r)), f) ==
              if Given(k, RigolKey(r), f).Some? then Given(k, RigolKey(r), f) else P.Lookup(told, f)
    {
      EffectIsGiven(p, k, RigolKey(r), f);
      LookupOver(told, Effect(StepOf(k), RigolKey(r)), f);
    }
  }

  lemma {:induction false} CarrierAsPlanned(actions: seq<PlanAction>, r: RigolChannel)
    requires P.Built(Kinds(actions))
    ensures CarrierAgrees(PlannedBy(actions), r, Told(actions, RigolKey(r)))
  {
    hide P.Built, P.BuiltFrom, P.Advance, StepOf, Effect;
    if actions == [] {
      NothingTold(RigolKey(r));
    } else {
      hide CarrierAgrees;
      OneMore(actions, RigolKey(r));
      var n := |actions| - 1;
      CarrierAsPlanned(actions[..n], r);
      CarrierStep(PlannedBy(actions[..n]), r, Told(actions[..n], RigolKey(r)), actions[n].kind);
    }
  }

  // ---- The analyzer ----

  predicate AnalyzerAgrees(p: P.Planned, f: Field, told: map<Field, Value>) {
    P.Spectrum(f) in p.context ==> f in told && told[f] == p.context[P.Spectrum(f)]
  }

  lemma AnalyzerRemembered(context: map<P.Setpoint, Value>, k: Kind, f: Field)
    requires f in P.ANALYZER_BASIS
    ensures P.Lookup(P.Remember(context, k), P.Spectrum(f)) ==
            if k.ConfigureAnritsu? then Some(ValueOf(k.config, f)) else P.Lookup(context, P.Spectrum(f))
  {
    hide ValueOf;
  }

  lemma AnalyzerStep(p: P.Planned, f: Field, told: map<Field, Value>, k: Kind)
    requires P.BuiltFrom(p, k) && f in P.ANALYZER_BASIS && AnalyzerAgrees(p, f, told)
    ensures AnalyzerAgrees(P.Advance(p, k), f, told + Effect(StepOf(k), SpectrumKey))
  {
    hide StepOf, Effect, HasField, RecordOf, P.Remember, P.KeithleyAfter, P.RigolAfter, P.ModeAfter, P.BuiltSource,
         P.States;
    P.BasisIsSpectrum(f);
    EffectIsGiven(p, k, SpectrumKey, f);
    LookupOver(told, Effect(StepOf(k), SpectrumKey), f);
    AnalyzerRemembered(p.context, k, f);
  }

  lemma {:induction false} AnalyzerAsPlanned(actions: seq<PlanAction>, f: Field)
    requires P.Built(Kinds(actions)) && f in P.ANALYZER_BASIS
    ensures AnalyzerAgrees(PlannedBy(actions), f, Told(actions, SpectrumKey))
  {
    hide P.Built, P.BuiltFrom, P.Advance, StepOf, Effect;
    if actions == [] {
      NothingTold(SpectrumKey);
    } else {
      hide AnalyzerAgrees;
      OneMore(actions, SpectrumKey);
      var n := |actions| - 1;
      AnalyzerAsPlanned(actions[..n], f);
      AnalyzerStep(PlannedBy(actions[..n]), f, Told(actions[..n], SpectrumKey), actions[n].kind);
    }
  }

  // ---- The generator ----

  predicate GeneratorAgrees(p: P.Planned, f: Field, told: map<Field, Value>) {
    (f in told <==> P.Generator(f) in p.context) && (f in told ==> told[f] == p.context[P.Generator(f)])
  }

  /** A live update carries a whole record; the settings that it does not give have to repeat what is planned. */
  predicate RepeatsPlanned(p: P.Planned, k: Kind, f: Field) {
    k.UpdateAnritsuSg? && !UpdatesGenerator(k, f) ==>
      P.Generator(f) in p.context && ValueOf(k.config, f) == p.context[P.Generator(f)]
  }

  lemma GeneratorStep(p: P.Planned, f: Field, told: map<Field, Value>, k: Kind)
    requires P.BuiltFrom(p, k) && f in P.GENERATOR_BASIS && GeneratorAgrees(p, f, told)
    ensures GeneratorAgrees(P.Advance(p, k), f, told + Effect(StepOf(k), SgKey)) <==> RepeatsPlanned(p, k, f)
  {
    hide StepOf, Effect, P.Remember, P.KeithleyAfter, P.RigolAfter, P.ModeAfter, P.BuiltFrom;
    EffectIsGiven(p, k, SgKey, f);
    LookupOver(told, Effect(StepOf(k), SgKey), f);
    GeneratorRemembered(p.context, k, f);
  }

  lemma GeneratorRemembered(context: map<P.Setpoint, Value>, k: Kind, f: Field)
    requires f in P.GENERATOR_BASIS
    ensures P.Lookup(P.Remember(context, k), P.Generator(f)) ==
            if k.ConfigureAnritsuSg? || k.UpdateAnritsuSg? then Some(ValueOf(k.config, f)) else P.Lookup(context, P.Generator(f))
  {
    hide ValueOf;
  }

  ghost predicate GeneratorAlwaysAgrees(actions: seq<PlanAction>, f: Field) {
    forall n | 0 <= n <= |actions| :: GeneratorAgrees(PlannedBy(actions[..n]), f, Told(actions[..n], SgKey))
  }

  ghost predicate SnapshotsRepeat(actions: seq<PlanAction>, f: Field) {
    forall i | 0 <= i < |actions| :: RepeatsPlanned(PlannedBy(actions[..i]), actions[i].kind, f)
  }

  lemma AgreesOneMore(actions: seq<PlanAction>, f: Field)
    requires actions != []
    ensures GeneratorAlwaysAgrees(actions, f) <==>
              GeneratorAlwaysAgrees(actions[..|actions| - 1], f) && GeneratorAgrees(PlannedBy(actions), f, Told(actions, SgKey))
  {
    hide GeneratorAgrees, PlannedBy, Told;
    var front := actions[..|actions| - 1];
    assert actions[..|actions|] == actions;
    forall n | 0 <= n <= |front| ensures front[..n] == actions[..n] {
    }
  }

  lemma RepeatsOneMore(actions: seq<PlanAction>, f: Field)
    requires actions != []
    ensures var n := |actions| - 1;
            SnapshotsRepeat(actions, f) <==>
              SnapshotsRepeat(actions[..n], f) && RepeatsPlanned(PlannedBy(actions[..n]), actions[n].kind, f)
  {
    hide RepeatsPlanned, PlannedBy;
    var front := actions[..|actions| - 1];
    forall n | 0 <= n <= |front| ensures front[..n] == actions[..n] {
    }
  }

  /**
   What the generator was told is what is planned for it, however far a run comes, if and only if every live update
   repeats what is planned in the settings that it does not give.
   */
  lemma {:induction false} GeneratorAsPlannedIff(actions: seq<PlanAction>, f: Field)
    requires P.Built(Kinds(actions)) && f in P.GENERATOR_BASIS
    ensures GeneratorAlwaysAgrees(actions, f) <==> SnapshotsRepeat(actions, f)
  {
    hide P.Built, P.BuiltFrom, P.Advance, StepOf, Effect, RepeatsPlanned;
    if actions == [] {
      NothingTold(SgKey);
      assert actions[..0] == [];
    } else {
      hide GeneratorAgrees, SnapshotsRepeat, GeneratorAlwaysAgrees;
      var n := |actions| - 1;
      OneMore(actions, SgKey);
      AgreesOneMore(actions, f);
      RepeatsOneMore(actions, f);
      GeneratorAsPlannedIff(actions[..n], f);
      if GeneratorAlwaysAgrees(actions[..n], f) {
        AlwaysIsAtTheEnd(actions[..n], f);
        GeneratorStep(PlannedBy(actions[..n]), f, Told(actions[..n], SgKey), actions[n].kind);
      }
    }
  }

  lemma AlwaysIsAtTheEnd(actions: seq<PlanAction>, f: Field)
    requires GeneratorAlwaysAgrees(actions, f)
    ensures GeneratorAgrees(PlannedBy(actions), f, Told(actions, SgKey))
  {
    assert actions[..|actions|] == actions;
  }

  // ---- What checkpoints state ----

  /** The level of a driven source that a checkpoint states is the planned one. */
  predicate LevelStated(p: P.Planned, s: Smu) {
    s in p.keithley && Sources(ValueOf(p.keithley[s], Mode)) ==>
      var setpoint := P.SourceLevel(s, ValueOf(p.keithley[s], Mode));
      setpoint in p.context && p.context[setpoint] == ValueOf(p.keithley[s], LevelSi)
  }

  /** A level update of a driven source is for the quantity that it drives, or repeats the level. */
  predicate UpdatesItsMode(p: P.Planned, s: Smu, k: Kind) {
    k.UpdateKeithleyLevel? && k.smu == s && s in p.keithley && Sources(ValueOf(p.keithley[s], Mode)) ==>
      k.mode == ValueOf(p.keithley[s], Mode) || k.level == ValueOf(p.keithley[s], LevelSi)
  }

  lemma LevelConfigured(p: P.Planned, s: Smu, k: Kind)
    requires P.BuiltFrom(p, k) && SetsUpSource(k, s) && LevelStated(p, s)
    ensures LevelStated(P.Advance(p, k), s)
  {
    hide P.RigolAfter, P.ModeAfter, P.Merge, RecordOf, P.BuiltSource;
    P.BuiltRecordsStateWhatIsHeld(p, k);
  }

  lemma LevelStep(p: P.Planned, s: Smu, k: Kind)
    requires P.BuiltFrom(p, k) && LevelStated(p, s)
    ensures LevelStated(P.Advance(p, k), s) <==> UpdatesItsMode(p, s, k)
  {
    hide P.BuiltFrom, P.RigolAfter, P.ModeAfter, P.Merge;
    if SetsUpSource(k, s) {
      hide LevelStated, P.Advance;
      LevelConfigured(p, s, k);
    }
  }

  ghost predicate LevelAlwaysStated(kinds: seq<Kind>, s: Smu) {
    forall n | 0 <= n <= |kinds| :: LevelStated(P.Replayed(kinds[..n]), s)
  }

  ghost predicate UpdatesTheirMode(kinds: seq<Kind>, s: Smu) {
    forall i | 0 <= i < |kinds| :: UpdatesItsMode(P.Replayed(kinds[..i]), s, kinds[i])
  }

  lemma StatedOneMore(kinds: seq<Kind>, s: Smu)
    requires kinds != []
    ensures LevelAlwaysStated(kinds, s) <==> LevelAlwaysStated(kinds[..|kinds| - 1], s) && LevelStated(P.Replayed(kinds), s)
  {
    hide LevelStated, P.Replayed;
    var front := kinds[..|kinds| - 1];
    if LevelAlwaysStated(kinds, s) {
      forall n | 0 <= n <= |front| ensures LevelStated(P.Replayed(front[..n]), s) {
        assert front[..n] == kinds[..n];
      }
      StatedAtTheEnd(kinds, s);
    }
    if LevelAlwaysStated(front, s) && LevelStated(P.Replayed(kinds), s) {
      forall n | 0 <= n <= |kinds| ensures LevelStated(P.Replayed(kinds[..n]), s) {
        assert kinds[..n] == if n == |kinds| then kinds else front[..n];
      }
    }
  }

  lemma UpdatesOneMore(kinds: seq<Kind>, s: Smu)
    requires kinds != []
    ensures var n := |kinds| - 1;
            UpdatesTheirMode(kinds, s) <==>
              UpdatesTheirMode(kinds[..n], s) && UpdatesItsMode(P.Replayed(kinds[..n]), s, kinds[n])
  {
    hide UpdatesItsMode, P.Replayed;
    var front := kinds[..|kinds| - 1];
    forall n | 0 <= n <= |front| ensures front[..n] == kinds[..n] {
    }
  }

  lemma StatedAtTheEnd(kinds: seq<Kind>, s: Smu)
    requires LevelAlwaysStated(kinds, s)
    ensures LevelStated(P.Replayed(kinds), s)
  {
    assert kinds[..|kinds|] == kinds;
  }

  /** Checkpoints state the planned level of a source throughout if and only if its level updates are for its mode. */
  lemma {:induction false} LevelStatedIff(kinds: seq<Kind>, s: Smu)
    requires P.Built(kinds)
    ensures LevelAlwaysStated(kinds, s) <==> UpdatesTheirMode(kinds, s)
  {
    hide P.Built, P.BuiltFrom, P.Advance, UpdatesItsMode;
    if kinds == [] {
      assert kinds[..0] == [];
    } else {
      hide LevelStated, LevelAlwaysStated, UpdatesTheirMode;
      var n := |kinds| - 1;
      P.BuiltFront(kinds);
      StatedOneMore(kinds, s);
      UpdatesOneMore(kinds, s);
      LevelStatedIff(kinds[..n], s);
      if LevelAlwaysStated(kinds[..n], s) {
        StatedAtTheEnd(kinds[..n], s);
        LevelStep(P.Replayed(kinds[..n]), s, kinds[n]);
      }
    }
  }

  predicate StatesCarrier(p: P.Planned, r: RigolChannel, f: Field) {
    r in p.rigol ==> P.Carrier(r, f) in p.context && p.context[P.Carrier(r, f)] == ValueOf(p.rigol[r], f)
  }

  lemma CarrierStatedStep(p: P.Planned, k: Kind, r: RigolChannel, f: Field)
    requires (f.FrequencyHz? || f.HighLevelV? || f.LowLevelV?) && StatesCarrier(p, r, f)
    ensures StatesCarrier(P.Advance(p, k), r, f)
  {
    hide P.KeithleyAfter, P.ModeAfter;
  }

  /** What a checkpoint states of a planned carrier is what is planned. */
  lemma {:induction false} CarrierStated(kinds: seq<Kind>, r: RigolChannel, f: Field)
    requires f.FrequencyHz? || f.HighLevelV? || f.LowLevelV?
    ensures StatesCarrier(P.Replayed(kinds), r, f)
  {
    hide P.Advance;
    if kinds != [] {
      var n := |kinds| - 1;
      CarrierStated(kinds[..n], r, f);
      CarrierStatedStep(P.Replayed(kinds[..n]), kinds[n], r, f);
    }
  }

  // ---- The output flow ----

  /** The output is planned as a source: a driven Keithley, a carrier that was set up, a generator in its own mode. */
  predicate SetUpIn(p: P.Planned, e: Endpoint) {
    match e
    case KeithleyOut(s) => s in p.keithley && ValueOf(p.keithley[s], Mode) != MEASURE_ONLY
    case RigolOut(r) => r in p.rigol
    case AnritsuSg => p.mode == Some(P.GeneratorMode)
    case _ => false
  }

  lemma SetUpStep(p: P.Planned, a: PlanAction, e: Endpoint)
    requires P.BuiltFrom(p, a.kind) && (a.faultOnly ==> IsCleanupKind(a.kind))
    ensures SetUpIn(P.Advance(p, a.kind), e) <==>
              F.FlowOf(a) == F.Setup(e, true) || (SetUpIn(p, e) && !F.Unconfigures(F.FlowOf(a), e))
    ensures P.Advance(p, a.kind).mode == Some(P.GeneratorMode) <==>
              F.IsGeneratorSetup(F.FlowOf(a)) || (p.mode == Some(P.GeneratorMode) && !F.FlowOf(a).SelectSpectrum?)
  {
    hide P.Remember, P.Merge;
    if a.kind.ConfigureKeithley? {
      P.BuiltRecordsStateWhatIsHeld(p, a.kind);
    }
  }

  /** The check of the output flow takes an output for set up, and the analyzer for a generator, exactly when it is planned so. */
  lemma {:induction false} FlowAsPlanned(actions: seq<PlanAction>, n: nat, e: Endpoint)
    requires P.Built(Kinds(actions)) && n <= |actions| && forall a | a in actions && a.faultOnly :: IsCleanupKind(a.kind)
    ensures F.ConfiguredAt(F.Flow(actions), n, e) <==> SetUpIn(PlannedBy(actions[..n]), e)
    ensures F.GeneratorModeAt(F.Flow(actions), n) <==> PlannedBy(actions[..n]).mode == Some(P.GeneratorMode)
  {
    hide P.BuiltFrom, P.Advance, F.FlowOf, F.ConfiguredAt, F.GeneratorModeAt, F.Unconfigures;
    if n == 0 {
      NothingSetUp(F.Flow(actions), e);
      assert Kinds(actions[..0]) == [];
    } else {
      hide SetUpIn;
      var m := n - 1;
      FlowAsPlanned(actions, m, e);
      assert Kinds(actions)[..m] == Kinds(actions[..m]) && actions[..n][..m] == actions[..m];
      assert Kinds(actions[..n])[..m] == Kinds(actions[..m]);
      assert P.BuiltFrom(P.Replayed(Kinds(actions)[..m]), Kinds(actions)[m]);
      SetUpStep(PlannedBy(actions[..m]), actions[m], e);
      F.ConfiguredStep(F.Flow(actions), m, e);
      F.GeneratorStep(F.Flow(actions), m);
    }
  }

  lemma NothingSetUp(steps: seq<F.FlowStep>, e: Endpoint)
    ensures !F.ConfiguredAt(steps, 0, e) && !F.GeneratorModeAt(steps, 0) && !SetUpIn(P.NOTHING_PLANNED, e)
  {
  }

  /**
   The rule of the output flow in terms of what is planned before an action: nothing acquires in the generator mode, and
   what drives, moves or asserts an output finds it set up; an assertion finds it switched on, a complete analyzer
   configuration finds the generator not switched on.
   */
  predicate RuleKept(p: P.Planned, a: PlanAction, on: set<Endpoint>) {
    var k := a.kind;
    a.faultOnly
    || (&& ((k.AcquireReference? || k.AcquireSpectrum?) && !k.block.fromFile ==> p.mode != Some(P.GeneratorMode))
        && (k.UpdateKeithleyLevel? || k.UpdateKeithleyCompliance? ==> SetUpIn(p, KeithleyOut(k.smu)))
        && (k.UpdateRigolFrequency? || k.UpdateRigolLevels? ==> SetUpIn(p, RigolOut(k.rigol)))
        && (k.UpdateAnritsuSg? ==> SetUpIn(p, AnritsuSg))
        && (forall e | e in TurnsOn(k) :: SetUpIn(p, e))
        && (k.AssertOutputOn? ==> SetUpIn(p, k.endpoint) && k.endpoint in on)
        && (k.ConfigureAnritsu? && IsCompleteConfiguration(k.config) ==> AnritsuSg !in on))
  }

  /** The check accepts a plan if and only if every action keeps the rule in the state that is planned before it. */
  lemma AllowedAsPlannedIff(actions: seq<PlanAction>, n: nat, on: set<Endpoint>)
    requires P.Built(Kinds(actions)) && n < |actions| && forall a | a in actions && a.faultOnly :: IsCleanupKind(a.kind)
    requires forall e :: e in on <==> F.OnAt(F.Flow(actions), n, e)
    ensures F.AllowedAt(F.Flow(actions), n) <==> RuleKept(PlannedBy(actions[..n]), actions[n], on)
  {
    hide P.Built, P.BuiltFrom, F.ConfiguredAt, F.GeneratorModeAt, F.OnAt, SetUpIn;
    forall e ensures F.ConfiguredAt(F.Flow(actions), n, e) <==> SetUpIn(PlannedBy(actions[..n]), e) {
      FlowAsPlanned(actions, n, e);
    }
    FlowAsPlanned(actions, n, AnritsuSg);
  }

  // ---- What a recovery sends ----

  lemma {:induction false} ConfiguredIsPlanned(actions: seq<PlanAction>, key: Key)
    requires P.Built(Kinds(actions)) && HasBaseline(Steps(actions), |actions|, key)
    ensures key.KeithleyKey? ==> key.smu in PlannedBy(actions).keithley
    ensures key.RigolKey? ==> key.rigol in PlannedBy(actions).rigol
    ensures key.SpectrumKey? ==> forall f | f in P.ANALYZER_BASIS :: P.Spectrum(f) in PlannedBy(actions).context
    ensures key.SgKey? ==> forall f | f in P.GENERATOR_BASIS :: P.Generator(f) in PlannedBy(actions).context
  {
    hide P.Built, P.BuiltFrom, StepOf, Effect, P.Advance;
    var n := |actions| - 1;
    OneMore(actions, key);
    if Configures(StepOf(actions[n].kind), key) {
      ConfigurationPlans(PlannedBy(actions[..n]), actions[n].kind, key);
    } else {
      var j :| 0 <= j < |actions| && Configures(Steps(actions)[j], key);
      assert Steps(actions[..n])[j] == Steps(actions)[j];
      ConfiguredIsPlanned(actions[..n], key);
      PlannedStays(PlannedBy(actions[..n]), actions[n].kind);
    }
  }

  lemma ConfigurationPlans(p: P.Planned, k: Kind, key: Key)
    requires Configures(StepOf(k), key)
    ensures var q := P.Advance(p, k);
            && (key.KeithleyKey? ==> key.smu in q.keithley) && (key.RigolKey? ==> key.rigol in q.rigol)
            && (key.SpectrumKey? ==> forall f | f in P.ANALYZER_BASIS :: P.Spectrum(f) in q.context)
            && (key.SgKey? ==> forall f | f in P.GENERATOR_BASIS :: P.Generator(f) in q.context)
  {
  }

  lemma PlannedStays(p: P.Planned, k: Kind)
    ensures var q := P.Advance(p, k);
            p.keithley.Keys <= q.keithley.Keys && p.rigol.Keys <= q.rigol.Keys && p.context.Keys <= q.context.Keys
  {
  }

  /** The record has the planned value of this setting. */
  predicate RecordAsPlanned(p: P.Planned, key: Key, c: Config, f: Field) {
    && f in c.values && Selected(key, c, f)
    && match key
       case KeithleyKey(s) => s in p.keithley && c.values[f] == ValueOf(p.keithley[s], f)
       case RigolKey(r) => r in p.rigol && c.values[f] == ValueOf(p.rigol[r], f)
       case SpectrumKey => P.Spectrum(f) in p.context && c.values[f] == p.context[P.Spectrum(f)]
       case SgKey => P.Generator(f) in p.context && c.values[f] == p.context[P.Generator(f)]
       case _ => false
  }

  /** The settings that are planned in every record of the class: of a source while it drives, of the generator if updates repeat them. */
  ghost predicate PlannedSetting(actions: seq<PlanAction>, key: Key, f: Field) {
    var p := PlannedBy(actions);
    match key
    case KeithleyKey(s) => (f.LevelSi? || f.ComplianceSi?) && s in p.keithley && Sources(ValueOf(p.keithley[s], Mode))
    case RigolKey(_) => f in P.CARRIER_BASIS
    case SpectrumKey => f in P.ANALYZER_BASIS
    case SgKey => f in P.GENERATOR_BASIS && SnapshotsRepeat(actions, f)
    case _ => false
  }

  lemma ToldAsPlanned(actions: seq<PlanAction>, key: Key, c: Config, f: Field)
    requires P.Built(Kinds(actions)) && HasBaseline(Steps(actions), |actions|, key)
    requires Writes(key, c) == Told(actions, key) && PlannedSetting(actions, key, f)
    ensures RecordAsPlanned(PlannedBy(actions), key, c, f)
  {
    hide P.Built, PlannedBy, Told, SnapshotsRepeat, GeneratorAlwaysAgrees, Selected, HasBaseline;
    ConfiguredIsPlanned(actions, key);
    match key {
      case KeithleyKey(s) => SourceAsPlanned(actions, s);
      case RigolKey(r) => CarrierAsPlanned(actions, r);
      case SpectrumKey => AnalyzerAsPlanned(actions, f);
      case SgKey =>
        GeneratorAsPlannedIff(actions, f);
        AlwaysIsAtTheEnd(actions, f);
      case _ =>
    }
    assert f in Writes(key, c);
  }

  /**
   The compaction of a compiled plan, cut off anywhere, sends what is planned at that point: level and compliance of a
   driven source, the setup of a carrier, the range of the analyzer, and the generator if the updates repeat its settings.
   */
  lemma CompactedIsPlanned(actions: seq<PlanAction>, n: nat, compacted: seq<Step>, i: nat, f: Field)
    requires CompiledFlow(actions) && n <= |actions| && Compacts(Steps(actions[..n]), compacted) && i < |compacted|
    requires compacted[i].Configure? && PlannedSetting(actions[..n], compacted[i].key, f)
    ensures RecordAsPlanned(PlannedBy(actions[..n]), compacted[i].key, compacted[i].config, f)
  {
    hide CompiledFlow, PlannedSetting, RecordAsPlanned, Surviving, Writes, RecordOf, AllMasked, HasBaseline, OnePerKey;
    assert EntryOf(Steps(actions[..n]), compacted[i].key, compacted[i].config);
    assert Steps(actions)[..n] == Steps(actions[..n]) && Kinds(actions)[..n] == Kinds(actions[..n]);
    CompactionLosesNothing(actions, n, compacted[i].key);
    CompiledFlowIsBuilt(actions);
    BuiltPrefix(Kinds(actions), n);
    ToldAsPlanned(actions[..n], compacted[i].key, compacted[i].config, f);
  }

  // ---- When an update does not repeat the planned settings ----

  function Plain(kind: Kind): PlanAction {
    PlanAction("", kind, false, false, None, false)
  }

  function GeneratorRecord(frequency: real, power: real, mask: Option<seq<Field>>): Config {
    Config(map[FrequencyHz := Number(frequency), PowerDbm := Number(power)], mask)
  }

  /** A generator at -20 dBm, and an update of its frequency whose record says -10 dBm. */
  const RESTATED := [
    Plain(ConfigureAnritsuSg(GeneratorRecord(1000000.0, -20.0, None))),
    Plain(SetAnritsuSgOutput(true)),
    Plain(UpdateAnritsuSg(GeneratorRecord(2000000.0, -10.0, Some([FrequencyHz]))))
  ]

  /** The plan is accepted, and states -10 dBm from then on; the generator is left at -20 dBm. */
  lemma RestatedPowerIsNotTold()
    ensures CompiledFlow(RESTATED)
    ensures P.Generator(PowerDbm) in PlannedBy(RESTATED).context
    ensures PlannedBy(RESTATED).context[P.Generator(PowerDbm)] == Number(-10.0)
    ensures PowerDbm in Told(RESTATED, SgKey) && Told(RESTATED, SgKey)[PowerDbm] == Number(-20.0)
  {
    hide CompiledFlow, P.Built, PlannedBy, Told;
    RestatedIsAccepted();
    CompiledFlowIsBuilt(RESTATED);
    assert Given(RESTATED[0].kind, SgKey, PowerDbm) == Some(Number(-20.0));
    LastGivenIsTold(RESTATED, SgKey, PowerDbm, 1);
    OneMore(RESTATED, SgKey);
    GeneratorRemembered(PlannedBy(RESTATED[..2]).context, RESTATED[2].kind, PowerDbm);
  }

  lemma RestatedIsAccepted()
    ensures CompiledFlow(RESTATED)
  {
    hide P.Built;
    assert P.Built(Kinds(RESTATED)) by {
      RestatedIsBuilt();
    }
    var flow := F.Flow(RESTATED);
    assert flow == [F.Setup(AnritsuSg, true), F.Switch(AnritsuSg, true), F.Live(AnritsuSg)];
    assert flow[0] == F.Setup(AnritsuSg, true) && !F.Unconfigures(flow[1], AnritsuSg);
    assert F.AllowedAt(flow, 0) && F.AllowedAt(flow, 1) && F.AllowedAt(flow, 2);
  }

  lemma RestatedIsBuilt()
    ensures P.Built(Kinds(RESTATED))
  {
  }
}
