/**
 Compiled plans at which recovery does not bring everything back, or is refused: one for each condition under which it
 does, each with a run of it in which all instruments answer truly.
 */
module RecoveryLimits {
  import opened Outcomes
  import opened Plan
  import opened Configurations
  import opened Compaction
  import opened Registers
  import opened Snapshots
  import opened CompiledPrelude
  import opened Restoration
  import opened Legs
  import opened Resumption
  import F = OutputFlow
  import P = PlannedState

  function Act(k: Kind): PlanAction {
    PlanAction("node", k, false, false, None, false)
  }

  function PlanOf(kinds: seq<Kind>): (actions: seq<PlanAction>)
    ensures |actions| == |kinds|
  {
    seq(|kinds|, i requires 0 <= i < |kinds| => Act(kinds[i]))
  }

  lemma PlanIsCompiled(autorange: bool, items: seq<P.Item>, kinds: seq<Kind>)
    requires P.Compilation(autorange, items) == Ok(kinds) && F.Allowed(F.Flow(PlanOf(kinds)))
    ensures CompiledFlow(PlanOf(kinds))
  {
    hide P.Built, F.Allowed, F.FlowOf, P.Compilation;
    P.CompilationIsBuilt(autorange, items);
    assert Kinds(PlanOf(kinds)) == kinds;
  }

  /** What the steps of the flow check are, read off the kinds. */
  lemma FlowOfPlan(kinds: seq<Kind>, flow: seq<F.FlowStep>)
    requires |flow| == |kinds| && forall i | 0 <= i < |kinds| :: F.FlowOf(Act(kinds[i])) == flow[i]
    ensures F.Flow(PlanOf(kinds)) == flow
  {
    hide F.FlowOf;
  }

  // ---- Blocks, and instruments that hold what they are told ----

  /** The settings of the plans below. */
  function Sample(f: Field): Value {
    match f
    case Waveform => Text("SIN")
    case FrequencyHz => Number(1000.0)
    case HighLevelV => Number(1.0)
    case LowLevelV => Number(0.0)
    case OutputLoad => Text("HIGHZ")
    case PhaseDeg => Number(0.0)
    case SyncEnabled => Flag(false)
    case SyncDelayS => Number(0.0)
    case StartHz => Number(1000.0)
    case StopHz => Number(2000.0)
    case ReferenceLevelDbm => Number(0.0)
    case Points => Number(101.0)
    case RbwAuto => Flag(true)
    case PreamplifierEnabled => Flag(false)
    case VbwMode => Text("POW")
    case VbwFilterMode => Text("VID")
    case Mode => Text("current")
    case LevelSi => Number(0.001)
    case ComplianceSi => Number(1.0)
    case Nplc => Number(1.0)
    case SettleTimeS => Number(0.1)
    case SenseMode => Text("2wire")
    case SourceAutorange => Flag(true)
    case MeasureVoltageAutorange => Flag(true)
    case MeasureCurrentAutorange => Flag(true)
    case _ => Text("NORM")
  }

  function Block(names: seq<Field>): P.Authored {
    P.Authored(names, map f | f in names :: Sample(f))
  }

  function BlockRecord(key: Key, names: seq<Field>): Config {
    Config(P.Filled(key, Block(names).Given()), Some(names))
  }

  /** Every setting that has a default is named. */
  predicate NamesDefaults(key: Key, names: seq<Field>) {
    forall f | HasField(key, f) && P.Default(f) != Missing :: f in names
  }

  lemma SampleIsStated(f: Field)
    ensures Sample(f) != Missing
  {
  }

  lemma BlockSends(key: Key, names: seq<Field>)
    requires NamesDefaults(key, names)
    ensures forall f | Tells(key, BlockRecord(key, names).values, f) :: f in names
  {
    hide P.Default, Sample;
  }

  lemma BlockFields(key: Key, names: seq<Field>)
    ensures forall f :: f in BlockRecord(key, names).values <==> HasField(key, f)
  {
    hide P.Default, Sample, HasField;
  }

  lemma BlockStates(key: Key, names: seq<Field>, f: Field)
    requires HasField(key, f) && f in names
    ensures ValueOf(BlockRecord(key, names), f) == Sample(f) != Missing
  {
    hide P.Default, Sample, HasField;
    SampleIsStated(f);
  }

  /** A named setting is sent, and written. */
  lemma BlockWrites(key: Key, names: seq<Field>, c: Config, f: Field, r: Register)
    requires c.values == BlockRecord(key, names).values && (c.mask.None? || c.mask == Some(names))
    requires f in names && FieldAt(key, r) == Some(f) && !key.KeithleyKey?
    ensures Written(Configure(key, c), r) == Some(Sample(f))
  {
    hide BlockRecord, Sample, HasField, FieldAt;
    OwnRegister(key, f, r);
    BlockStates(key, names, f);
  }

  lemma BlockCompiles(key: Key, names: seq<Field>, required: seq<Field>)
    requires P.NamesOnly(names, key) && P.NamesAll(names, required) && !key.AdvancedKey?
    ensures P.CompileBlock(key, Block(names), required) == Ok(BlockRecord(key, names)) && RecordOf(BlockRecord(key, names), key)
  {
    hide P.Default, Sample, HasField, P.Filled, RecordOf;
    P.FilledIsRecord(key, Block(names).Given(), Some(names));
    forall f | f in required ensures ValueOf(BlockRecord(key, names), f) != Missing {
      assert f in names;
      BlockStates(key, names, f);
    }
  }

  /** A configuration, answered by an instrument that holds just what it was told. */
  function Echo(key: Key, c: Config): Observed {
    Observed(Configure(key, c), c.values, Silent)
  }

  lemma EchoIsFaithful(initial: map<Register, Value>, before: seq<Step>, key: Key, c: Config)
    requires (Restorable(key) || key.AdvancedKey?) && RecordOf(c, key) && LoadAgrees(initial, before, Configure(key, c))
    requires forall f | Tells(key, c.values, f) :: Sends(key, c, f)
    ensures FaithfulStep(initial, before, Echo(key, c))
  {
    hide RecordOf, LoadAgrees, State;
    assert Complete(key, c.values) by {
      EveryField(key, c);
    }
    forall f | Tells(key, c.values, f)
      ensures c.values[f] == State(initial, before + [Configure(key, c)], RegisterOf(key, f))
    {
      StateStep(initial, before, Configure(key, c), RegisterOf(key, f));
      assert FieldAt(key, RegisterOf(key, f)) == Some(f);
    }
  }

  lemma EveryField(key: Key, c: Config)
    requires RecordOf(c, key)
    ensures Complete(key, c.values)
  {
  }

  /** A step that configures nothing is noted as its action says. */
  function Quiet(k: Kind): Observed {
    Observed(NoEffect, map[],
             if k.SetKeithleyOutput? || k.RampKeithleyToZero? then Publishes(k.smu)
             else if k.Wait? && k.settles.Some? then Settles(k.settles.value, k.durationS)
             else Silent)
  }

  lemma QuietIsFaithful(initial: map<Register, Value>, before: seq<Step>, k: Kind)
    ensures FaithfulStep(initial, before, Quiet(k))
    ensures StepOf(k).NoEffect? ==> StepTaken(Act(k), Quiet(k))
  {
    hide StepOf;
  }

  // ---- A carrier that is configured after its output path ----

  const CARRIER := [Waveform, FrequencyHz, HighLevelV, LowLevelV, OutputLoad, PhaseDeg]
  const PATH := [OutputLoad, Polarity, OutputMode, GatePolarity, SyncEnabled, SyncPolarity, SyncDelayS]

  function CarrierRecord(): Config {
    BlockRecord(RigolKey(Ch1), CARRIER)
  }

  function PathRecord(): Config {
    BlockRecord(RigolOutputKey(Ch1), PATH)
  }

  /** Carrier, output path, carrier again. */
  function CarrierItems(): seq<P.Item> {
    [P.Record(P.CarrierBlock(Ch1, Block(CARRIER)))] + [P.Record(P.OutputPathBlock(Ch1, Block(PATH)))]
    + [P.Record(P.CarrierBlock(Ch1, Block(CARRIER)))]
  }

  function CarrierKinds(): seq<Kind> {
    [ConfigureRigol(Ch1, CarrierRecord())] + [ConfigureRigolOutput(Ch1, PathRecord())] + [ConfigureRigol(Ch1, CarrierRecord())]
  }

  lemma CarrierNames()
    ensures P.NamesOnly(CARRIER, RigolKey(Ch1)) && P.NamesAll(CARRIER, P.CARRIER_BASIS) && NamesDefaults(RigolKey(Ch1), CARRIER)
  {
  }

  lemma PathNames()
    ensures P.NamesOnly(PATH, RigolOutputKey(Ch1)) && NamesDefaults(RigolOutputKey(Ch1), PATH)
  {
  }

  lemma CarrierCompiles(p: P.Planned, autorange: bool)
    ensures P.Compile(p, autorange, P.CarrierBlock(Ch1, Block(CARRIER))) == Ok(ConfigureRigol(Ch1, CarrierRecord()))
    ensures P.Compile(p, autorange, P.OutputPathBlock(Ch1, Block(PATH))) == Ok(ConfigureRigolOutput(Ch1, PathRecord()))
    ensures RecordOf(CarrierRecord(), RigolKey(Ch1)) && RecordOf(PathRecord(), RigolOutputKey(Ch1))
  {
    hide P.CompileBlock, BlockRecord, Block, P.NamesOnly, P.NamesAll, NamesDefaults, CARRIER, PATH, RecordOf;
    CarrierNames();
    PathNames();
    NoneRequired(PATH);
    BlockCompiles(RigolKey(Ch1), CARRIER, P.CARRIER_BASIS);
    BlockCompiles(RigolOutputKey(Ch1), PATH, []);
  }

  lemma NoneRequired(names: seq<Field>)
    ensures P.NamesAll(names, [])
  {
  }

  lemma CarrierPlanIsCompiled()
    ensures CompiledFlow(PlanOf(CarrierKinds()))
  {
    hide P.Compile, P.Compilation, BlockRecord, Block, P.Replayed, F.FlowOf;
    var first, second, third := CarrierItems()[0], CarrierItems()[1], CarrierItems()[2];
    var carrier, path := ConfigureRigol(Ch1, CarrierRecord()), ConfigureRigolOutput(Ch1, PathRecord());
    P.NothingCompiled(false);
    P.CompiledOneMore(false, [], [], first);
    CarrierCompiles(P.Replayed([]), false);
    assert [] + [first] == [first] && [] + [carrier] == [carrier];
    P.CompiledOneMore(false, [first], [carrier], second);
    CarrierCompiles(P.Replayed([carrier]), false);
    P.CompiledOneMore(false, [first] + [second], [carrier] + [path], third);
    CarrierCompiles(P.Replayed([carrier] + [path]), false);
    var e := RigolOut(Ch1);
    CarrierFlow(CarrierRecord(), PathRecord());
    FlowOfPlan(CarrierKinds(), [F.Setup(e, true), F.SilentOff(e), F.Setup(e, true)]);
    PlanIsCompiled(false, CarrierItems(), CarrierKinds());
  }

  lemma CarrierFlow(carrier: Config, path: Config)
    ensures F.FlowOf(Act(ConfigureRigol(Ch1, carrier))) == F.Setup(RigolOut(Ch1), true)
    ensures F.FlowOf(Act(ConfigureRigolOutput(Ch1, path))) == F.SilentOff(RigolOut(Ch1))
    ensures F.Allowed([F.Setup(RigolOut(Ch1), true), F.SilentOff(RigolOut(Ch1)), F.Setup(RigolOut(Ch1), true)])
  {
  }

  lemma BlockIsFaithful(initial: map<Register, Value>, before: seq<Step>, key: Key, names: seq<Field>)
    requires Restorable(key) && RecordOf(BlockRecord(key, names), key) && NamesDefaults(key, names)
    requires LoadAgrees(initial, before, Configure(key, BlockRecord(key, names)))
    ensures FaithfulStep(initial, before, Echo(key, BlockRecord(key, names)))
  {
    hide NamesDefaults, RecordOf, LoadAgrees, FaithfulStep, Tells, P.Filled;
    BlockSends(key, names);
    EchoIsFaithful(initial, before, key, BlockRecord(key, names));
  }

  /** The plan can run with instruments that answer truly. */
  lemma CarrierPlanRuns(initial: map<Register, Value>) returns (run: seq<Observed>)
    ensures CompiledFlow(PlanOf(CarrierKinds())) && Took(PlanOf(CarrierKinds()), run) && Faithful(initial, run)
  {
    hide RecordOf, FaithfulStep, BlockRecord, NamesDefaults, P.NamesOnly, P.NamesAll, CARRIER, PATH, P.Compile,
         CompiledFlow;
    CarrierPlanIsCompiled();
    var carrier, path := RigolKey(Ch1), RigolOutputKey(Ch1);
    run := [Echo(carrier, CarrierRecord()), Echo(path, PathRecord()), Echo(carrier, CarrierRecord())];
    CarrierCompiles(P.NOTHING_PLANNED, false);
    CarrierNames();
    PathNames();
    SameLoad(initial);
    BlockIsFaithful(initial, [], carrier, CARRIER);
    BlockIsFaithful(initial, [run[0].step], path, PATH);
    BlockIsFaithful(initial, [run[0].step, run[1].step], carrier, CARRIER);
    assert StepsOf(run[..0]) == [] && StepsOf(run[..1]) == [run[0].step] && StepsOf(run[..2]) == [run[0].step, run[1].step];
  }

  lemma SameLoad(initial: map<Register, Value>)
    ensures LoadAgrees(initial, [Configure(RigolKey(Ch1), CarrierRecord())], Configure(RigolOutputKey(Ch1), PathRecord()))
  {
    hide Block, P.Filled, Written, State;
    var carrier, load := Configure(RigolKey(Ch1), CarrierRecord()), CarrierReg(Ch1, OutputLoad);
    assert OutputLoad == CARRIER[4] == PATH[0];
    BlockWrites(RigolKey(Ch1), CARRIER, CarrierRecord(), OutputLoad, load);
    BlockWrites(RigolOutputKey(Ch1), PATH, PathRecord(), OutputLoad, load);
    assert [] + [carrier] == [carrier];
    StateStep(initial, [], carrier, load);
  }

  /** No such run can be resumed from its end: recording the carrier has dropped what was recorded of the path. */
  lemma ReconfiguredCarrierRefused(initial: map<Register, Value>, run: seq<Observed>, compacted: seq<Step>)
    requires Took(PlanOf(CarrierKinds()), run) && Faithful(initial, run)
    requires Compacts(Steps(PlanOf(CarrierKinds())), compacted)
    ensures !Sufficient(compacted, Recorded(run))
  {
    hide Faithful, BlockRecord, Recorded, Sufficient, Compacts, CompiledFlow, NoteTaken, RanTo;
    var actions, x := PlanOf(CarrierKinds()), Ch1;
    CarrierPlanIsCompiled();
    assert actions[..3] == actions;
    FirstRun(actions, 3, run);
    RecoveryRefusesIff(initial, actions, 3, run, compacted);
    forall i | 0 <= i < 3 ensures StepsOf(run)[i] == StepOf(actions[i].kind) {
      assert StepTaken(actions[i], run[i]);
    }
    assert Configures(StepsOf(run)[1], RigolOutputKey(x)) && HasBaseline(StepsOf(run), |run|, RigolOutputKey(x));
    assert Configures(StepsOf(run)[2], RigolKey(x)) && !PathStands(StepsOf(run), x);
  }

  // ---- A filter mode that a later basic setup has selected ----

  const SPECTRUM := [StartHz, StopHz, ReferenceLevelDbm, Points]
  const FILTERED := [StartHz, StopHz, ReferenceLevelDbm, Points, VbwMode]
  const ADVANCED := [RbwAuto, Detector, PreamplifierEnabled, VbwFilterMode]

  function SpectrumRecord(): Config {
    BlockRecord(SpectrumKey, SPECTRUM)
  }

  function FilteredRecord(): Config {
    BlockRecord(SpectrumKey, FILTERED)
  }

  function AdvancedRecord(): Config {
    BlockRecord(AdvancedKey, ADVANCED).(mask := None)
  }

  /** The basic setup, the advanced settings with one filter mode, and the basic setup with another. */
  function FilterItems(): seq<P.Item> {
    [P.Record(P.SpectrumBlock(Block(SPECTRUM)))] + [P.Record(P.AdvancedBlock(Block(ADVANCED)))]
    + [P.Record(P.SpectrumBlock(Block(FILTERED)))]
  }

  function FilterKinds(): seq<Kind> {
    [ConfigureAnritsu(SpectrumRecord())] + [ConfigureAnritsuAdvanced(AdvancedRecord())] + [ConfigureAnritsu(FilteredRecord())]
  }

  lemma FilterNames()
    ensures P.NamesOnly(SPECTRUM, SpectrumKey) && P.NamesAll(SPECTRUM, P.ANALYZER_BASIS) && P.NamesAll(P.ANALYZER_SETTINGS, SPECTRUM)
    ensures P.NamesOnly(FILTERED, SpectrumKey) && P.NamesAll(FILTERED, P.ANALYZER_BASIS) && P.NamesAll(P.ANALYZER_SETTINGS, FILTERED)
    ensures P.NamesOnly(ADVANCED, AdvancedKey)
  {
  }

  lemma FilterCompiles(p: P.Planned, autorange: bool)
    ensures P.Compile(p, autorange, P.SpectrumBlock(Block(SPECTRUM))) == Ok(ConfigureAnritsu(SpectrumRecord()))
    ensures P.Compile(p, autorange, P.SpectrumBlock(Block(FILTERED))) == Ok(ConfigureAnritsu(FilteredRecord()))
    ensures P.Compile(p, autorange, P.AdvancedBlock(Block(ADVANCED))) == Ok(ConfigureAnritsuAdvanced(AdvancedRecord()))
    ensures RecordOf(AdvancedRecord(), AdvancedKey)
  {
    hide P.CompileBlock, P.Filled, Sample, P.NamesOnly, P.NamesAll, SPECTRUM, FILTERED, ADVANCED, RecordOf,
         P.ANALYZER_SETTINGS, P.ANALYZER_BASIS;
    FilterNames();
    BlockCompiles(SpectrumKey, SPECTRUM, P.ANALYZER_BASIS);
    BlockCompiles(SpectrumKey, FILTERED, P.ANALYZER_BASIS);
    P.FilledIsRecord(AdvancedKey, Block(ADVANCED).Given(), None);
  }

  lemma FilterMasks()
    ensures FilteredRecord().mask == Some(FILTERED) && AdvancedRecord().mask.None?
    ensures AdvancedRecord().values == BlockRecord(AdvancedKey, ADVANCED).values
  {
    hide FILTERED, ADVANCED, Block, P.Filled;
  }

  lemma FiltersWritten()
    ensures Written(Configure(SpectrumKey, FilteredRecord()), FILTER) == Some(Text("POW"))
    ensures Written(Configure(AdvancedKey, AdvancedRecord()), FILTER) == Some(Text("VID"))
  {
    hide BlockRecord, Written;
    assert VbwMode == FILTERED[4] && VbwFilterMode == ADVANCED[3];
    FilterMasks();
    BlockWrites(SpectrumKey, FILTERED, FilteredRecord(), VbwMode, FILTER);
    BlockWrites(AdvancedKey, ADVANCED, AdvancedRecord(), VbwFilterMode, FILTER);
  }

  lemma FilterPlanIsCompiled()
    ensures CompiledFlow(PlanOf(FilterKinds()))
  {
    hide P.Compile, P.Compilation, BlockRecord, Block, P.Replayed, F.FlowOf;
    var first, second, third := FilterItems()[0], FilterItems()[1], FilterItems()[2];
    var spectrum, advanced := ConfigureAnritsu(SpectrumRecord()), ConfigureAnritsuAdvanced(AdvancedRecord());
    P.NothingCompiled(false);
    P.CompiledOneMore(false, [], [], first);
    FilterCompiles(P.Replayed([]), false);
    assert [] + [first] == [first] && [] + [spectrum] == [spectrum];
    P.CompiledOneMore(false, [first], [spectrum], second);
    FilterCompiles(P.Replayed([spectrum]), false);
    P.CompiledOneMore(false, [first] + [second], [spectrum] + [advanced], third);
    FilterCompiles(P.Replayed([spectrum] + [advanced]), false);
    FilterFlow();
    FlowOfPlan(FilterKinds(), [F.SelectSpectrum, F.Neutral, F.SelectSpectrum]);
    PlanIsCompiled(false, FilterItems(), FilterKinds());
  }

  lemma FilterFlow()
    ensures F.FlowOf(Act(ConfigureAnritsu(SpectrumRecord()))) == F.SelectSpectrum
    ensures F.FlowOf(Act(ConfigureAnritsu(FilteredRecord()))) == F.SelectSpectrum
    ensures F.FlowOf(Act(ConfigureAnritsuAdvanced(AdvancedRecord()))) == F.Neutral
    ensures F.Allowed([F.SelectSpectrum, F.Neutral, F.SelectSpectrum])
  {
    hide Block, P.Filled;
    assert SPECTRUM[0] == FILTERED[0] == StartHz && SPECTRUM[1] == FILTERED[1] == StopHz;
    assert SPECTRUM[2] == FILTERED[2] == ReferenceLevelDbm && SPECTRUM[3] == FILTERED[3] == Points;
  }

  lemma FilterPlanRuns(initial: map<Register, Value>) returns (run: seq<Observed>)
    ensures CompiledFlow(PlanOf(FilterKinds())) && Took(PlanOf(FilterKinds()), run) && Faithful(initial, run)
  {
    hide RecordOf, BlockRecord, Complete, True, Tells, CompiledFlow;
    FilterPlanIsCompiled();
    run := [Observed(Configure(SpectrumKey, SpectrumRecord()), map[], Silent), Echo(AdvancedKey, AdvancedRecord()),
            Observed(Configure(SpectrumKey, FilteredRecord()), map[], Silent)];
    FilterCompiles(P.NOTHING_PLANNED, false);
    AdvancedIsSent();
    EchoIsFaithful(initial, [run[0].step], AdvancedKey, AdvancedRecord());
    assert StepsOf(run[..1]) == [run[0].step];
  }

  lemma AdvancedIsSent()
    ensures forall f | Tells(AdvancedKey, AdvancedRecord().values, f) :: Sends(AdvancedKey, AdvancedRecord(), f)
  {
    hide BlockRecord;
  }

  /** The prelude of such a run brings back the filter mode that was read with the advanced settings, not the one selected since. */
  lemma SelectedFilterIsStale(initial: map<Register, Value>, run: seq<Observed>, compacted: seq<Step>, prelude: seq<Step>)
    requires Took(PlanOf(FilterKinds()), run) && Faithful(initial, run)
    requires Compacts(Steps(PlanOf(FilterKinds())), compacted) && IsPrelude(compacted, Recorded(run), prelude)
    ensures Held(prelude, FILTER) == Some(Text("VID")) && State(initial, StepsOf(run), FILTER) == Text("POW")
    ensures Held(prelude, FILTER) != Some(State(initial, StepsOf(run), FILTER))
  {
    hide Faithful, BlockRecord, AnalyzerRecord, Compacts, IsPrelude, NoteTaken, Held, State, Written, RecordOf,
         Recorded, Tells;
    var actions := PlanOf(FilterKinds());
    forall i | 0 <= i < 3 ensures run[i].step == StepOf(actions[i].kind) {
      assert StepTaken(actions[i], run[i]);
    }
    FiltersWritten();
    var steps := StepsOf(run);
    assert steps == [steps[0], steps[1]] + [steps[2]];
    StateStep(initial, [steps[0], steps[1]], steps[2], FILTER);
    AdvancedIsRecorded(run);
    CompactedBaseline(Steps(actions), compacted, SpectrumKey);
    assert Configures(Steps(actions)[0], SpectrumKey) && HasBaseline(Steps(actions), |actions|, SpectrumKey);
    FilterIsTheReported(compacted, Recorded(run), prelude);
    AnalyzerRecordFilter(run[1].answer);
    ReadAtOnce(initial, run);
    assert [steps[0], steps[1]] == [steps[0]] + [steps[1]];
    StateStep(initial, [steps[0]], steps[1], FILTER);
  }

  /** The advanced settings are as they were answered, and nothing has been read since. */
  lemma AdvancedIsRecorded(run: seq<Observed>)
    requires |run| == 3 && Configures(run[0].step, SpectrumKey) && Configures(run[1].step, AdvancedKey) && Configures(run[2].step, SpectrumKey)
    ensures Recorded(run).advanced == Some(run[1].answer)
  {
    assert run[..2][..1] == run[..1] && run[..1][..0] == [];
    assert Recorded(run[..2]).advanced == Some(run[1].answer);
  }

  lemma ReadAtOnce(initial: map<Register, Value>, run: seq<Observed>)
    requires |run| == 3 && Faithful(initial, run) && Configures(run[1].step, AdvancedKey) && Tells(AdvancedKey, run[1].answer, VbwFilterMode)
    ensures run[1].answer[VbwFilterMode] == State(initial, [run[0].step] + [run[1].step], FILTER)
  {
    hide State, Tells, LoadAgrees;
    assert StepsOf(run[..1]) == [run[0].step];
    assert FaithfulStep(initial, StepsOf(run[..1]), run[1]);
    AnswerIsTrue(initial, [run[0].step] + [run[1].step], run[1].answer, VbwFilterMode);
  }

  // ---- A settling time that a sweep has noted ----

  const SOURCE :=
    [Mode, LevelSi, ComplianceSi, Nplc, SettleTimeS, SenseMode, SourceAutorange, MeasureVoltageAutorange, MeasureCurrentAutorange]

  const SOURCE_A := KeithleyKey(SmuA)

  function SourceSetup(): Config {
    Config(P.Filled(SOURCE_A, Block(SOURCE).Given()) + P.Decided(true, Text("current")), Some(SOURCE))
  }

  /** A source that settles in 0.1 s and then in 2 s, with a point after each, and is switched off in the end. */
  function SweepKinds(): seq<P.PlainKind> {
    [SetKeithleyOutput(SmuA, true), Wait(0.1, Some(SmuA)), Checkpoint, Wait(2.0, Some(SmuA)), Checkpoint, SetKeithleyOutput(SmuA, false)]
  }

  function SettlingKinds(): seq<Kind> {
    [ConfigureKeithley(SmuA, SourceSetup())] + SweepKinds()
  }

  function SettlingItems(): seq<P.Item> {
    [P.Record(P.SourceBlock(SmuA, Block(SOURCE)))] + Plains(SweepKinds())
  }

  function Plains(kinds: seq<P.PlainKind>): seq<P.Item> {
    seq(|kinds|, i requires 0 <= i < |kinds| => P.Plain(kinds[i]))
  }

  lemma SourceNames()
    ensures P.NamesOnly(SOURCE, SOURCE_A) && NamesDefaults(SOURCE_A, SOURCE) && P.SourceMask(SOURCE) == SOURCE
    ensures Mode in SOURCE && LevelSi in SOURCE && ComplianceSi in SOURCE && SettleTimeS in SOURCE && SourceAutorange in SOURCE
  {
    assert SOURCE[0] == Mode && SOURCE[1] == LevelSi && SOURCE[2] == ComplianceSi && SOURCE[4] == SettleTimeS && SOURCE[6] == SourceAutorange;
  }

  lemma GivenSample(names: seq<Field>, f: Field)
    requires f in names
    ensures P.Setting(Block(names).Given(), f) == Sample(f)
  {
    hide Sample;
  }

  lemma SourceCompiles(p: P.Planned)
    ensures P.Compile(p, true, P.SourceBlock(SmuA, Block(SOURCE))) == Ok(ConfigureKeithley(SmuA, SourceSetup()))
  {
    hide P.NamesOnly, NamesDefaults, P.SourceMask, SOURCE, P.Filled, P.Decided, P.Setting;
    SourceNames();
    GivenSample(SOURCE, Mode);
    GivenSample(SOURCE, LevelSi);
    GivenSample(SOURCE, ComplianceSi);
    GivenSample(SOURCE, SourceAutorange);
  }

  /** Only the range pair is decided by the station. */
  lemma SourceFields()
    ensures forall f :: f in SourceSetup().values <==> HasField(SOURCE_A, f)
    ensures forall f | HasField(SOURCE_A, f) && f != SourceAutorange && f != SourceRangeSi ::
              SourceSetup().values[f] == BlockRecord(SOURCE_A, SOURCE).values[f]
    ensures SourceSetup().values[SourceRangeSi] == Missing
  {
    hide Block, SOURCE, P.Default;
  }

  lemma SourceValues()
    ensures ValueOf(SourceSetup(), Mode) == Text("current") && ValueOf(SourceSetup(), SettleTimeS) == Number(0.1)
  {
    hide SOURCE, BlockRecord, P.Decided, P.Filled;
    SourceNames();
    SourceFields();
    BlockStates(SOURCE_A, SOURCE, Mode);
    BlockStates(SOURCE_A, SOURCE, SettleTimeS);
  }

  lemma SourceIsRecord()
    ensures RecordOf(SourceSetup(), SOURCE_A)
  {
    hide SOURCE, BlockRecord, P.Decided, P.Filled, HasField, NamesDefaults, P.SourceMask, Block;
    SourceNames();
    SourceFields();
  }

  lemma SourceTells(f: Field)
    requires Tells(SOURCE_A, SourceSetup().values, f)
    ensures f in SOURCE
  {
    hide SOURCE, BlockRecord, P.Decided, P.Filled, HasField, NamesDefaults, P.SourceMask, Block, Sample, SourceSetup;
    SourceNames();
    SourceFields();
    SourceValues();
    BlockFields(SOURCE_A, SOURCE);
    BlockSends(SOURCE_A, SOURCE);
    BlockMode();
    if f != SourceAutorange {
      assert Tells(SOURCE_A, BlockRecord(SOURCE_A, SOURCE).values, f);
    }
  }

  lemma BlockMode()
    ensures ValueOf(BlockRecord(SOURCE_A, SOURCE), Mode) == Text("current")
  {
    hide SOURCE, BlockRecord;
    SourceNames();
    BlockStates(SOURCE_A, SOURCE, Mode);
  }

  lemma SourceSends()
    ensures forall f | Tells(SOURCE_A, SourceSetup().values, f) :: Sends(SOURCE_A, SourceSetup(), f)
  {
    hide Tells, SOURCE, P.Filled, P.Decided, Block;
    forall f | Tells(SOURCE_A, SourceSetup().values, f) ensures Sends(SOURCE_A, SourceSetup(), f) {
      SourceTells(f);
    }
  }

  lemma SettleTimeWritten()
    ensures Written(Configure(SOURCE_A, SourceSetup()), SettleRegister(SmuA)) == Some(Number(0.1))
  {
    hide SourceSetup, HasField;
    SourceValues();
    SourceSends();
    SourceHasSettleTime();
  }

  lemma SourceHasSettleTime()
    ensures HasField(SOURCE_A, SettleTimeS)
  {
  }

  /** Actions that need no record are appended as they are. */
  lemma {:induction false} PlainsAreAppended(autorange: bool, items: seq<P.Item>, kinds: seq<Kind>, more: seq<P.PlainKind>)
    requires P.Compilation(autorange, items) == Ok(kinds)
    ensures P.Compilation(autorange, items + Plains(more)) == Ok(kinds + more)
  {
    hide P.Compile, P.Compilation;
    if more == [] {
      assert items + Plains(more) == items && kinds + more == kinds;
    } else {
      var n := |more| - 1;
      PlainsAreAppended(autorange, items, kinds, more[..n]);
      P.CompiledOneMore(autorange, items + Plains(more[..n]), kinds + more[..n], P.Plain(more[n]));
      assert items + Plains(more[..n]) + [P.Plain(more[n])] == items + Plains(more);
      assert kinds + more[..n] + [more[n]] == kinds + more;
    }
  }

  lemma SettlingPlanIsCompiled()
    ensures CompiledFlow(PlanOf(SettlingKinds()))
  {
    hide P.Compile, P.Compilation, SourceSetup, P.Replayed, SweepKinds, Block, SOURCE, F.Allowed;
    SourceCompiles(P.Replayed([]));
    var first := P.Record(P.SourceBlock(SmuA, Block(SOURCE)));
    P.NothingCompiled(true);
    P.CompiledOneMore(true, [], [], first);
    assert [] + [first] == [first] && [] + [ConfigureKeithley(SmuA, SourceSetup())] == [ConfigureKeithley(SmuA, SourceSetup())];
    PlainsAreAppended(true, [first], [ConfigureKeithley(SmuA, SourceSetup())], SweepKinds());
    SettlingFlow();
    PlanIsCompiled(true, SettlingItems(), SettlingKinds());
  }

  function SweepFlow(): seq<F.FlowStep> {
    var e := KeithleyOut(SmuA);
    [F.Setup(e, true), F.Switch(e, true), F.Neutral, F.Neutral, F.Neutral, F.Neutral, F.Switch(e, false)]
  }

  lemma SettlingFlow()
    ensures F.Allowed(F.Flow(PlanOf(SettlingKinds())))
  {
    hide SourceSetup, F.FlowOf, F.Allowed;
    SetupFlow();
    forall i | 0 <= i < 7 ensures F.FlowOf(Act(SettlingKinds()[i])) == SweepFlow()[i] {
      if i > 0 {
        PlainFlow(SweepKinds()[i - 1]);
      }
    }
    FlowOfPlan(SettlingKinds(), SweepFlow());
    SweepIsAllowed();
  }

  lemma SetupFlow()
    ensures F.FlowOf(Act(ConfigureKeithley(SmuA, SourceSetup()))) == F.Setup(KeithleyOut(SmuA), true)
  {
    hide SourceSetup;
    SourceValues();
  }

  lemma PlainFlow(k: Kind)
    requires k.SetKeithleyOutput? || k.Wait? || k.Checkpoint?
    ensures F.FlowOf(Act(k)) == if k.SetKeithleyOutput? then F.Switch(KeithleyOut(k.smu), k.enabled) else F.Neutral
  {
  }

  lemma SweepIsAllowed()
    ensures F.Allowed(SweepFlow())
  {
    var flow, e := SweepFlow(), KeithleyOut(SmuA);
    assert flow[0] == F.Setup(e, true) && F.ConfiguredAt(flow, 1, e);
    forall n | 0 <= n < |flow| ensures F.AllowedAt(flow, n) {
    }
  }

  lemma SettlingPlanRuns(initial: map<Register, Value>) returns (run: seq<Observed>)
    ensures CompiledFlow(PlanOf(SettlingKinds())) && Took(PlanOf(SettlingKinds()), run) && Faithful(initial, run)
  {
    hide RecordOf, FaithfulStep, Tells, Sends, SourceSetup, StepOf, StepTaken, Quiet, CompiledFlow;
    SettlingPlanIsCompiled();
    var sweep := SweepKinds();
    run := [Echo(SOURCE_A, SourceSetup())] + seq(|sweep|, i requires 0 <= i < |sweep| => Quiet(sweep[i]));
    SourceIsRecord();
    SourceSends();
    NoLoad(initial, SOURCE_A, SourceSetup());
    EchoIsFaithful(initial, [], SOURCE_A, SourceSetup());
    SetupTaken();
    assert StepsOf(run[..0]) == [];
    forall i | 0 < i < |run|
      ensures FaithfulStep(initial, StepsOf(run[..i]), run[i]) && StepTaken(PlanOf(SettlingKinds())[i], run[i])
    {
      assert run[i] == Quiet(sweep[i - 1]) && SettlingKinds()[i] == sweep[i - 1];
      SweepIsQuiet(sweep[i - 1]);
      QuietIsFaithful(initial, StepsOf(run[..i]), sweep[i - 1]);
    }
  }

  lemma NoLoad(initial: map<Register, Value>, key: Key, c: Config)
    requires key.KeithleyKey?
    ensures LoadAgrees(initial, [], Configure(key, c))
  {
  }

  lemma SetupTaken()
    ensures StepTaken(Act(ConfigureKeithley(SmuA, SourceSetup())), Echo(SOURCE_A, SourceSetup()))
  {
    hide SourceSetup;
  }

  lemma SweepIsQuiet(k: Kind)
    requires k.SetKeithleyOutput? || k.Wait? || k.Checkpoint?
    ensures StepOf(k).NoEffect?
  {
  }

  /** The prelude of such a run gives the source the 2 s of the last point as its settling time; it was set up with 0.1 s. */
  lemma SweptSettleTimeIsSent(initial: map<Register, Value>, run: seq<Observed>, compacted: seq<Step>, prelude: seq<Step>)
    requires Took(PlanOf(SettlingKinds()), run) && Faithful(initial, run)
    requires Compacts(Steps(PlanOf(SettlingKinds())), compacted) && IsPrelude(compacted, Recorded(run), prelude)
    ensures Held(prelude, SettleRegister(SmuA)) == Some(Number(2.0))
    ensures State(initial, StepsOf(run), SettleRegister(SmuA)) == Number(0.1)
  {
    hide Faithful, SettlingKinds, Recorded, Compacts, IsPrelude, CompiledFlow, Took, StepOf, RanTo, Reported,
         TakenSince;
    var actions := PlanOf(SettlingKinds());
    var n := |actions|;
    SettlingPlanIsCompiled();
    assert actions[..n] == actions;
    FirstRun(actions, n, run);
    SweepIsTaken(initial, run);
    SetupStands(run);
    SettleTimeRestoredIff(initial, actions, n, run, compacted, prelude, SmuA);
  }

  /** The steps of such a run, and what they leave to note. */
  lemma SweepSteps(run: seq<Observed>)
    requires Took(PlanOf(SettlingKinds()), run)
    ensures |run| == 7 && run[0].step == Configure(SOURCE_A, SourceSetup())
    ensures forall i | 0 < i < 7 :: run[i].step.NoEffect?
    ensures run[4].note == Settles(SmuA, 2.0) && run[5].note.Silent? && run[6].note == Publishes(SmuA)
  {
    hide SourceSetup, StepOf, NoteTaken;
    var actions := PlanOf(SettlingKinds());
    assert StepTaken(actions[0], run[0]);
    ConfigureStep(SourceSetup());
    forall i | 0 < i < 7 ensures run[i].step.NoEffect? && NoteTaken(actions[i], run[i].note) {
      assert actions[i].kind == SweepKinds()[i - 1] && StepTaken(actions[i], run[i]);
      SweepIsQuiet(actions[i].kind);
    }
    SweepNotes(run[4].note, run[5].note, run[6].note);
  }

  lemma ConfigureStep(c: Config)
    ensures StepOf(ConfigureKeithley(SmuA, c)) == Configure(SOURCE_A, c)
  {
  }

  lemma SweepNotes(wait: Note, point: Note, off: Note)
    requires NoteTaken(Act(Wait(2.0, Some(SmuA))), wait) && NoteTaken(Act(Checkpoint), point)
    requires NoteTaken(Act(SetKeithleyOutput(SmuA, false)), off)
    ensures wait == Settles(SmuA, 2.0) && point.Silent? && off == Publishes(SmuA)
  {
  }

  /** The settling time that was selected stands to the end. */
  lemma SetupStands(run: seq<Observed>)
    requires Took(PlanOf(SettlingKinds()), run)
    ensures Held(StepsOf(run), SettleRegister(SmuA)) == Some(Number(0.1))
  {
    hide Took, SourceSetup, SettlingKinds;
    SweepSteps(run);
    SettleTimeWritten();
    LastWrite(StepsOf(run), SettleRegister(SmuA), 0);
  }

  /** What the sweep leaves: the time of its last point, taken along when the output was switched off. */
  lemma SweepIsTaken(initial: map<Register, Value>, run: seq<Observed>)
    requires Took(PlanOf(SettlingKinds()), run) && Faithful(initial, run)
    ensures TakenSince(run, SmuA) == Some(2.0)
    ensures Reported(StepsOf(run), Recorded(run), SOURCE_A, SettleTimeS)
  {
    hide Faithful, Took, SettlingKinds, SourceSetup, CompiledFlow, Context, RanTo, SettledSince, StepOf;
    var actions := PlanOf(SettlingKinds());
    SweepSteps(run);
    LatestSettling(run, SmuA, 4);
    SettlingPlanIsCompiled();
    var n := |actions|;
    assert actions[..n] == actions;
    FirstRun(actions, n, run);
    CompiledRunIsRegular(actions, n, run);
    SettlingIsNoted(run, SmuA);
    assert Configures(StepsOf(run)[0], SOURCE_A);
  }
}
