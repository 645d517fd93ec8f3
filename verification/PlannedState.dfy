/**
 The device state that compilation tracks while it expands a recipe: a cursor over the growing list of actions, moved
 forward on demand, with the requests in the list rewritten in place to what the device will then hold. Configuration
 records are made from authored settings and from that state; what every list of such records satisfies is proved here.
 */
module PlannedState {
  import opened Outcomes
  import opened Plan
  import opened Configurations

  datatype AnalyzerMode = SpectrumMode | GeneratorMode

  /** A setpoint that later checkpoints must state. */
  datatype Setpoint =
    | SourceLevel(smu: Smu, mode: Value)
    | Carrier(rigol: RigolChannel, field: Field)
    | Generator(field: Field)
    | Spectrum(field: Field)

  datatype Planned = Planned(
    context: map<Setpoint, Value>, keithley: map<Smu, Config>, rigol: map<RigolChannel, Config>, mode: Option<AnalyzerMode>)

  /** A request laid over the previous one, as the adapter does it; measuring alone clears the source settings. */
  function Merge(previous: Option<Config>, request: Config): Config {
    if previous.None? || request.mask.None? then request.(mask := None)
    else
      var merged := Overlay(previous.value.values, request);
      Config(if Mode in merged && merged[Mode] == MEASURE_ONLY then merged + Cleared() else merged, None)
  }

  function Cleared(): map<Field, Value> {
    map[LevelSi := Number(0.0), ComplianceSi := Number(0.0), SourceRangeSi := Missing, SourceAutorange := Flag(false)]
  }

  function Lookup<K, V>(m: map<K, V>, k: K): Option<V> {
    if k in m then Some(m[k]) else None
  }

  function Remember(context: map<Setpoint, Value>, k: Kind): map<Setpoint, Value> {
    if k.ConfigureKeithley? then RememberSource(context, k.smu, k.config)
    else if k.UpdateKeithleyLevel? then context[SourceLevel(k.smu, k.mode) := k.level]
    else if k.ConfigureRigol? then
      context[Carrier(k.rigol, FrequencyHz) := ValueOf(k.config, FrequencyHz)]
             [Carrier(k.rigol, HighLevelV) := ValueOf(k.config, HighLevelV)]
             [Carrier(k.rigol, LowLevelV) := ValueOf(k.config, LowLevelV)]
    else if k.UpdateRigolFrequency? then context[Carrier(k.rigol, FrequencyHz) := k.frequency]
    else if k.UpdateRigolLevels? then context[Carrier(k.rigol, HighLevelV) := k.high][Carrier(k.rigol, LowLevelV) := k.low]
    else if k.ConfigureAnritsuSg? || k.UpdateAnritsuSg? then
      context[Generator(FrequencyHz) := ValueOf(k.config, FrequencyHz)][Generator(PowerDbm) := ValueOf(k.config, PowerDbm)]
    else if k.ConfigureAnritsu? then
      context[Spectrum(StartHz) := ValueOf(k.config, StartHz)][Spectrum(StopHz) := ValueOf(k.config, StopHz)]
             [Spectrum(ReferenceLevelDbm) := ValueOf(k.config, ReferenceLevelDbm)][Spectrum(Points) := ValueOf(k.config, Points)]
    else context
  }

  function RememberSource(context: map<Setpoint, Value>, smu: Smu, request: Config): map<Setpoint, Value> {
    if Sources(ValueOf(request, Mode)) then context[SourceLevel(smu, ValueOf(request, Mode)) := ValueOf(request, LevelSi)]
    else context
  }

  function KeithleyAfter(keithley: map<Smu, Config>, k: Kind): map<Smu, Config> {
    if k.ConfigureKeithley? then keithley[k.smu := Merge(Lookup(keithley, k.smu), k.config)]
    else if k.UpdateKeithleyLevel? then Changed(keithley, k.smu, map[LevelSi := k.level])
    else if k.UpdateKeithleyCompliance? then Changed(keithley, k.smu, map[ComplianceSi := k.compliance])
    else keithley
  }

  function RigolAfter(rigol: map<RigolChannel, Config>, k: Kind): map<RigolChannel, Config> {
    if k.ConfigureRigol? then rigol[k.rigol := k.config]
    else if k.UpdateRigolFrequency? then Changed(rigol, k.rigol, map[FrequencyHz := k.frequency])
    else if k.UpdateRigolLevels? then Changed(rigol, k.rigol, map[HighLevelV := k.high, LowLevelV := k.low])
    else rigol
  }

  /** A live update changes what is planned for a channel, if anything is. */
  function Changed<C>(planned: map<C, Config>, channel: C, fields: map<Field, Value>): map<C, Config> {
    if channel in planned then planned[channel := planned[channel].(values := planned[channel].values + fields)] else planned
  }

  function ModeAfter(mode: Option<AnalyzerMode>, k: Kind): Option<AnalyzerMode> {
    if k.ConfigureAnritsu? && IsCompleteConfiguration(k.config) then Some(SpectrumMode)
    else if k.ConfigureAnritsuSg? then Some(GeneratorMode)
    else mode
  }

  function Advance(p: Planned, k: Kind): Planned {
    Planned(Remember(p.context, k), KeithleyAfter(p.keithley, k), RigolAfter(p.rigol, k), ModeAfter(p.mode, k))
  }

  const NOTHING_PLANNED := Planned(map[], map[], map[], None)

  /** One fold over the whole list. */
  function Replayed(kinds: seq<Kind>): Planned {
    if kinds == [] then NOTHING_PLANNED else Advance(Replayed(kinds[..|kinds| - 1]), kinds[|kinds| - 1])
  }

  /** A source request, replaced by the merged one under its own mask. */
  function Rewritten(p: Planned, k: Kind): Kind {
    if k.ConfigureKeithley?
    then ConfigureKeithley(k.smu, Merge(Lookup(p.keithley, k.smu), k.config).(mask := k.config.mask))
    else k
  }

  function RewrittenAll(kinds: seq<Kind>): (r: seq<Kind>)
    ensures |r| == |kinds|
  {
    if kinds == [] then []
    else
      var init := kinds[..|kinds| - 1];
      RewrittenAll(init) + [Rewritten(Replayed(init), kinds[|kinds| - 1])]
  }

  // ---- How a configuration record is made ----

  /** The settings that a block or a module row names, in its order. */
  datatype Authored = Authored(names: seq<Field>, values: map<Field, Value>) {
    function Given(): map<Field, Value> {
      map f | f in names :: if f in values then values[f] else Missing
    }
  }

  predicate IsConfiguration(k: Kind) {
    || k.ConfigureRigol? || k.ConfigureRigolOutput? || k.ConfigureKeithley? || k.ConfigureAnritsu?
    || k.ConfigureAnritsuAdvanced? || k.ConfigureAnritsuSg?
  }

  /** The record states a value for each of these fields. */
  predicate States(c: Config, fields: seq<Field>) {
    forall f | f in fields :: ValueOf(c, f) != Missing
  }

  /** An action that no record has to be made for; a live generator update carries a complete record. */
  predicate IsPlain(k: Kind) {
    !IsConfiguration(k) && (k.UpdateAnritsuSg? ==> RecordOf(k.config, SgKey) && States(k.config, GENERATOR_BASIS))
  }

  type PlainKind = k: Kind | IsPlain(k) witness Checkpoint

  /**
   What the expansion makes configuration records from. Blocks stand alone; a module and a patch change a few settings
   of what is planned.
   */
  datatype Node =
    | SourceBlock(smu: Smu, authored: Authored)
    | SourceModule(smu: Smu, mode: Value, authored: Authored)
    | CarrierBlock(rigol: RigolChannel, authored: Authored)
    | OutputPathBlock(rigol: RigolChannel, authored: Authored)
    | SpectrumBlock(authored: Authored)
    | SpectrumPatch(authored: Authored)
    | AdvancedBlock(authored: Authored)
    | GeneratorBlock(authored: Authored)

  predicate NamesOnly(names: seq<Field>, key: Key) {
    forall f | f in names :: HasField(key, f)
  }

  predicate NamesAll(names: seq<Field>, required: seq<Field>) {
    forall f | f in required :: f in names
  }

  /** What a setting is when a block leaves it out. */
  function Default(f: Field): Value {
    match f
    case Nplc => Number(1.0)
    case SettleTimeS => Number(0.0)
    case SenseMode => Text("2wire")
    case MeasureVoltageAutorange => Flag(true)
    case MeasureCurrentAutorange => Flag(true)
    case OutputLoad => Text("HIGHZ")
    case PhaseDeg => Number(0.0)
    case Polarity => Text("NORM")
    case OutputMode => Text("NORM")
    case GatePolarity => Text("NORM")
    case SyncEnabled => Flag(false)
    case SyncPolarity => Text("NORM")
    case SyncDelayS => Number(0.0)
    case Trace => Text("TRAC1")
    case PrepareCurrentBuffer => Flag(false)
    case _ => Missing
  }

  function Filled(key: Key, given: map<Field, Value>): map<Field, Value> {
    map f: Field | HasField(key, f) :: if f in given then given[f] else Default(f)
  }

  function Setting(given: map<Field, Value>, f: Field): Value {
    if f in given then given[f] else Missing
  }

  /** The settings of a source that the station, or measuring alone, decides. */
  function Decided(autorange: bool, mode: Value): map<Field, Value> {
    if mode == MEASURE_ONLY then Cleared()
    else if autorange then map[SourceAutorange := Flag(true), SourceRangeSi := Missing]
    else map[SourceAutorange := Flag(false)]
  }

  /** A complete source request. A source needs a level and a compliance; its autorange is a matter of the station. */
  function SourceRecord(smu: Smu, autorange: bool, given: map<Field, Value>): Result<map<Field, Value>> {
    var mode := Setting(given, Mode);
    if !Sources(mode) && mode != MEASURE_ONLY then Err(ConfigurationError)
    else if Setting(given, SourceAutorange) != Missing
            && Setting(given, SourceAutorange) != Flag(autorange && mode != MEASURE_ONLY) then Err(SafetyViolation)
    else if Sources(mode) && (Setting(given, LevelSi) == Missing || Setting(given, ComplianceSi) == Missing)
    then Err(ConfigurationError)
    else Ok(Filled(KeithleyKey(smu), given) + Decided(autorange, mode))
  }

  /** A fixed range also selects the range mode. */
  function SourceMask(names: seq<Field>): seq<Field> {
    if SourceRangeSi in names && SourceAutorange !in names then names + [SourceAutorange] else names
  }

  const CARRIER_BASIS := [Waveform, FrequencyHz, HighLevelV, LowLevelV]
  const ANALYZER_BASIS := [StartHz, StopHz, ReferenceLevelDbm, Points]
  const GENERATOR_BASIS := [FrequencyHz, PowerDbm]
  const ANALYZER_SETTINGS := [StartHz, StopHz, ReferenceLevelDbm, Points, VbwMode]

  /** The four planned settings of the analyzer, if all of them are known. */
  predicate AnalyzerPlanned(p: Planned) {
    forall f | f in ANALYZER_BASIS :: Spectrum(f) in p.context
  }

  function PlannedAnalyzer(p: Planned): map<Field, Value>
    requires AnalyzerPlanned(p)
  {
    map f | f in ANALYZER_BASIS :: p.context[Spectrum(f)]
  }

  /** A module row names no mode, and measuring alone leaves it nothing to say about the source. */
  predicate ModuleNames(names: seq<Field>, mode: Value) {
    && names != [] && Mode !in names
    && (mode == MEASURE_ONLY ==> LevelSi !in names && ComplianceSi !in names)
  }

  function CompileSource(smu: Smu, autorange: bool, given: map<Field, Value>, mask: seq<Field>): Result<Kind> {
    match SourceRecord(smu, autorange, given)
    case Err(e) => Err(e)
    case Ok(values) => if NamesOnly(mask, KeithleyKey(smu)) then Ok(ConfigureKeithley(smu, Config(values, Some(mask))))
                       else Err(ConfigurationError)
  }

  /** A block that names every required setting with a value. */
  function CompileBlock(key: Key, a: Authored, required: seq<Field>): Result<Config> {
    var c := Config(Filled(key, a.Given()), Some(a.names));
    if NamesOnly(a.names, key) && NamesAll(a.names, required) && States(c, required) then Ok(c) else Err(ConfigurationError)
  }

  /** The action that a node becomes in the planned state, or the refusal. */
  function Compile(p: Planned, autorange: bool, node: Node): Result<Kind> {
    match node
    case SourceBlock(s, a) =>
      if Mode in a.names then CompileSource(s, autorange, a.Given(), SourceMask(a.names)) else Err(ConfigurationError)
    case SourceModule(s, mode, a) =>
      if s in p.keithley && ValueOf(p.keithley[s], Mode) == mode && ModuleNames(a.names, mode)
      then CompileSource(s, autorange, p.keithley[s].values + a.Given(), a.names) else Err(ConfigurationError)
    case CarrierBlock(r, a) => Configured(CompileBlock(RigolKey(r), a, CARRIER_BASIS), RigolKey(r))
    case OutputPathBlock(r, a) => Configured(CompileBlock(RigolOutputKey(r), a, []), RigolOutputKey(r))
    case SpectrumBlock(a) =>
      if NamesAll(ANALYZER_SETTINGS, a.names) then Configured(CompileBlock(SpectrumKey, a, ANALYZER_BASIS), SpectrumKey)
      else Err(ConfigurationError)
    case SpectrumPatch(a) =>
      if AnalyzerPlanned(p) && NamesAll(ANALYZER_BASIS, a.names) && a.names != [] then
        var c := Config(Filled(SpectrumKey, PlannedAnalyzer(p) + a.Given()), Some(a.names));
        if States(c, a.names) then Ok(ConfigureAnritsu(c)) else Err(ConfigurationError)
      else Err(ConfigurationError)
    case AdvancedBlock(a) =>
      if NamesOnly(a.names, AdvancedKey)
      then Ok(ConfigureAnritsuAdvanced(Config(Filled(AdvancedKey, a.Given()), None))) else Err(ConfigurationError)
    case GeneratorBlock(a) =>
      match CompileBlock(SgKey, a, GENERATOR_BASIS)
      case Err(e) => Err(e)
      case Ok(c) => Ok(ConfigureAnritsuSg(c.(mask := None)))
  }

  function Configured(c: Result<Config>, key: Key): Result<Kind>
    requires key.RigolKey? || key.RigolOutputKey? || key.SpectrumKey?
  {
    match c
    case Err(e) => Err(e)
    case Ok(config) =>
      match key
      case RigolKey(r) => Ok(ConfigureRigol(r, config))
      case RigolOutputKey(r) => Ok(ConfigureRigolOutput(r, config))
      case SpectrumKey => Ok(ConfigureAnritsu(config))
  }

  // ---- What every record satisfies ----

  /**
   A source request is a setup of its own, and then names level and compliance with a source mode; or it changes what
   is planned, and then keeps the mode and repeats every setting of the source that it does not name.
   */
  predicate BuiltSource(planned: Option<Config>, c: Config)
    requires c.mask.Some?
  {
    var mode := ValueOf(c, Mode);
    && (Sources(mode) || mode == MEASURE_ONLY)
    && if Mode in c.mask.value then Sources(mode) ==> LevelSi in c.mask.value && ComplianceSi in c.mask.value
       else planned.Some? && ValueOf(planned.value, Mode) == mode && (Sources(mode) ==> Repeats(planned.value, c))
  }

  /** The range pair apart, which the station decides. */
  predicate Repeats(planned: Config, c: Config)
    requires c.mask.Some?
  {
    forall f | f !in c.mask.value && f != SourceRangeSi && f != SourceAutorange :: ValueOf(c, f) == ValueOf(planned, f)
  }

  predicate BuiltFrom(p: Planned, k: Kind) {
    if k.ConfigureKeithley? then
      RecordOf(k.config, KeithleyKey(k.smu)) && k.config.mask.Some? && BuiltSource(Lookup(p.keithley, k.smu), k.config)
    else if k.ConfigureRigol? then
      RecordOf(k.config, RigolKey(k.rigol)) && k.config.mask.Some? && NamesAll(k.config.mask.value, CARRIER_BASIS)
    else if k.ConfigureRigolOutput? then RecordOf(k.config, RigolOutputKey(k.rigol)) && k.config.mask.Some?
    else if k.ConfigureAnritsu? then
      && RecordOf(k.config, SpectrumKey) && k.config.mask.Some? && NamesAll(ANALYZER_SETTINGS, k.config.mask.value)
      && (NamesAll(k.config.mask.value, ANALYZER_BASIS) || AnalyzerPlanned(p))
      && (forall f | f in ANALYZER_BASIS && f in k.config.mask.value :: ValueOf(k.config, f) != Missing)
      && forall f | f in ANALYZER_BASIS && f !in k.config.mask.value ::
           Spectrum(f) in p.context && ValueOf(k.config, f) == p.context[Spectrum(f)]
    else if k.ConfigureAnritsuAdvanced? then RecordOf(k.config, AdvancedKey)
    else if k.ConfigureAnritsuSg? then RecordOf(k.config, SgKey) && k.config.mask.None? && States(k.config, GENERATOR_BASIS)
    else k.UpdateAnritsuSg? ==> RecordOf(k.config, SgKey) && States(k.config, GENERATOR_BASIS)
  }

  /** Every record of the list was made from the state planned before it. */
  predicate Built(kinds: seq<Kind>) {
    forall i | 0 <= i < |kinds| :: BuiltFrom(Replayed(kinds[..i]), kinds[i])
  }

  predicate CompleteSources(keithley: map<Smu, Config>) {
    forall s | s in keithley :: RecordOf(keithley[s], KeithleyKey(s)) && keithley[s].mask.None?
  }

  lemma FilledIsRecord(key: Key, given: map<Field, Value>, mask: Option<seq<Field>>)
    requires mask.Some? ==> NamesOnly(mask.value, key) && !key.AdvancedKey?
    ensures RecordOf(Config(Filled(key, given), mask), key)
  {
  }

  lemma CompiledSourceIsBuilt(p: Planned, smu: Smu, autorange: bool, given: map<Field, Value>, mask: seq<Field>)
    requires CompileSource(smu, autorange, given, mask).Ok?
    requires Mode in mask ==> forall f | f in given :: f in mask
    requires Mode !in mask ==> smu in p.keithley && GivenIsPlanned(smu, p.keithley[smu], given, mask)
    ensures BuiltFrom(p, CompileSource(smu, autorange, given, mask).value)
  {
    hide SourceRecord, RecordOf, BuiltSource, GivenIsPlanned;
    SourceIsBuilt(Lookup(p.keithley, smu), smu, autorange, given, mask);
  }

  /** What a module does not name, it is given as planned. */
  predicate GivenIsPlanned(smu: Smu, planned: Config, given: map<Field, Value>, mask: seq<Field>) {
    && RecordOf(planned, KeithleyKey(smu)) && Setting(given, Mode) == ValueOf(planned, Mode)
    && forall f | HasField(KeithleyKey(smu), f) && f !in mask :: f in given && given[f] == ValueOf(planned, f)
  }

  lemma SourceIsBuilt(planned: Option<Config>, smu: Smu, autorange: bool, given: map<Field, Value>, mask: seq<Field>)
    requires SourceRecord(smu, autorange, given).Ok? && NamesOnly(mask, KeithleyKey(smu))
    requires Mode in mask ==> forall f | f in given :: f in mask
    requires Mode !in mask ==> planned.Some? && GivenIsPlanned(smu, planned.value, given, mask)
    ensures var c := Config(SourceRecord(smu, autorange, given).value, Some(mask));
            RecordOf(c, KeithleyKey(smu)) && BuiltSource(planned, c)
  {
    hide SourceRecord, HasField, Sources, BuiltSource, RecordOf, NamesOnly;
    var c := Config(SourceRecord(smu, autorange, given).value, Some(mask));
    SourceRecordValues(smu, autorange, given);
    ValuesAreRecord(smu, c.values, mask);
    if Mode in mask {
      SetsUp(given, planned, c);
    } else {
      Changes(given, smu, planned.value, c);
    }
  }

  lemma ValuesAreRecord(smu: Smu, values: map<Field, Value>, mask: seq<Field>)
    requires (forall f :: f in values <==> HasField(KeithleyKey(smu), f)) && NamesOnly(mask, KeithleyKey(smu))
    ensures RecordOf(Config(values, Some(mask)), KeithleyKey(smu))
  {
    hide HasField;
  }

  /** A request whose mask names every given setting, */
  lemma SetsUp(given: map<Field, Value>, planned: Option<Config>, c: Config)
    requires c.mask.Some? && Mode in c.mask.value && forall f | f in given :: f in c.mask.value
    requires Sources(ValueOf(c, Mode)) || ValueOf(c, Mode) == MEASURE_ONLY
    requires Sources(ValueOf(c, Mode)) ==> LevelSi in given && ComplianceSi in given
    ensures BuiltSource(planned, c)
  {
  }

  /** and one whose other settings are the planned ones. */
  lemma Changes(given: map<Field, Value>, smu: Smu, planned: Config, c: Config)
    requires c.mask.Some? && Mode !in c.mask.value && RecordOf(c, KeithleyKey(smu)) && RecordOf(planned, KeithleyKey(smu))
    requires Sources(ValueOf(c, Mode)) || ValueOf(c, Mode) == MEASURE_ONLY
    requires ValueOf(planned, Mode) == ValueOf(c, Mode)
    requires forall f | HasField(KeithleyKey(smu), f) && f !in c.mask.value :: f in given && given[f] == ValueOf(planned, f)
    requires Sources(ValueOf(c, Mode)) ==>
               forall f | f in c.values && f in given && f != SourceRangeSi && f != SourceAutorange :: c.values[f] == given[f]
    ensures BuiltSource(Some(planned), c)
  {
    hide HasField, Sources;
  }

  /** A source record has every field, and its mode and, but for the range pair, a source's settings are the given ones. */
  lemma SourceRecordValues(smu: Smu, autorange: bool, given: map<Field, Value>)
    requires SourceRecord(smu, autorange, given).Ok?
    ensures var values, mode := SourceRecord(smu, autorange, given).value, Setting(given, Mode);
            && (forall f :: f in values <==> HasField(KeithleyKey(smu), f))
            && (Sources(mode) || mode == MEASURE_ONLY)
            && Mode in values && values[Mode] == mode && Mode in given
            && (Sources(mode) ==> LevelSi in given && ComplianceSi in given)
            && (Sources(mode) ==>
                  forall f | f in values && f in given && f != SourceRangeSi && f != SourceAutorange :: values[f] == given[f])
  {
    assert HasField(KeithleyKey(smu), Mode);
  }

  lemma SourceNodeIsBuilt(p: Planned, autorange: bool, node: Node)
    requires node.SourceBlock? || node.SourceModule?
    requires CompleteSources(p.keithley) && Compile(p, autorange, node).Ok?
    ensures BuiltFrom(p, Compile(p, autorange, node).value)
  {
    hide BuiltFrom, CompileSource;
    match node {
      case SourceBlock(s, a) => CompiledSourceIsBuilt(p, s, autorange, a.Given(), SourceMask(a.names));
      case SourceModule(s, mode, a) => CompiledSourceIsBuilt(p, s, autorange, p.keithley[s].values + a.Given(), a.names);
    }
  }

  lemma BlockIsBuilt(p: Planned, autorange: bool, node: Node)
    requires !node.SourceBlock? && !node.SourceModule? && Compile(p, autorange, node).Ok?
    ensures BuiltFrom(p, Compile(p, autorange, node).value)
  {
    match node {
      case CarrierBlock(r, a) => FilledIsRecord(RigolKey(r), a.Given(), Some(a.names));
      case OutputPathBlock(r, a) => FilledIsRecord(RigolOutputKey(r), a.Given(), Some(a.names));
      case SpectrumBlock(a) => FilledIsRecord(SpectrumKey, a.Given(), Some(a.names));
      case SpectrumPatch(a) => FilledIsRecord(SpectrumKey, PlannedAnalyzer(p) + a.Given(), Some(a.names));
      case AdvancedBlock(a) => FilledIsRecord(AdvancedKey, a.Given(), None);
      case GeneratorBlock(a) => FilledIsRecord(SgKey, a.Given(), None);
    }
  }

  /** Whatever is compiled is built from the state planned before it. */
  lemma CompiledIsBuilt(p: Planned, autorange: bool, node: Node)
    requires CompleteSources(p.keithley) && Compile(p, autorange, node).Ok?
    ensures BuiltFrom(p, Compile(p, autorange, node).value)
  {
    hide Compile, BuiltFrom;
    if node.SourceBlock? || node.SourceModule? {
      SourceNodeIsBuilt(p, autorange, node);
    } else {
      BlockIsBuilt(p, autorange, node);
    }
  }

  // ---- What a record says of the settings that were authored ----

  /** The action that a node is for. */
  predicate Concerns(node: Node, k: Kind) {
    match node
    case SourceBlock(s, _) => k.ConfigureKeithley? && k.smu == s
    case SourceModule(s, _, _) => k.ConfigureKeithley? && k.smu == s
    case CarrierBlock(r, _) => k.ConfigureRigol? && k.rigol == r
    case OutputPathBlock(r, _) => k.ConfigureRigolOutput? && k.rigol == r
    case SpectrumBlock(_) => k.ConfigureAnritsu?
    case SpectrumPatch(_) => k.ConfigureAnritsu?
    case AdvancedBlock(_) => k.ConfigureAnritsuAdvanced?
    case GeneratorBlock(_) => k.ConfigureAnritsuSg?
  }

  /** What the station, or measuring alone, decides about a source. */
  predicate DecidedElsewhere(k: Kind, f: Field) {
    && k.ConfigureKeithley?
    && (f.SourceAutorange? || f.SourceRangeSi? || (ValueOf(k.config, Mode) == MEASURE_ONLY && (f.LevelSi? || f.ComplianceSi?)))
  }

  /**
   The record assigns every setting that was authored, as it was authored, and selects it; and what it selects was
   authored, or is the range mode that an authored range comes with.
   */
  predicate Assigns(node: Node, k: Kind) {
    var a := node.authored;
    && Concerns(node, k) && IsConfiguration(k)
    && (forall f | f in a.names && !DecidedElsewhere(k, f) :: ValueOf(k.config, f) == (if f in a.values then a.values[f] else Missing))
    && (k.config.mask.Some? ==> forall f | f in a.names :: f in k.config.mask.value)
    && (k.config.mask.Some? ==> forall f | f in k.config.mask.value :: f in a.names || (f.SourceAutorange? && SourceRangeSi in a.names))
    && (k.config.mask.Some? && node.SourceBlock? && SourceRangeSi in a.names ==> SourceAutorange in k.config.mask.value)
  }

  /**
   Measuring alone has no level. The range pair of a source is automatic only if the station says so and the source drives,
   and then has no fixed range.
   */
  predicate RangeDecided(autorange: bool, node: Node, k: Kind) {
    k.ConfigureKeithley? ==>
      && ValueOf(k.config, SourceAutorange) == Flag(autorange && ValueOf(k.config, Mode) != MEASURE_ONLY)
      && (autorange || ValueOf(k.config, Mode) == MEASURE_ONLY ==> ValueOf(k.config, SourceRangeSi) == Missing)
      && (ValueOf(k.config, Mode) == MEASURE_ONLY ==>
            ValueOf(k.config, LevelSi) == Number(0.0) && ValueOf(k.config, ComplianceSi) == Number(0.0))
      && (!autorange && ValueOf(k.config, Mode) != MEASURE_ONLY && SourceRangeSi in node.authored.names ==>
            ValueOf(k.config, SourceRangeSi) == Setting(node.authored.values, SourceRangeSi))
  }

  lemma GivenIs(a: Authored, f: Field)
    ensures f in a.Given() <==> f in a.names
    ensures f in a.names ==> a.Given()[f] == if f in a.values then a.values[f] else Missing
  {
  }

  /** A source request holds what it was given, the decided settings aside. */
  lemma SourceHolds(smu: Smu, autorange: bool, given: map<Field, Value>, mask: seq<Field>, f: Field)
    requires CompileSource(smu, autorange, given, mask).Ok? && f in given && HasField(KeithleyKey(smu), f)
    ensures var k := CompileSource(smu, autorange, given, mask).value;
            && k.ConfigureKeithley? && k.smu == smu && k.config.mask == Some(mask)
            && (!DecidedElsewhere(k, f) ==> ValueOf(k.config, f) == given[f])
  {
    assert HasField(KeithleyKey(smu), Mode);
  }

  lemma SourceRanges(smu: Smu, autorange: bool, given: map<Field, Value>, mask: seq<Field>)
    requires CompileSource(smu, autorange, given, mask).Ok?
    ensures var k := CompileSource(smu, autorange, given, mask).value;
            && k.ConfigureKeithley? && k.smu == smu && k.config.mask == Some(mask)
            && ValueOf(k.config, SourceAutorange) == Flag(autorange && ValueOf(k.config, Mode) != MEASURE_ONLY)
            && (autorange || ValueOf(k.config, Mode) == MEASURE_ONLY ==> ValueOf(k.config, SourceRangeSi) == Missing)
            && (ValueOf(k.config, Mode) == MEASURE_ONLY ==>
                  ValueOf(k.config, LevelSi) == Number(0.0) && ValueOf(k.config, ComplianceSi) == Number(0.0))
            && (!autorange && ValueOf(k.config, Mode) != MEASURE_ONLY && SourceRangeSi in given ==>
                  ValueOf(k.config, SourceRangeSi) == given[SourceRangeSi])
  {
    assert HasField(KeithleyKey(smu), Mode) && HasField(KeithleyKey(smu), SourceRangeSi);
  }

  lemma SourceAssigns(p: Planned, autorange: bool, node: Node)
    requires (node.SourceBlock? || node.SourceModule?) && Compile(p, autorange, node).Ok?
    ensures Assigns(node, Compile(p, autorange, node).value) && RangeDecided(autorange, node, Compile(p, autorange, node).value)
  {
    hide SourceRecord, DecidedElsewhere;
    var a, s := node.authored, node.smu;
    var given := if node.SourceBlock? then a.Given() else p.keithley[s].values + a.Given();
    var mask := if node.SourceBlock? then SourceMask(a.names) else a.names;
    assert Compile(p, autorange, node) == CompileSource(s, autorange, given, mask);
    var k := Compile(p, autorange, node).value;
    SourceRanges(s, autorange, given, mask);
    GivenIs(a, SourceRangeSi);
    forall f | f in a.names ensures f in mask && f in given && given[f] == (if f in a.values then a.values[f] else Missing) {
      GivenIs(a, f);
    }
    forall f | f in a.names && !DecidedElsewhere(k, f)
      ensures ValueOf(k.config, f) == (if f in a.values then a.values[f] else Missing)
    {
      SourceHolds(s, autorange, given, mask, f);
    }
  }

  lemma FilledHolds(key: Key, given: map<Field, Value>, mask: Option<seq<Field>>, f: Field)
    requires HasField(key, f) && f in given
    ensures ValueOf(Config(Filled(key, given), mask), f) == given[f]
  {
  }

  lemma BlockAssigns(p: Planned, autorange: bool, node: Node)
    requires !node.SourceBlock? && !node.SourceModule? && Compile(p, autorange, node).Ok?
    ensures Assigns(node, Compile(p, autorange, node).value)
  {
    hide Filled, States, HasField;
    var a, k := node.authored, Compile(p, autorange, node).value;
    forall f | f in a.names ensures ValueOf(k.config, f) == (if f in a.values then a.values[f] else Missing) {
      GivenIs(a, f);
      match node {
        case CarrierBlock(r, _) => FilledHolds(RigolKey(r), a.Given(), Some(a.names), f);
        case OutputPathBlock(r, _) => FilledHolds(RigolOutputKey(r), a.Given(), Some(a.names), f);
        case SpectrumBlock(_) => FilledHolds(SpectrumKey, a.Given(), Some(a.names), f);
        case SpectrumPatch(_) =>
          BasisIsSpectrum(f);
          FilledHolds(SpectrumKey, PlannedAnalyzer(p) + a.Given(), Some(a.names), f);
        case AdvancedBlock(_) => FilledHolds(AdvancedKey, a.Given(), None, f);
        case GeneratorBlock(_) => FilledHolds(SgKey, a.Given(), None, f);
      }
    }
  }

  lemma BasisIsSpectrum(f: Field)
    requires f in ANALYZER_BASIS
    ensures HasField(SpectrumKey, f)
  {
  }

  /** Whatever a node names, the record made from it assigns as it was authored. */
  lemma CompiledAssigns(p: Planned, autorange: bool, node: Node)
    requires Compile(p, autorange, node).Ok?
    ensures Assigns(node, Compile(p, autorange, node).value) && RangeDecided(autorange, node, Compile(p, autorange, node).value)
  {
    hide Compile, Assigns;
    if node.SourceBlock? || node.SourceModule? {
      SourceAssigns(p, autorange, node);
    } else {
      BlockAssigns(p, autorange, node);
      NoSource(p, autorange, node);
    }
  }

  lemma NoSource(p: Planned, autorange: bool, node: Node)
    requires !node.SourceBlock? && !node.SourceModule? && Compile(p, autorange, node).Ok?
    ensures !Compile(p, autorange, node).value.ConfigureKeithley?
  {
    hide CompileBlock, States;
  }

  /** What a setting comes to: as it is authored, or else as it is planned. */
  function Wanted(a: Authored, planned: map<Field, Value>, f: Field): Value {
    if f in a.names then Setting(a.values, f) else Setting(planned, f)
  }

  /** A driven source has a level and a compliance, and nobody asks for another range mode than the station's. */
  predicate SourceComplete(a: Authored, planned: map<Field, Value>, mode: Value, autorange: bool) {
    && (mode == Text("current") || mode == Text("voltage") || mode == Text("measure_only"))
    && (mode != Text("measure_only") ==> Wanted(a, planned, LevelSi) != Missing && Wanted(a, planned, ComplianceSi) != Missing)
    && (var ranging := Wanted(a, planned, SourceAutorange);
        ranging == Missing || ranging == Flag(autorange && mode != Text("measure_only")))
  }

  /** Which settings a node has to name, and which it may not. */
  predicate NamesWhatItMust(p: Planned, node: Node) {
    var names := node.authored.names;
    match node
    case SourceBlock(s, _) => NamesOnly(names, KeithleyKey(s)) && Mode in names
    case SourceModule(s, mode, _) =>
      && NamesOnly(names, KeithleyKey(s)) && names != [] && Mode !in names
      && (mode == MEASURE_ONLY ==> LevelSi !in names && ComplianceSi !in names)
    case CarrierBlock(r, _) => NamesOnly(names, RigolKey(r)) && forall f | f in CARRIER_BASIS :: f in names
    case OutputPathBlock(r, _) => NamesOnly(names, RigolOutputKey(r))
    case SpectrumBlock(_) => forall f :: f in names <==> f in ANALYZER_BASIS || (f.VbwMode? && VbwMode in names)
    case SpectrumPatch(_) => names != [] && forall f | f in names :: f in ANALYZER_BASIS
    case AdvancedBlock(_) => NamesOnly(names, AdvancedKey)
    case GeneratorBlock(_) => NamesOnly(names, SgKey) && FrequencyHz in names && PowerDbm in names
  }

  /** Which values it has to name them with. */
  predicate ValuesAreThere(p: Planned, autorange: bool, node: Node) {
    var a := node.authored;
    match node
    case SourceBlock(s, _) => SourceComplete(a, map[], Setting(a.values, Mode), autorange)
    case SourceModule(s, mode, _) =>
      && s in p.keithley && ValueOf(p.keithley[s], Mode) == mode && SourceComplete(a, p.keithley[s].values, mode, autorange)
    case CarrierBlock(_, _) => forall f | f in CARRIER_BASIS :: Setting(a.values, f) != Missing
    case OutputPathBlock(_, _) => true
    case SpectrumBlock(_) => forall f | f in ANALYZER_BASIS :: Setting(a.values, f) != Missing
    case SpectrumPatch(_) =>
      && (forall f | f in ANALYZER_BASIS :: Spectrum(f) in p.context)
      && forall f | f in a.names :: Setting(a.values, f) != Missing
    case AdvancedBlock(_) => true
    case GeneratorBlock(_) => Setting(a.values, FrequencyHz) != Missing && Setting(a.values, PowerDbm) != Missing
  }

  lemma SourceIff(smu: Smu, a: Authored, planned: map<Field, Value>, autorange: bool, mask: seq<Field>)
    requires Wanted(a, planned, Mode) == Setting(planned + a.Given(), Mode)
    ensures CompileSource(smu, autorange, planned + a.Given(), mask).Ok? <==>
              NamesOnly(mask, KeithleyKey(smu)) && SourceComplete(a, planned, Wanted(a, planned, Mode), autorange)
  {
    hide HasField, Filled, Decided;
    var given := planned + a.Given();
    forall f ensures Setting(given, f) == Wanted(a, planned, f) {
      GivenIs(a, f);
    }
  }

  lemma SourceNodeIff(p: Planned, autorange: bool, node: Node)
    requires node.SourceBlock? || node.SourceModule?
    ensures Compile(p, autorange, node).Ok? <==> NamesWhatItMust(p, node) && ValuesAreThere(p, autorange, node)
  {
    hide HasField, SourceComplete, CompileSource;
    var a, s := node.authored, node.smu;
    GivenIs(a, Mode);
    if node.SourceBlock? {
      assert map[] + a.Given() == a.Given();
      SourceIff(s, a, map[], autorange, SourceMask(a.names));
      MaskIsOfSource(s, a.names);
    } else if s in p.keithley {
      SourceIff(s, a, p.keithley[s].values, autorange, a.names);
    }
  }

  lemma MaskIsOfSource(smu: Smu, names: seq<Field>)
    ensures NamesOnly(SourceMask(names), KeithleyKey(smu)) <==> NamesOnly(names, KeithleyKey(smu))
  {
    forall f | f in names ensures f in SourceMask(names) {
    }
  }

  lemma BlockIff(key: Key, a: Authored, required: seq<Field>)
    requires forall f | f in required :: HasField(key, f)
    ensures CompileBlock(key, a, required).Ok? <==>
              NamesOnly(a.names, key) && NamesAll(a.names, required) && forall f | f in required :: Setting(a.values, f) != Missing
  {
    hide HasField;
    var c := Config(Filled(key, a.Given()), Some(a.names));
    if NamesAll(a.names, required) {
      forall f | f in required ensures ValueOf(c, f) == Setting(a.values, f) {
        GivenIs(a, f);
      }
    }
  }

  lemma BlockNodeIff(p: Planned, autorange: bool, node: Node)
    requires node.CarrierBlock? || node.OutputPathBlock? || node.AdvancedBlock? || node.GeneratorBlock?
    ensures Compile(p, autorange, node).Ok? <==> NamesWhatItMust(p, node) && ValuesAreThere(p, autorange, node)
  {
    hide CompileBlock;
    var a := node.authored;
    match node {
      case CarrierBlock(r, _) => BlockIff(RigolKey(r), a, CARRIER_BASIS);
      case OutputPathBlock(r, _) => BlockIff(RigolOutputKey(r), a, []);
      case AdvancedBlock(_) =>
      case GeneratorBlock(_) => BlockIff(SgKey, a, GENERATOR_BASIS);
    }
  }

  lemma AnalyzerNodeIff(p: Planned, autorange: bool, node: Node)
    requires node.SpectrumBlock? || node.SpectrumPatch?
    ensures Compile(p, autorange, node).Ok? <==> NamesWhatItMust(p, node) && ValuesAreThere(p, autorange, node)
  {
    hide CompileBlock, Filled;
    var a := node.authored;
    if node.SpectrumBlock? {
      BlockIff(SpectrumKey, a, ANALYZER_BASIS);
    } else if AnalyzerPlanned(p) && NamesAll(ANALYZER_BASIS, a.names) {
      var given := PlannedAnalyzer(p) + a.Given();
      forall f | f in a.names ensures ValueOf(Config(Filled(SpectrumKey, given), Some(a.names)), f) == Setting(a.values, f) {
        GivenIs(a, f);
        BasisIsSpectrum(f);
        FilledHolds(SpectrumKey, given, Some(a.names), f);
      }
    }
  }

  /** A node is refused if and only if it names the wrong settings, or a value that it needs is not there. */
  lemma CompiledIff(p: Planned, autorange: bool, node: Node)
    ensures Compile(p, autorange, node).Ok? <==> NamesWhatItMust(p, node) && ValuesAreThere(p, autorange, node)
  {
    hide Compile, NamesWhatItMust, ValuesAreThere;
    if node.SourceBlock? || node.SourceModule? {
      SourceNodeIff(p, autorange, node);
    } else if node.SpectrumBlock? || node.SpectrumPatch? {
      AnalyzerNodeIff(p, autorange, node);
    } else {
      BlockNodeIff(p, autorange, node);
    }
  }

  // ---- The planned state of a built list ----

  lemma MergedIsComplete(smu: Smu, previous: Option<Config>, request: Config)
    requires RecordOf(request, KeithleyKey(smu))
    requires previous.Some? ==> RecordOf(previous.value, KeithleyKey(smu)) && previous.value.mask.None?
    ensures RecordOf(Merge(previous, request), KeithleyKey(smu)) && Merge(previous, request).mask.None?
    ensures RecordOf(Merge(previous, request).(mask := request.mask), KeithleyKey(smu))
  {
  }

  lemma CompleteStep(keithley: map<Smu, Config>, p: Planned, k: Kind)
    requires CompleteSources(keithley) && BuiltFrom(p, k)
    ensures CompleteSources(KeithleyAfter(keithley, k))
  {
    if k.ConfigureKeithley? {
      MergedIsComplete(k.smu, Lookup(keithley, k.smu), k.config);
    }
  }

  lemma BuiltFront(kinds: seq<Kind>)
    requires kinds != [] && Built(kinds)
    ensures Built(kinds[..|kinds| - 1]) && BuiltFrom(Replayed(kinds[..|kinds| - 1]), kinds[|kinds| - 1])
  {
    var init := kinds[..|kinds| - 1];
    forall i | 0 <= i < |init| ensures BuiltFrom(Replayed(init[..i]), init[i]) {
      assert init[..i] == kinds[..i];
    }
  }

  lemma PlainIsBuilt(p: Planned, k: PlainKind)
    ensures BuiltFrom(p, k)
  {
  }

  lemma BuiltOneMore(kinds: seq<Kind>, k: Kind)
    requires Built(kinds) && BuiltFrom(Replayed(kinds), k)
    ensures Built(kinds + [k])
  {
    var longer := kinds + [k];
    forall i | 0 <= i < |longer| ensures BuiltFrom(Replayed(longer[..i]), longer[i]) {
      assert longer[..i] == kinds[..i];
      assert kinds[..|kinds|] == kinds;
    }
  }

  lemma {:induction false} PlannedSourcesComplete(kinds: seq<Kind>)
    requires Built(kinds)
    ensures CompleteSources(Replayed(kinds).keithley)
  {
    if kinds != [] {
      var init := kinds[..|kinds| - 1];
      BuiltFront(kinds);
      PlannedSourcesComplete(init);
      CompleteStep(Replayed(init).keithley, Replayed(init), kinds[|kinds| - 1]);
    }
  }

  /** A source that only measures is planned at zero, whatever was planned before. */
  lemma MeasuringClears(p: Planned, k: Kind)
    requires BuiltFrom(p, k) && k.ConfigureKeithley? && ValueOf(k.config, Mode) == MEASURE_ONLY && k.smu in p.keithley
    ensures var q := Advance(p, k);
            && k.smu in q.keithley && ValueOf(q.keithley[k.smu], LevelSi) == Number(0.0)
            && ValueOf(q.keithley[k.smu], ComplianceSi) == Number(0.0) && ValueOf(q.keithley[k.smu], SourceRangeSi) == Missing
            && ValueOf(q.keithley[k.smu], SourceAutorange) == Flag(false)
  {
    BuiltRecordsStateWhatIsHeld(p, k);
    hide RecordOf, BuiltSource, Overlay;
  }

  /**
   A setup of the analyzer leaves the generator mode, a patch only if it names the whole basis; a setup of the generator
   enters it, and nothing else changes the mode.
   */
  lemma ModeIsSet(p: Planned, autorange: bool, node: Node)
    requires Compile(p, autorange, node).Ok?
    ensures var mode := Advance(p, Compile(p, autorange, node).value).mode;
            if node.GeneratorBlock? then mode == Some(GeneratorMode)
            else if node.SpectrumBlock?
                    || (node.SpectrumPatch? && forall f | f in [StartHz, StopHz, ReferenceLevelDbm, Points] :: f in node.authored.names)
            then mode == Some(SpectrumMode)
            else mode == p.mode
  {
    hide Remember, KeithleyAfter, RigolAfter, Filled, SourceRecord, States;
  }

  /** What a block leaves out has a value of its own, or none. */
  predicate LeftOut(f: Field, v: Value) {
    if f.Nplc? then v == Number(1.0)
    else if f.SettleTimeS? || f.PhaseDeg? || f.SyncDelayS? then v == Number(0.0)
    else if f.SenseMode? then v == Text("2wire")
    else if f.MeasureVoltageAutorange? || f.MeasureCurrentAutorange? then v == Flag(true)
    else if f.OutputLoad? then v == Text("HIGHZ")
    else if f.Polarity? || f.OutputMode? || f.GatePolarity? || f.SyncPolarity? then v == Text("NORM")
    else if f.SyncEnabled? || f.PrepareCurrentBuffer? then v == Flag(false)
    else if f.Trace? then v == Text("TRAC1")
    else v == Missing
  }

  lemma FilledDefault(key: Key, given: map<Field, Value>, mask: Option<seq<Field>>, f: Field)
    requires f in Filled(key, given) && f !in given
    ensures LeftOut(f, ValueOf(Config(Filled(key, given), mask), f))
  {
    hide HasField, LeftOut, Default;
    DefaultIsLeftOut(f);
  }

  lemma DefaultIsLeftOut(f: Field)
    ensures LeftOut(f, Default(f))
  {
  }

  lemma SourceDefault(smu: Smu, autorange: bool, given: map<Field, Value>, mask: seq<Field>, f: Field)
    requires CompileSource(smu, autorange, given, mask).Ok? && f !in given
    requires f in CompileSource(smu, autorange, given, mask).value.config.values
    requires !DecidedElsewhere(CompileSource(smu, autorange, given, mask).value, f)
    ensures LeftOut(f, ValueOf(CompileSource(smu, autorange, given, mask).value.config, f))
  {
    hide HasField, Filled, LeftOut, NamesOnly;
    SourceRecordValues(smu, autorange, given);
    assert f !in Decided(autorange, Setting(given, Mode));
    FilledDefault(KeithleyKey(smu), given, Some(mask), f);
  }

  /** A block fills in what it leaves out, a module and a patch repeat what is planned. */
  lemma LeftOutIsFilledIn(p: Planned, autorange: bool, node: Node, f: Field)
    requires CompleteSources(p.keithley)
    requires Compile(p, autorange, node).Ok? && f in Compile(p, autorange, node).value.config.values
    requires f !in node.authored.names && !DecidedElsewhere(Compile(p, autorange, node).value, f)
    ensures var v := ValueOf(Compile(p, autorange, node).value.config, f);
            && (!node.SourceModule? && !(node.SpectrumPatch? && f in ANALYZER_BASIS) ==> LeftOut(f, v))
            && (node.SourceModule? ==> v == ValueOf(p.keithley[node.smu], f))
            && (node.SpectrumPatch? && f in ANALYZER_BASIS ==> v == p.context[Spectrum(f)])
  {
    hide Filled, SourceRecord, HasField, DecidedElsewhere, LeftOut, States;
    var a := node.authored;
    GivenIs(a, f);
    match node {
      case SourceBlock(s, _) => SourceDefault(s, autorange, a.Given(), SourceMask(a.names), f);
      case SourceModule(s, _, _) =>
        ModuleRepeats(p, s, autorange, a, f);
      case CarrierBlock(r, _) => FilledDefault(RigolKey(r), a.Given(), Some(a.names), f);
      case OutputPathBlock(r, _) => FilledDefault(RigolOutputKey(r), a.Given(), Some(a.names), f);
      case SpectrumBlock(_) => FilledDefault(SpectrumKey, a.Given(), Some(a.names), f);
      case SpectrumPatch(_) =>
        if f in ANALYZER_BASIS {
          BasisIsSpectrum(f);
          FilledHolds(SpectrumKey, PlannedAnalyzer(p) + a.Given(), Some(a.names), f);
        } else {
          FilledDefault(SpectrumKey, PlannedAnalyzer(p) + a.Given(), Some(a.names), f);
        }
      case AdvancedBlock(_) => FilledDefault(AdvancedKey, a.Given(), None, f);
      case GeneratorBlock(_) => FilledDefault(SgKey, a.Given(), None, f);
    }
  }

  lemma ModuleRepeats(p: Planned, s: Smu, autorange: bool, a: Authored, f: Field)
    requires CompleteSources(p.keithley) && s in p.keithley && f !in a.names
    requires CompileSource(s, autorange, p.keithley[s].values + a.Given(), a.names).Ok?
    requires f in CompileSource(s, autorange, p.keithley[s].values + a.Given(), a.names).value.config.values
    requires !DecidedElsewhere(CompileSource(s, autorange, p.keithley[s].values + a.Given(), a.names).value, f)
    ensures ValueOf(CompileSource(s, autorange, p.keithley[s].values + a.Given(), a.names).value.config, f) == ValueOf(p.keithley[s], f)
  {
    hide DecidedElsewhere, HasField, SourceRecord;
    var given := p.keithley[s].values + a.Given();
    SourceRecordValues(s, autorange, given);
    GivenIs(a, f);
    assert f in given && HasField(KeithleyKey(s), f);
    SourceHolds(s, autorange, given, a.names, f);
  }

  // ---- The cursor ----

  class Tracker {
    var actions: seq<Kind>
    var cursor: nat
    var context: map<Setpoint, Value>
    var keithley: map<Smu, Config>
    var rigol: map<RigolChannel, Config>
    var mode: Option<AnalyzerMode>
    ghost var authored: seq<Kind>

    ghost predicate Valid()
      reads this
    {
      && cursor <= |actions| == |authored|
      && actions[..cursor] == RewrittenAll(authored[..cursor])
      && actions[cursor..] == authored[cursor..]
      && Planned(context, keithley, rigol, mode) == Replayed(authored[..cursor])
      && Built(authored)
    }

    constructor ()
      ensures Valid() && authored == []
    {
      actions, cursor, context, keithley, rigol, mode, authored := [], 0, map[], map[], map[], None, [];
    }

    /** One node of the expansion: the state catches up, the record is made from it and appended, or refused. */
    method Append(autorange: bool, node: Node) returns (o: Outcome)
      requires Valid()
      modifies this
      ensures Valid()
      ensures var made := Compile(Replayed(old(authored)), autorange, node);
              && (o.Done? <==> made.Ok?) && (o.Raised? ==> o.error == made.error)
              && authored == if made.Ok? then old(authored) + [made.value] else old(authored)
      ensures cursor == |old(authored)|
    {
      hide Built, BuiltFrom, Replayed, RewrittenAll, Compile;
      Sync();
      var p := Planned(context, keithley, rigol, mode);
      var made := Compile(p, autorange, node);
      if made.Err? {
        return Raised(made.error);
      }
      PlannedSourcesComplete(authored);
      CompiledIsBuilt(p, autorange, node);
      BuiltOneMore(authored, made.value);
      assert (authored + [made.value])[..cursor] == authored[..cursor];
      assert (actions + [made.value])[..cursor] == actions[..cursor];
      actions := actions + [made.value];
      authored := authored + [made.value];
      return Done;
    }

    /** An action that needs no record is appended without catching up. */
    method AppendPlain(kind: PlainKind)
      requires Valid()
      modifies this
      ensures Valid() && authored == old(authored) + [kind] && cursor == old(cursor)
    {
      hide Built, BuiltFrom, Replayed, RewrittenAll;
      PlainIsBuilt(Replayed(authored), kind);
      BuiltOneMore(authored, kind);
      assert (authored + [kind])[..cursor] == authored[..cursor];
      assert (actions + [kind])[..cursor] == actions[..cursor];
      actions := actions + [kind];
      authored := authored + [kind];
    }

    method TrackOne()
      requires Valid() && cursor < |actions|
      modifies this
      ensures Valid() && authored == old(authored) && cursor == old(cursor) + 1
    {
      hide Built;
      var k := actions[cursor];
      assert k == actions[cursor..][0] == authored[cursor..][0] == authored[cursor];
      TrackedOneMore(authored, actions, cursor);
      context := Remember(context, k);
      mode := ModeAfter(mode, k);
      rigol := RigolAfter(rigol, k);
      if k.ConfigureKeithley? {
        var merged := Merge(Lookup(keithley, k.smu), k.config);
        actions := actions[cursor := ConfigureKeithley(k.smu, merged.(mask := k.config.mask))];
        keithley := keithley[k.smu := merged];
      } else {
        keithley := KeithleyAfter(keithley, k);
      }
      cursor := cursor + 1;
    }

    /**
     Catches up with the list. However appends and catching up alternate, the state is then that of one fold over the
     list as it was authored, and the list holds the rewritten requests.
     */
    method Sync()
      requires Valid()
      modifies this
      ensures Valid() && authored == old(authored) && cursor == |actions|
      ensures Planned(context, keithley, rigol, mode) == Replayed(authored)
      ensures actions == RewrittenAll(authored)
    {
      while cursor < |actions|
        invariant Valid() && authored == old(authored)
        decreases |actions| - cursor
      {
        TrackOne();
      }
      assert authored[..cursor] == authored && actions[..cursor] == actions;
    }
  }

  lemma TrackedOneMore(authored: seq<Kind>, actions: seq<Kind>, cursor: nat)
    requires cursor < |actions| == |authored|
    requires actions[..cursor] == RewrittenAll(authored[..cursor]) && actions[cursor..] == authored[cursor..]
    ensures Replayed(authored[..cursor + 1]) == Advance(Replayed(authored[..cursor]), authored[cursor])
    ensures var rewritten := actions[cursor := Rewritten(Replayed(authored[..cursor]), authored[cursor])];
            && rewritten[..cursor + 1] == RewrittenAll(authored[..cursor + 1])
            && rewritten[cursor + 1..] == authored[cursor + 1..]
    ensures actions[cursor := actions[cursor]] == actions && actions[cursor] == authored[cursor]
  {
    hide Advance, Rewritten;
    assert authored[..cursor + 1][..cursor] == authored[..cursor];
    assert actions[cursor] == actions[cursor..][0];
    assert actions[cursor + 1..] == actions[cursor..][1..];
    assert authored[cursor + 1..] == authored[cursor..][1..];
  }

  /** The planned state has what a node has authored. */
  predicate PlannedAsAuthored(node: Node, k: Kind, q: Planned) {
    forall f | f in node.authored.names && !DecidedElsewhere(k, f) ::
      HeldAs(node, f, if f in node.authored.values then node.authored.values[f] else Missing, q)
  }

  /** The planned state has this value for the setting of the node, if it tracks the setting. */
  predicate HeldAs(node: Node, f: Field, v: Value, q: Planned) {
    match node
    case SourceBlock(s, _) => s in q.keithley && ValueOf(q.keithley[s], f) == v
    case SourceModule(s, _, _) => s in q.keithley && ValueOf(q.keithley[s], f) == v
    case CarrierBlock(r, _) => r in q.rigol && ValueOf(q.rigol[r], f) == v
    case GeneratorBlock(_) => f in GENERATOR_BASIS ==> Generator(f) in q.context && q.context[Generator(f)] == v
    case SpectrumBlock(_) => f in ANALYZER_BASIS ==> Spectrum(f) in q.context && q.context[Spectrum(f)] == v
    case SpectrumPatch(_) => f in ANALYZER_BASIS ==> Spectrum(f) in q.context && q.context[Spectrum(f)] == v
    case _ => true
  }

  lemma AssignedIsPlanned(p: Planned, node: Node, k: Kind)
    requires Assigns(node, k) && BuiltFrom(p, k)
    ensures PlannedAsAuthored(node, k, Advance(p, k))
  {
    hide RecordOf, NamesAll, BuiltSource, States, DecidedElsewhere;
    if k.ConfigureKeithley? {
      SourceIsPlanned(p, node, k);
    }
  }

  lemma SourceIsPlanned(p: Planned, node: Node, k: Kind)
    requires Assigns(node, k) && BuiltFrom(p, k) && k.ConfigureKeithley?
    ensures PlannedAsAuthored(node, k, Advance(p, k))
  {
    hide RecordOf, NamesAll, BuiltSource, States, Merge;
    BuiltRecordsStateWhatIsHeld(p, k);
    forall f | f in node.authored.names && !DecidedElsewhere(k, f)
      ensures ValueOf(Merge(Lookup(p.keithley, k.smu), k.config), f) == ValueOf(k.config, f)
    {
      MergeHolds(Lookup(p.keithley, k.smu), k, f);
    }
  }

  /** A merged request has what the request selects, unless measuring alone clears it. */
  lemma MergeHolds(previous: Option<Config>, k: Kind, f: Field)
    requires k.ConfigureKeithley? && (k.config.mask.Some? ==> f in k.config.mask.value) && !DecidedElsewhere(k, f)
    requires ValueOf(k.config, Mode) == ValueOf(Merge(previous, k.config), Mode)
    ensures ValueOf(Merge(previous, k.config), f) == ValueOf(k.config, f)
  {
  }

  // ---- The expansion of a recipe ----

  /** What the expansion comes to: a node that a record is made from, or an action that needs none. */
  datatype Item = Record(node: Node) | Plain(kind: PlainKind)

  /** The list as it is authored, or the first refusal. */
  function Compilation(autorange: bool, items: seq<Item>): Result<seq<Kind>> {
    if items == [] then Ok([])
    else
      match Compilation(autorange, items[..|items| - 1])
      case Err(e) => Err(e)
      case Ok(kinds) => CompiledNext(autorange, kinds, items[|items| - 1])
  }

  function CompiledNext(autorange: bool, kinds: seq<Kind>, item: Item): Result<seq<Kind>> {
    match item
    case Plain(k) => Ok(kinds + [k])
    case Record(node) =>
      match Compile(Replayed(kinds), autorange, node)
      case Err(e) => Err(e)
      case Ok(k) => Ok(kinds + [k])
  }

  /** Every list that compilation makes is one of built records. */
  lemma {:induction false} CompilationIsBuilt(autorange: bool, items: seq<Item>)
    requires Compilation(autorange, items).Ok?
    ensures Built(Compilation(autorange, items).value)
  {
    hide Built, BuiltFrom, Compile, Replayed;
    if items == [] {
      NothingBuilt();
    } else {
      var kinds, item := Compilation(autorange, items[..|items| - 1]).value, items[|items| - 1];
      CompilationIsBuilt(autorange, items[..|items| - 1]);
      match item {
        case Plain(k) =>
          PlainIsBuilt(Replayed(kinds), k);
          BuiltOneMore(kinds, k);
        case Record(node) =>
          PlannedSourcesComplete(kinds);
          CompiledIsBuilt(Replayed(kinds), autorange, node);
          BuiltOneMore(kinds, Compile(Replayed(kinds), autorange, node).value);
      }
    }
  }

  /** Item by item: an action as it is, and a record that assigns, and plans, what its node has authored. */
  ghost predicate AsAuthored(items: seq<Item>, kinds: seq<Kind>) {
    && |kinds| == |items|
    && (forall i | 0 <= i < |items| && items[i].Plain? :: kinds[i] == items[i].kind)
    && (forall i | 0 <= i < |items| && items[i].Record? :: Assigns(items[i].node, kinds[i]))
  }

  /** Every record of a compilation assigns what its node has authored, and with it that is what is planned. */
  lemma {:induction false} CompilationAssigns(autorange: bool, items: seq<Item>, i: nat)
    requires Compilation(autorange, items).Ok? && i < |items|
    ensures var kinds := Compilation(autorange, items).value;
            && |kinds| == |items|
            && (items[i].Plain? ==> kinds[i] == items[i].kind)
            && (items[i].Record? ==>
                  && Assigns(items[i].node, kinds[i]) && RangeDecided(autorange, items[i].node, kinds[i])
                  && PlannedAsAuthored(items[i].node, kinds[i], Replayed(kinds[..i + 1])))
  {
    hide Compile, Assigns, RangeDecided, PlannedAsAuthored, Replayed, Built, BuiltFrom;
    var n := |items| - 1;
    var front, kinds := Compilation(autorange, items[..n]).value, Compilation(autorange, items).value;
    CompilationLength(autorange, items);
    assert kinds[..n] == front;
    if i < n {
      CompilationAssigns(autorange, items[..n], i);
      assert kinds[..i + 1] == front[..i + 1];
    } else if items[n].Record? {
      CompilationIsBuilt(autorange, items[..n]);
      RecordAssigns(autorange, front, items[n].node);
      assert kinds[..n + 1] == front + [kinds[n]];
    }
  }

  lemma {:induction false} CompilationLength(autorange: bool, items: seq<Item>)
    requires Compilation(autorange, items).Ok?
    ensures |Compilation(autorange, items).value| == |items|
  {
    hide Compile, Replayed;
    if items != [] {
      CompilationLength(autorange, items[..|items| - 1]);
    }
  }

  lemma CompilationIsAsAuthored(autorange: bool, items: seq<Item>)
    requires Compilation(autorange, items).Ok?
    ensures AsAuthored(items, Compilation(autorange, items).value)
  {
    hide Compilation, Assigns, RangeDecided, PlannedAsAuthored, Replayed;
    CompilationLength(autorange, items);
    forall i | 0 <= i < |items|
      ensures items[i].Plain? ==> Compilation(autorange, items).value[i] == items[i].kind
      ensures items[i].Record? ==> Assigns(items[i].node, Compilation(autorange, items).value[i])
    {
      CompilationAssigns(autorange, items, i);
    }
  }

  lemma RecordAssigns(autorange: bool, kinds: seq<Kind>, node: Node)
    requires Built(kinds) && Compile(Replayed(kinds), autorange, node).Ok?
    ensures var k := Compile(Replayed(kinds), autorange, node).value;
            Assigns(node, k) && RangeDecided(autorange, node, k) && PlannedAsAuthored(node, k, Replayed(kinds + [k]))
  {
    hide Compile, Assigns, RangeDecided, PlannedAsAuthored, Built, BuiltFrom, Advance;
    var k := Compile(Replayed(kinds), autorange, node).value;
    CompiledAssigns(Replayed(kinds), autorange, node);
    PlannedSourcesComplete(kinds);
    CompiledIsBuilt(Replayed(kinds), autorange, node);
    AssignedIsPlanned(Replayed(kinds), node, k);
    assert (kinds + [k])[..|kinds|] == kinds;
  }

  lemma NothingCompiled(autorange: bool)
    ensures Compilation(autorange, []) == Ok([])
  {
  }

  lemma CompiledOneMore(autorange: bool, items: seq<Item>, kinds: seq<Kind>, item: Item)
    requires Compilation(autorange, items) == Ok(kinds)
    ensures Compilation(autorange, items + [item]) == CompiledNext(autorange, kinds, item)
  {
    hide CompiledNext;
    assert (items + [item])[..|items|] == items;
  }

  lemma NothingBuilt()
    ensures Built([])
  {
  }

  lemma {:induction false} RefusalStands(autorange: bool, items: seq<Item>, n: nat)
    requires n <= |items| && Compilation(autorange, items[..n]).Err?
    ensures Compilation(autorange, items) == Compilation(autorange, items[..n])
  {
    hide CompiledNext;
    if n == |items| {
      assert items[..n] == items;
    } else {
      var m := |items| - 1;
      assert items[..m][..n] == items[..n];
      RefusalStands(autorange, items[..m], n);
    }
  }

  /** The list as it stands when a beginning of it has been caught up with. */
  function RewrittenUpTo(kinds: seq<Kind>, n: nat): seq<Kind>
    requires n <= |kinds|
  {
    RewrittenAll(kinds[..n]) + kinds[n..]
  }

  // ---- The rewrite is harmless ----

  /** Merging an already merged request again, under its own mask, changes nothing. */
  lemma MergeIsIdempotent(previous: Option<Config>, request: Config)
    ensures Merge(previous, Merge(previous, request).(mask := request.mask)) == Merge(previous, request)
  {
    var once := Merge(previous, request);
    if previous.Some? && request.mask.Some? {
      var twice := Merge(previous, once.(mask := request.mask));
      assert twice.values == once.values;
    }
  }

  lemma RewrittenLast(kinds: seq<Kind>)
    requires kinds != []
    ensures var init := kinds[..|kinds| - 1];
            && RewrittenAll(kinds)[..|kinds| - 1] == RewrittenAll(init)
            && RewrittenAll(kinds)[|kinds| - 1] == Rewritten(Replayed(init), kinds[|kinds| - 1])
  {
    hide Rewritten, Replayed;
  }

  /** The devices end up in the same state from the rewritten list as from the authored one. */
  lemma {:induction false} RewritingKeepsDevices(kinds: seq<Kind>)
    ensures Replayed(RewrittenAll(kinds)).keithley == Replayed(kinds).keithley
    ensures Replayed(RewrittenAll(kinds)).rigol == Replayed(kinds).rigol
    ensures Replayed(RewrittenAll(kinds)).mode == Replayed(kinds).mode
  {
    if kinds != [] {
      var init, last := kinds[..|kinds| - 1], kinds[|kinds| - 1];
      RewritingKeepsDevices(init);
      RewrittenLast(kinds);
      if last.ConfigureKeithley? {
        MergeIsIdempotent(Lookup(Replayed(init).keithley, last.smu), last.config);
      }
    }
  }

  /**
   Every record that was made from the planned state says itself what the source will hold: its mode, and with a
   source mode its level, whatever its mask leaves out.
   */
  lemma BuiltRecordsStateWhatIsHeld(p: Planned, k: Kind)
    requires BuiltFrom(p, k) && k.ConfigureKeithley?
    ensures var held := Merge(Lookup(p.keithley, k.smu), k.config);
            && ValueOf(k.config, Mode) == ValueOf(held, Mode)
            && (Sources(ValueOf(held, Mode)) ==> ValueOf(k.config, LevelSi) == ValueOf(held, LevelSi))
  {
  }

  /** Rewriting a built record leaves it built, and the setpoint it states for later checkpoints as it is. */
  lemma RewrittenIsBuilt(p: Planned, q: Planned, k: Kind)
    requires BuiltFrom(p, k) && CompleteSources(p.keithley) && q.keithley == p.keithley && q.context == p.context
    ensures BuiltFrom(q, Rewritten(p, k)) && Remember(q.context, Rewritten(p, k)) == Remember(p.context, k)
  {
    hide RecordOf, NamesAll, BuiltSource, Merge, States;
    if k.ConfigureKeithley? {
      var merged := Merge(Lookup(p.keithley, k.smu), k.config);
      SourceIsRewritten(p, k);
      RememberedSource(p.context, k.smu, k.config, merged.(mask := k.config.mask));
    }
  }

  lemma SourceIsRewritten(p: Planned, k: Kind)
    requires BuiltFrom(p, k) && k.ConfigureKeithley? && CompleteSources(p.keithley)
    ensures var held := Merge(Lookup(p.keithley, k.smu), k.config);
            && RecordOf(held.(mask := k.config.mask), KeithleyKey(k.smu))
            && BuiltSource(Lookup(p.keithley, k.smu), held.(mask := k.config.mask))
            && ValueOf(k.config, Mode) == ValueOf(held, Mode)
            && (Sources(ValueOf(held, Mode)) ==> ValueOf(k.config, LevelSi) == ValueOf(held, LevelSi))
  {
    hide RecordOf, BuiltSource, Merge;
    MergedIsComplete(k.smu, Lookup(p.keithley, k.smu), k.config);
    MergedIsBuilt(Lookup(p.keithley, k.smu), k.config);
    BuiltRecordsStateWhatIsHeld(p, k);
  }

  lemma RememberedSource(context: map<Setpoint, Value>, smu: Smu, a: Config, b: Config)
    requires ValueOf(a, Mode) == ValueOf(b, Mode) && (Sources(ValueOf(b, Mode)) ==> ValueOf(a, LevelSi) == ValueOf(b, LevelSi))
    ensures RememberSource(context, smu, a) == RememberSource(context, smu, b)
  {
  }

  lemma MergedIsBuilt(previous: Option<Config>, request: Config)
    requires request.mask.Some? && BuiltSource(previous, request)
    ensures BuiltSource(previous, Merge(previous, request).(mask := request.mask))
  {
    if previous.Some? && Mode !in request.mask.value {
      var merged := Merge(previous, request);
      assert ValueOf(merged, Mode) == ValueOf(previous.value, Mode);
    }
  }

  /** Rewriting changes nothing that is tracked: later checkpoints state the same setpoints, and the list stays built. */
  lemma {:induction false} RewritingKeepsPlannedState(kinds: seq<Kind>)
    requires Built(kinds)
    ensures Replayed(RewrittenAll(kinds)) == Replayed(kinds) && Built(RewrittenAll(kinds))
  {
    if kinds != [] {
      var init, last := kinds[..|kinds| - 1], kinds[|kinds| - 1];
      BuiltFront(kinds);
      RewritingKeepsPlannedState(init);
      RewritingKeepsDevices(kinds);
      RewrittenLast(kinds);
      PlannedSourcesComplete(init);
      RewrittenIsBuilt(Replayed(init), Replayed(RewrittenAll(init)), last);
      BuiltOneMore(RewrittenAll(init), Rewritten(Replayed(init), last));
      assert RewrittenAll(kinds) == RewrittenAll(init) + [Rewritten(Replayed(init), last)];
    }
  }

  /** So does rewriting a beginning of the list. */
  lemma {:induction false} RewrittenUpToIsBuilt(kinds: seq<Kind>, n: nat)
    requires Built(kinds) && n <= |kinds|
    ensures Built(RewrittenUpTo(kinds, n)) && Replayed(RewrittenUpTo(kinds, n)) == Replayed(kinds)
  {
    hide Built, BuiltFrom, Advance, RewrittenAll;
    if n == |kinds| {
      assert kinds[..n] == kinds && RewrittenUpTo(kinds, n) == RewrittenAll(kinds);
      RewritingKeepsPlannedState(kinds);
    } else {
      var m := |kinds| - 1;
      var init, last := kinds[..m], kinds[m];
      BuiltFront(kinds);
      RewrittenUpToIsBuilt(init, n);
      assert init[..n] == kinds[..n] && kinds[n..] == init[n..] + [last];
      assert RewrittenUpTo(kinds, n) == RewrittenUpTo(init, n) + [last];
      BuiltOneMore(RewrittenUpTo(init, n), last);
      assert (RewrittenUpTo(init, n) + [last])[..m] == RewrittenUpTo(init, n);
    }
  }

  /** A rewritten request still assigns what its node has authored. */
  lemma RewrittenAssigns(p: Planned, node: Node, k: Kind)
    requires Assigns(node, k) && BuiltFrom(p, k)
    ensures Assigns(node, Rewritten(p, k))
  {
    hide RecordOf, NamesAll, BuiltSource, States, Merge, DecidedElsewhere;
    if k.ConfigureKeithley? {
      BuiltRecordsStateWhatIsHeld(p, k);
      var held := Merge(Lookup(p.keithley, k.smu), k.config);
      SameDecisions(k, Rewritten(p, k));
      forall f | f in node.authored.names && !DecidedElsewhere(k, f) ensures ValueOf(held, f) == ValueOf(k.config, f) {
        MergeHolds(Lookup(p.keithley, k.smu), k, f);
      }
    }
  }

  lemma SameDecisions(a: Kind, b: Kind)
    requires a.ConfigureKeithley? && b.ConfigureKeithley? && ValueOf(a.config, Mode) == ValueOf(b.config, Mode)
    ensures forall f :: DecidedElsewhere(a, f) <==> DecidedElsewhere(b, f)
  {
  }

  lemma {:induction false} RewrittenAllAt(kinds: seq<Kind>, i: nat)
    requires i < |kinds|
    ensures RewrittenAll(kinds)[i] == Rewritten(Replayed(kinds[..i]), kinds[i])
  {
    hide Rewritten, Replayed;
    var n := |kinds| - 1;
    if i < n {
      RewrittenAllAt(kinds[..n], i);
      assert kinds[..n][..i] == kinds[..i];
    }
  }

  lemma RewrittenAsAuthored(items: seq<Item>, kinds: seq<Kind>, n: nat)
    requires AsAuthored(items, kinds) && Built(kinds) && n <= |kinds|
    ensures AsAuthored(items, RewrittenUpTo(kinds, n))
  {
    hide Assigns, Rewritten, Replayed, BuiltFrom, RewrittenAll;
    var r := RewrittenUpTo(kinds, n);
    forall i | 0 <= i < |items|
      ensures items[i].Plain? ==> r[i] == items[i].kind
      ensures items[i].Record? ==> Assigns(items[i].node, r[i])
    {
      if i < n {
        RewrittenAllAt(kinds[..n], i);
        assert kinds[..n][..i] == kinds[..i] && BuiltFrom(Replayed(kinds[..i]), kinds[i]);
        if items[i].Record? {
          RewrittenAssigns(Replayed(kinds[..i]), items[i].node, kinds[i]);
        } else {
          PlainIsNotRewritten(Replayed(kinds[..i]), items[i].kind);
        }
      }
    }
  }

  lemma PlainIsNotRewritten(p: Planned, k: PlainKind)
    ensures Rewritten(p, k) == k
  {
  }

  /**
   The expansion over one tracker: refused with the first refusal, or the authored list with the requests rewritten that
   it has caught up with. Either way of ending up is harmless: the list is one of built records, and the planned state
   is that of the authored list.
   */
  method Expand(autorange: bool, items: seq<Item>) returns (r: Result<seq<Kind>>)
    ensures r.Ok? <==> Compilation(autorange, items).Ok?
    ensures r.Err? ==> r.error == Compilation(autorange, items).error
    ensures r.Ok? ==> exists n: nat ::
              n <= |Compilation(autorange, items).value| && r.value == RewrittenUpTo(Compilation(autorange, items).value, n)
    ensures r.Ok? ==> Built(r.value) && Replayed(r.value) == Replayed(Compilation(autorange, items).value)
    ensures r.Ok? ==> AsAuthored(items, r.value)
    ensures r.Ok? && items != [] && items[|items| - 1].Record? ==>
              PlannedAsAuthored(items[|items| - 1].node, Compilation(autorange, items).value[|items| - 1], Replayed(r.value))
  {
    hide Built, BuiltFrom, Replayed, RewrittenAll, Compile, AsAuthored, PlannedAsAuthored, RangeDecided;
    var tracker := new Tracker();
    for i := 0 to |items|
      invariant tracker.Valid() && fresh(tracker)
      invariant Compilation(autorange, items[..i]) == Ok(tracker.authored)
    {
      assert items[..i + 1][..i] == items[..i];
      match items[i] {
        case Plain(kind) => tracker.AppendPlain(kind);
        case Record(node) =>
          var o := tracker.Append(autorange, node);
          if o.Raised? {
            RefusalStands(autorange, items, i + 1);
            return Err(o.error);
          }
      }
    }
    assert items[..|items|] == items;
    assert tracker.actions == tracker.actions[..tracker.cursor] + tracker.actions[tracker.cursor..];
    assert tracker.actions == RewrittenUpTo(tracker.authored, tracker.cursor);
    RewrittenUpToIsBuilt(tracker.authored, tracker.cursor);
    CompilationIsAsAuthored(autorange, items);
    if items != [] {
      CompilationAssigns(autorange, items, |items| - 1);
    }
    RewrittenAsAuthored(items, tracker.authored, tracker.cursor);
    assert tracker.authored[..|tracker.authored|] == tracker.authored;
    return Ok(tracker.actions);
  }
}
